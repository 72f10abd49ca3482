/** The concurrency counter around the Provider in the demonstration
    (scripts/demo/agentteams_in_place_demo.py). */
module ObservedProvider {

  const CallCap := 3

  datatype Counters = Counters(inflight: int, high: int, calls: int)

  const Idle := Counters(0, 0, 0)

  predicate MayBegin(c: Counters) { c.calls < CallCap && c.inflight < CallCap }

  function Begun(c: Counters): Counters {
    Counters(c.inflight + 1, if c.inflight + 1 > c.high then c.inflight + 1 else c.high, c.calls + 1)
  }

  function Ended(c: Counters): Counters { c.(inflight := c.inflight - 1) }

  /** The shared object. Each method is one section under the lock. */
  class ObservedProvider {
    var inflight: int
    var maxInflight: int
    var callCount: int

    ghost function Now(): Counters
      reads this
    {
      Counters(inflight, maxInflight, callCount)
    }

    constructor ()
      ensures Now() == Idle
    {
      inflight, maxInflight, callCount := 0, 0, 0;
    }

    /** Refuses a fourth call, and a fourth call at the same time. */
    method Begin() returns (admitted: bool)
      modifies this
      ensures admitted == MayBegin(old(Now()))
      ensures Now() == if admitted then Begun(old(Now())) else old(Now())
    {
      if callCount >= CallCap || inflight >= CallCap { return false; }
      inflight := inflight + 1;
      callCount := callCount + 1;
      maxInflight := if inflight > maxInflight then inflight else maxInflight;
      return true;
    }

    /** Runs whether the call succeeded or raised. */
    method End()
      modifies this
      ensures Now() == Ended(old(Now()))
    {
      inflight := inflight - 1;
    }
  }

  // ---------- every interleaving of threads ----------

  /** What a thread does next at the shared object: enter, or leave after success or failure. */
  datatype Move = Enter(thread: nat) | Leave(thread: nat)

  datatype Shared = Shared(counters: Counters, inside: set<nat>, finished: set<nat>, refused: set<nat>)

  const Start := Shared(Idle, {}, {}, {})

  /** A thread enters once; it leaves only if it was admitted. Other moves are not possible and change nothing. */
  function Moved(s: Shared, m: Move): Shared {
    match m
    case Enter(t) =>
      if t in s.inside || t in s.finished || t in s.refused then s
      else if MayBegin(s.counters) then s.(counters := Begun(s.counters), inside := s.inside + {t})
      else s.(refused := s.refused + {t})
    case Leave(t) =>
      if t in s.inside then s.(counters := Ended(s.counters), inside := s.inside - {t}, finished := s.finished + {t})
      else s
  }

  function After(moves: seq<Move>): Shared {
    if moves == [] then Start else Moved(After(moves[..|moves| - 1]), moves[|moves| - 1])
  }

  predicate InStep(s: Shared) {
    && s.counters.inflight == |s.inside|
    && s.counters.calls == |s.inside| + |s.finished|
    && s.inside !! s.finished
    && 0 <= s.counters.inflight <= s.counters.high <= s.counters.calls <= CallCap
  }

  lemma Sizes(s: set<nat>, t: nat)
    ensures t !in s ==> |s + {t}| == |s| + 1
    ensures t in s ==> |s - {t}| == |s| - 1
  {
    if t in s { assert s == (s - {t}) + {t}; }
  }

  lemma EnterKeepsInStep(s: Shared, t: nat)
    requires InStep(s)
    ensures InStep(Moved(s, Enter(t)))
  {
    Sizes(s.inside, t);
  }

  lemma LeaveKeepsInStep(s: Shared, t: nat)
    requires InStep(s)
    ensures InStep(Moved(s, Leave(t)))
  {
    Sizes(s.inside, t);
    Sizes(s.finished, t);
  }

  lemma MoveKeepsInStep(s: Shared, m: Move)
    requires InStep(s)
    ensures InStep(Moved(s, m))
  {
    hide Moved, InStep;
    match m
    case Enter(t) => EnterKeepsInStep(s, t);
    case Leave(t) => LeaveKeepsInStep(s, t);
  }

  /** In every interleaving: in-flight counts the threads between begin and end, it is at most the
      high-water mark, which is at most the call count, which is at most three. */
  lemma {:induction false} CountersTellTheTruth(moves: seq<Move>)
    ensures InStep(After(moves))
  {
    if moves != [] {
      CountersTellTheTruth(moves[..|moves| - 1]);
      MoveKeepsInStep(After(moves[..|moves| - 1]), moves[|moves| - 1]);
    }
  }

  lemma {:induction false} HighWaterBounds(moves: seq<Move>, n: nat)
    requires n <= |moves|
    ensures |After(moves[..n]).inside| <= After(moves).counters.high
  {
    CountersTellTheTruth(moves);
    if n == |moves| {
      assert moves[..n] == moves;
    } else {
      var front := moves[..|moves| - 1];
      HighWaterBounds(front, n);
      assert front[..n] == moves[..n];
    }
  }

  lemma {:induction false} HighWaterIsReached(moves: seq<Move>) returns (n: nat)
    ensures n <= |moves| && |After(moves[..n]).inside| == After(moves).counters.high
  {
    CountersTellTheTruth(moves);
    assert moves[..|moves|] == moves;
    if moves == [] {
      n := 0;
    } else {
      var front := moves[..|moves| - 1];
      n := HighWaterIsReached(front);
      assert front[..n] == moves[..n];
      CountersTellTheTruth(front);
      if After(moves).counters.high != After(front).counters.high { n := |moves|; }
    }
  }

  /** The high-water mark is the true historic maximum of the number of threads inside. */
  lemma HighWaterIsTheMaximum(moves: seq<Move>)
    ensures forall n :: 0 <= n <= |moves| ==> |After(moves[..n]).inside| <= After(moves).counters.high
    ensures exists n :: 0 <= n <= |moves| && |After(moves[..n]).inside| == After(moves).counters.high
  {
    hide After;
    forall n | 0 <= n <= |moves| ensures |After(moves[..n]).inside| <= After(moves).counters.high { HighWaterBounds(moves, n); }
    var n := HighWaterIsReached(moves);
  }

  /** Once every admitted thread has left - on success or on failure - nothing is in flight, and the
      call count is the number of threads that were admitted. */
  lemma InflightReturnsToZero(moves: seq<Move>)
    requires After(moves).inside == {}
    ensures After(moves).counters.inflight == 0 && After(moves).counters.calls == |After(moves).finished|
  {
    CountersTellTheTruth(moves);
  }

  /** Draining: letting every thread that is inside leave, in any order, empties the object. */
  lemma {:induction false} LeavingDrains(moves: seq<Move>, order: seq<nat>)
    requires forall t :: t in After(moves).inside ==> t in order
    ensures After(moves + Departures(order)).counters.inflight == 0
    ensures After(moves + Departures(order)).counters.high == After(moves).counters.high
    decreases |order|
  {
    if order == [] {
      assert moves + Departures(order) == moves;
      assert After(moves).inside == {};
      InflightReturnsToZero(moves);
    } else {
      var next := moves + [Leave(order[0])];
      assert next[..|next| - 1] == moves;
      assert moves + Departures(order) == next + Departures(order[1..]);
      LeavingDrains(next, order[1..]);
    }
  }

  function Departures(order: seq<nat>): seq<Move> {
    seq(|order|, i requires 0 <= i < |order| => Leave(order[i]))
  }
}
