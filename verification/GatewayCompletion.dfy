/** The run of GatewayDemonstration answered under an identifier in form: it is settled, and the answer is OK. */
module GatewayCompletion {
  import opened Base
  import opened Tables
  import opened Contracts
  import opened Spec
  import opened Cost
  import opened Outcomes
  import opened Reasons
  import opened Demonstration
  import opened Gateway
  import opened GatewayAnswers
  import opened GatewayDemonstration
  import Invariant
  import Provenance

  /** The same answer under an identifier in form. */
  function GoodAnswer(): Reply { Answered(90, 10, Digest('b'), "req-1") }

  lemma GoodAnswerIsInForm()
    ensures IsStableIdentifier(GoodAnswer().requestId)
  {
    hide Digest;
    assert IsStableIdentifier("req-1");
  }

  /** A phase that the good answer leads to. */
  predicate IsAnswered(p: Phase) {
    p.Returned? && p.config == Small && p.sha == Digest('a')
  }

  function SettlementOne(p: Phase): Envelope
    requires p.Returned?
  {
    SettlementSent(GatewayOne(), PlanOne(), p, V4(6), 0)
  }

  lemma SettlementKeyIsNew(db: Tables, p: Phase)
    requires After(db, 5) && IsAnswered(p)
    ensures KeyIsNew(db.log, SettlementOne(p)) && LogNamesNew(db.log, SettlementOne(p), Inputs1(6))
  {
    hide HasService, BudgetAfter, Plans3, Small, Digest, AuthorizedAlias, GatewayId;
    var e := SettlementOne(p);
    assert |e.key| >= 10;
    forall i | 0 <= i < |db.log.events| ensures db.log.events[i].id != V4(6) {
      assert db.log.events[i] in db.log.events;
    }
    forall i | 0 <= i < |db.log.outbox| ensures db.log.outbox[i].id != V4(6) {
      assert db.log.outbox[i] in db.log.outbox;
    }
  }

  lemma SettlementFits(db: Tables, p: Phase)
    requires After(db, 5) && IsAnswered(p)
    ensures SettlementOne(p).command.SettleBudget?
    ensures CanSettle(SettlementOne(p), db.budget, SettlementOne(p).command.usage) && db.budget.ledger == map[]
  {
    hide UsedUpTo, HasService, Plans3, TextOf, Rows, Digest, PlanOne, AuthorizedAlias, AuthorizedModel, GatewayId;
    RowOfPlan(2);
  }

  lemma SettlementCommits(db: Tables, p: Phase)
    requires After(db, 5) && IsAnswered(p)
    ensures CommitsNow(Service1, db, SettlementOne(p), Inputs1(6))
  {
    hide After, MayRead, Admitted, Current, KeyIsNew, LogNamesNew, CanSettle, CommitsNow, GatewayOne, PlanOne, Small, Digest, Inputs1;
    ServiceMayRead(db);
    SettlementIsAdmitted(GatewayOne(), db.core, PlanOne(), p, V4(6), 0);
    SettlementKeyIsNew(db, p);
    SettlementFits(db, p);
    SettlementCommitsIf(Service1, db, SettlementOne(p), Inputs1(6));
  }

  lemma AnswersWell(w: World, db: Tables, n: World)
    requires Stands(w, db, Calling(Small, Held(3), Digest('a'), WireBytes), [0]) && n == Next(GatewayOne(), w, EndCall(0, GoodAnswer()))
    ensures n.db == db && Waits(n, 0) && IsAnswered(n.threads[0].phase) && n.threads[0].plan == Some(PlanOne())
  {
    hide Step, Next, IsStableIdentifier, Reports, Held, Digest, GatewayOne, SessionOne, PlanOne, Ask, Small;
    GoodAnswerIsInForm();
    CallEnds(GatewayOne(), w, 0, GoodAnswer());
  }

  lemma {:induction false} KeysOfRun()
    ensures KeysUnique(RowsAfter(5).core)
  {
    hide Run, Invariant.Inv, KeysUnique;
    Invariant.EmptyInv();
    Invariant.RunKeeps(Service1, EmptyTables, Calls1(5));
    Provenance.InvKeysUnique(RowsAfter(5));
  }

  /** The least whole amount that covers 90 and 10 tokens. */
  lemma ReportIs(report: Amounts)
    requires Reports(Price(200_000, 800_000), 90, 10, report)
    ensures report == Amounts(90, 10, 26)
  {
  }

  function Finish(): seq<Action> { Ending(0, GoodAnswer(), V4(6), 0, Inputs1(6)) }

  lemma GatewayOneIs()
    ensures GatewayOne().cfg == Service1 && GatewayOne().price == Price(200_000, 800_000) && PlanOne().reservation == V4(30)
  {
    hide Plans3, TextOf, AuthorizedAlias, GatewayId;
  }

  predicate IsCalling(w: World, db: Tables) {
    w.db == db && 0 in w.threads && w.threads[0].phase.Calling? && w.threads[0].plan == Some(PlanOne())
  }

  predicate HasReturned(w: World, db: Tables) {
    w.db == db && Waits(w, 0) && IsAnswered(w.threads[0].phase) && w.threads[0].plan == Some(PlanOne())
  }

  lemma {:induction false} CallIsGoingOn(db: Tables)
    requires After(db, 5)
    ensures IsCalling(Reached(GatewayOne(), db, Script()[..6]), db)
    ensures HasReturned(Reached(GatewayOne(), db, Script()[..6] + [EndCall(0, GoodAnswer())]), db)
  {
    hide Script, Reached, After, Step, PlanOne, SessionOne, Ask, Small, IsAnswered, Digest, Next, Held, GatewayOne, GoodAnswer;
    ScriptRuns(db);
    ReachedOneMore(GatewayOne(), db, Script()[..6], EndCall(0, GoodAnswer()));
    AnswersWell(Reached(GatewayOne(), db, Script()[..6]), db, Reached(GatewayOne(), db, Script()[..6] + [EndCall(0, GoodAnswer())]));
  }

  /** The caller has the answer OK and its receipt, and its reservation is charged for the 90 and 10 tokens reported. */
  predicate EndsOk(w: World) {
    && 0 in w.threads && Finished(w.threads[0].phase) && AnswerOf(w.threads[0].phase) == OK && 0 in w.receipts
    && V4(30) in w.db.budget.reservations && w.db.budget.reservations[V4(30)].status == Settled
    && w.db.budget.reservations[V4(30)].charged == Some(Amounts(90, 10, 26))
  }

  lemma {:induction false} AnsweredRunEnds(db: Tables)
    requires After(db, 5) && KeysUnique(db.core)
    ensures EndsOk(Reached(GatewayOne(), db, Script()[..6] + Finish()))
  {
    hide Script, Reached, After, Step, PlanOne, Small, IsAnswered, Digest, Next, Held, GatewayOne, GoodAnswer, KeysUnique, CommitsNow,
      IsStableIdentifier, Reports, Inputs1, SettlementSent;
    CallIsGoingOn(db);
    GatewayOneIs();
    SettlementCommits(db, Reached(GatewayOne(), db, Script()[..6] + [EndCall(0, GoodAnswer())]).threads[0].phase);
    GoodAnswerIsInForm();
    assert GoodAnswer().Answered? && GoodAnswer().input == 90 && GoodAnswer().output == 10 by { GoodAnswerIs(); }
    OkIsReached(GatewayOne(), db, Script()[..6], 0, GoodAnswer(), V4(6), 0, Inputs1(6));
    ReportIs(Reached(GatewayOne(), db, Script()[..6] + Finish()).db.budget.reservations[V4(30)].charged.value);
  }

  lemma GoodAnswerIs()
    ensures GoodAnswer().Answered? && GoodAnswer().input == 90 && GoodAnswer().output == 10
  {
    hide Digest;
  }

  /** From the same rows and the same request: with an identifier in form the settlement is carried out, and the
      answer is OK. The reservation is settled at the 90 and 10 tokens reported, for 26 microunits. */
  lemma {:induction false} OkIsReachable()
    ensures EndsOk(Reached(GatewayOne(), RowsAfter(5), Script()[..6] + Finish()))
  {
    hide Script, Reached, RowsAfter, After, Step, GatewayOne, KeysUnique, Finish, EndsOk;
    EachCallCommits(5);
    KeysOfRun();
    AnsweredRunEnds(RowsAfter(5));
  }
}
