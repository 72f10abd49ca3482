/** What the trusted constructors and the create schema accept of a value before it reaches a handler
    (src/awakening/state/m4/contracts.py and schemas/m2/program.create.payload.schema.json). */
module Contracts {
  import opened Base
  import opened Plans
  import opened Tables

  predicate IsLower(c: char) { 'a' <= c <= 'z' || '0' <= c <= '9' }
  predicate IsAlphanumeric(c: char) { IsLower(c) || 'A' <= c <= 'Z' }

  const AuthorizedAlias := "aliyun-model-studio-official"
  const AuthorizedModel := "qwen3.7-flash-2026-07-15"

  /** Lower-case letters and digits, after the first one also dot, underscore and hyphen; at most 64. */
  predicate IsProviderAlias(s: string) {
    && 1 <= |s| <= 64 && IsLower(s[0])
    && forall i :: 0 <= i < |s| ==> IsLower(s[i]) || s[i] == '.' || s[i] == '_' || s[i] == '-'
  }

  /** The form of an idempotency key; at most 128 characters. */
  predicate IsCommandKey(s: string) {
    && 1 <= |s| <= 128 && IsAlphanumeric(s[0])
    && forall i :: 0 <= i < |s| ==> IsAlphanumeric(s[i]) || s[i] == '.' || s[i] == '_' || s[i] == ':' || s[i] == '-'
  }

  /** The form of a Provider's request identifier; at most 256 characters, no space. */
  predicate IsStableIdentifier(s: string) {
    && 1 <= |s| <= 256 && IsAlphanumeric(s[0])
    && forall i :: 0 <= i < |s| ==>
         IsAlphanumeric(s[i]) || s[i] == '.' || s[i] == '_' || s[i] == ':' || s[i] == '/' || s[i] == '-'
  }

  predicate IsTaskKey(s: string) {
    && 1 <= |s| <= 64 && IsAlphanumeric(s[0])
    && forall i :: 0 <= i < |s| ==> IsAlphanumeric(s[i]) || s[i] == '.' || s[i] == '_' || s[i] == '-'
  }

  /** The create payload. */
  predicate PlanAccepted(p: Plan) {
    && 1 <= |p.targetRole| <= 500 && 1 <= p.durationWeeks <= 520 && 1 <= |p.coreProject| <= 2000 && 1 <= |p.rubric| <= 4000
    && 1 <= |p.tasks| <= 256
    && forall i :: 0 <= i < |p.tasks| ==>
         IsTaskKey(p.tasks[i].key) && 1 <= |p.tasks[i].title| <= 500 && p.tasks[i].order >= 0
  }

  /** RuntimeConfigSpec: besides parameters and caps, the one authorised Provider and model. */
  predicate ConfigAccepted(c: RuntimeConfig) {
    c.providerAlias == AuthorizedAlias && c.modelId == AuthorizedModel
  }

  /** ModelBudgetRequest. */
  predicate RequestAccepted(q: BudgetRequest) {
    q.maxima.input >= 1 && q.maxima.output >= 1 && q.maxima.cost >= 1
  }

  /** TrustedProviderUsageReceipt: digests and identifiers in form, and a succeeded call has both. */
  predicate UsageAccepted(u: UsageReceipt) {
    && IsProviderAlias(u.providerAlias) && IsSha256(u.requestSha256)
    && (u.responseSha256.Some? ==> IsSha256(u.responseSha256.value))
    && (u.providerRequestId.Some? ==> IsStableIdentifier(u.providerRequestId.value))
    && (u.providerStatus == Succeeded ==> u.responseSha256.Some? && u.providerRequestId.Some?)
    && 1 <= |u.issuedBy| <= 255
  }
}
