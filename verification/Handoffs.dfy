/** The handoff a role turn produces and the rules a DONE handoff must meet (memory/validate_handoff.py). */
module Handoffs {
  import opened Wrappers

  /** The five roles; `OtherRole` is any other text found in a state file. */
  datatype Role = Orchestrator | Coder | Tester | Debugger | Reviewer | OtherRole(name: string)

  /** What upper-casing the status text gives, as far as the loop asks. */
  datatype Folded = FoldsToDone | FoldsToBlocked | FoldsToOther

  /** The status field: one of the three listed spellings, or another text. */
  datatype Status = InProgress | Blocked | Done | OtherStatus(upper: Folded)

  /** The `handoff_to` field. `Empty` is the empty string, `OtherTarget` any text that names no role. */
  datatype Target = Missing | Null | Empty | NoneText | To(role: Role) | OtherTarget

  /** The metrics field; `failed` is `None` when `tests_failed` is absent or no number. */
  datatype Metrics = NoMetrics | Metrics(failed: Option<int>)

  /** `wellTyped` collects the schema checks on the fields the loop does not branch on. */
  datatype Handoff = Handoff(status: Status, target: Target, metrics: Metrics, gitVerified: bool, syncWaived: bool,
                             lessons: bool, distilled: bool, wellTyped: bool, tags: set<string>, summary: string)

  function Upper(s: Status): Folded {
    match s
    case Done => FoldsToDone
    case Blocked => FoldsToBlocked
    case InProgress => FoldsToOther
    case OtherStatus(f) => f
  }

  function TestsFailed(h: Handoff): int {
    match h.metrics
    case NoMetrics => 0
    case Metrics(failed) => if failed.Some? then failed.value else 0
  }

  datatype HandoffError = Malformed | BadStatus | BadTarget | DoneNeedsNoTarget | DoneNeedsSync | DoneNeedsLessons
                        | DoneNeedsMetrics

  predicate StructureOk(h: Handoff) {
    && h.wellTyped
    && (h.status.InProgress? || h.status.Blocked? || h.status.Done?)
    && (h.target.NoneText? || (h.target.To? && !h.target.role.OtherRole?))
  }

  /** What the checks beyond the schema demand of a handoff. */
  predicate DoneRules(h: Handoff, strict: bool) {
    h.status.Done? ==>
      && (h.target.Missing? || h.target.Null? || h.target.NoneText?)
      && (strict ==> (h.syncWaived || h.gitVerified) && (h.lessons || h.distilled) && h.metrics.Metrics?)
  }

  predicate Validates(h: Handoff, strict: bool) {
    StructureOk(h) && DoneRules(h, strict)
  }

  /** The error is in the longer list exactly when it was in the shorter one or the rule is broken. */
  predicate Adds(errors: seq<HandoffError>, out: seq<HandoffError>, e: HandoffError, broken: bool) {
    e in out <==> e in errors || broken
  }

  /** `_done_extras`: appends one error per broken rule to the shared list. */
  method DoneExtras(h: Handoff, strict: bool, errors: seq<HandoffError>) returns (out: seq<HandoffError>)
    ensures errors <= out
    ensures out == errors <==> DoneRules(h, strict)
    ensures Adds(errors, out, DoneNeedsNoTarget, h.status == Done && h.target !in {Missing, Null, NoneText})
    ensures Adds(errors, out, DoneNeedsSync, h.status == Done && strict && !h.syncWaived && !h.gitVerified)
    ensures Adds(errors, out, DoneNeedsLessons, h.status == Done && strict && !h.lessons && !h.distilled)
    ensures Adds(errors, out, DoneNeedsMetrics, h.status == Done && strict && h.metrics == NoMetrics)
    ensures forall e :: e in out && e !in errors ==>
              e in {DoneNeedsNoTarget, DoneNeedsSync, DoneNeedsLessons, DoneNeedsMetrics}
  {
    out := errors;
    if !h.status.Done? {
      return;
    }
    if !(h.target.Missing? || h.target.Null? || h.target.NoneText?) {
      out := out + [DoneNeedsNoTarget];
    }
    if !strict {
      return;
    }
    if !h.syncWaived {
      if !h.gitVerified {
        out := out + [DoneNeedsSync];
      }
    }
    if !h.lessons && !h.distilled {
      out := out + [DoneNeedsLessons];
    }
    if h.metrics.NoMetrics? {
      out := out + [DoneNeedsMetrics];
    }
  }

  /** `validate_handoff`: no errors exactly on the handoffs that validate. */
  method ValidateHandoff(h: Handoff, strict: bool) returns (ok: bool, errors: seq<HandoffError>)
    ensures ok <==> errors == []
    ensures ok <==> Validates(h, strict)
    ensures Malformed in errors <==> !h.wellTyped
    ensures BadStatus in errors <==> h.status !in {InProgress, Blocked, Done}
    ensures BadTarget in errors <==>
              h.target !in {NoneText, To(Orchestrator), To(Coder), To(Tester), To(Debugger), To(Reviewer)}
    ensures DoneNeedsNoTarget in errors <==> h.status == Done && h.target !in {Missing, Null, NoneText}
    ensures DoneNeedsSync in errors <==> h.status == Done && strict && !h.syncWaived && !h.gitVerified
    ensures DoneNeedsLessons in errors <==> h.status == Done && strict && !h.lessons && !h.distilled
    ensures DoneNeedsMetrics in errors <==> h.status == Done && strict && h.metrics == NoMetrics
  {
    errors := [];
    if !h.wellTyped {
      errors := errors + [Malformed];
    }
    if !(h.target.NoneText? || (h.target.To? && !h.target.role.OtherRole?)) {
      errors := errors + [BadTarget];
    }
    assert Malformed in errors <==> !h.wellTyped;
    assert BadTarget in errors <==> !(h.target.NoneText? || (h.target.To? && !h.target.role.OtherRole?));
    if !(h.status.InProgress? || h.status.Blocked? || h.status.Done?) {
      errors := errors + [BadStatus];
    }
    ghost var structural := errors;
    errors := DoneExtras(h, strict, errors);
    assert structural == [] <==> StructureOk(h);
    ok := |errors| == 0;
  }
}
