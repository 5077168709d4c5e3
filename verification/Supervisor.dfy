/** The role loop: turns, retries, limits, and the state on disk that a restart resumes from (memory/supervisor.py). */
module Supervisor {
  import opened Wrappers
  import opened Handoffs

  // ---------------------------------------------------------------------------------------------
  // Roles and terminals
  // ---------------------------------------------------------------------------------------------

  datatype Terminal = PrReady | PrReadyLocal | BlockedEnd | StoppedLimit | Stopped

  datatype Next = Go(role: Role) | End(terminal: Terminal)

  /** `_ALLOWED_HANDOFF` for every role but Tester, which is decided before the table is read. */
  predicate Allowed(current: Role, to: Role) {
    match current
    case Orchestrator => to == Coder
    case Coder => to == Tester
    case Debugger => to == Tester
    case Reviewer => to == Orchestrator
    case _ => false
  }

  function DefaultNext(current: Role): Next {
    match current
    case Orchestrator => Go(Coder)
    case Coder => Go(Tester)
    case Debugger => Go(Tester)
    case Reviewer => Go(Orchestrator)
    case _ => End(BlockedEnd)
  }

  function NextRole(current: Role, h: Handoff): Next {
    if Upper(h.status).FoldsToBlocked? then End(BlockedEnd)
    else if Upper(h.status).FoldsToDone? then
      if current.Reviewer? then End(PrReady) else End(BlockedEnd)
    else if current.Tester? then
      if TestsFailed(h) > 0 || h.target == To(Debugger) then Go(Debugger) else Go(Reviewer)
    else if h.target.To? && Allowed(current, h.target.role) then Go(h.target.role)
    else if h.target.Missing? || h.target.Null? || h.target.Empty? || h.target.NoneText? then DefaultNext(current)
    else End(BlockedEnd)
  }

  // ---------------------------------------------------------------------------------------------
  // What is on disk, what the outside answers, what is in memory
  // ---------------------------------------------------------------------------------------------

  datatype StateStatus = Ready | Running | Ended(terminal: Terminal) | DoneText | OtherText

  /** LOOP_STATE.json; a missing or empty active role is `None`. */
  datatype LoopState = LoopState(activeRole: Option<Role>, status: StateStatus, cycle: int)

  datatype Disk = Disk(state: LoopState, lastHandoff: Option<Handoff>)

  datatype Config = Config(maxTurns: int, maxCycles: int, maxRetries: int, createPr: bool, blockTags: set<string>)

  /** What one attempt at a turn meets: no adapter, an exception in it, one outside it, or a handoff. */
  datatype Response = NotReady | Raised | Aborts | Returned(handoff: Handoff)

  /** The outside world: the k-th adapter attempt, its pull request, and STOP before each turn of a run. */
  datatype Env = Env(responses: nat -> Response, prOpens: nat -> bool, stop: nat -> bool)

  datatype Call = Call(role: Role, incoming: Option<Handoff>)

  /** One turn as it happened: the adapter calls and the handoff that was accepted, if any. */
  datatype TurnLog = TurnLog(role: Role, calls: seq<Call>, accepted: Option<Handoff>)

  /** The variables of the loop at a turn boundary; `k` counts the attempts consumed so far. */
  datatype Loop = Loop(turns: nat, prReady: nat, role: Role, incoming: Option<Handoff>, k: nat, disk: Disk)

  datatype Outcome = Finished(terminal: Terminal) | Crashed

  datatype RunResult = RunResult(outcome: Outcome, final: Loop, log: seq<TurnLog>)

  function SaveStatus(disk: Disk, status: StateStatus): Disk {
    disk.(state := disk.state.(status := status))
  }

  function SaveRole(disk: Disk, role: Role, status: StateStatus): Disk {
    disk.(state := disk.state.(activeRole := Some(role), status := status))
  }

  // ---------------------------------------------------------------------------------------------
  // The meaning of a run
  // ---------------------------------------------------------------------------------------------

  datatype Verdict = Accepted(handoff: Handoff) | GaveUp | Unready | Abort

  datatype Attempts = Attempts(verdict: Verdict, k: nat, calls: seq<Call>)

  /** The inner loop: attempts at one turn until one validates or the retries run out. */
  function Attempt(cfg: Config, responses: nat -> Response, role: Role, incoming: Option<Handoff>, k: nat, retries: nat)
    : (a: Attempts)
    ensures a.verdict.Accepted? ==> Validates(a.verdict.handoff, Upper(a.verdict.handoff.status).FoldsToDone?)
    ensures |a.calls| <= 1 + (if cfg.maxRetries > retries then cfg.maxRetries - retries else 0)
    decreases cfg.maxRetries - retries
  {
    var call := Call(role, incoming);
    match responses(k)
    case NotReady => Attempts(Unready, k + 1, [])
    case Aborts => Attempts(Abort, k + 1, [call])
    case Raised =>
      if retries + 1 > cfg.maxRetries then Attempts(GaveUp, k + 1, [call]) else
      var rest := Attempt(cfg, responses, role, incoming, k + 1, retries + 1);
      rest.(calls := [call] + rest.calls)
    case Returned(h) =>
      if Validates(h, Upper(h.status).FoldsToDone?) then Attempts(Accepted(h), k + 1, [call])
      else if retries + 1 > cfg.maxRetries then Attempts(GaveUp, k + 1, [call]) else
      var rest := Attempt(cfg, responses, role, Some(h), k + 1, retries + 1);
      rest.(calls := [call] + rest.calls)
  }

  datatype Stepped = Stepped(loop: Loop, outcome: Option<Outcome>, log: TurnLog)

  /** What follows an accepted handoff. */
  function Conclude(cfg: Config, env: Env, s: Loop, k: nat, h: Handoff): (r: (Loop, Option<Outcome>))
    ensures r.0.turns == s.turns + 1
  {
    var done := s.(turns := s.turns + 1, k := k, incoming := Some(h), disk := s.disk.(lastHandoff := Some(h)));
    if cfg.blockTags * h.tags != {} then
      (done.(disk := SaveStatus(done.disk, Ended(BlockedEnd))), Some(Finished(BlockedEnd)))
    else
      match NextRole(s.role, h)
      case Go(role) => (done.(role := role, disk := SaveRole(done.disk, role, Running)), None)
      case End(t) =>
        if t != PrReady then (done.(disk := SaveRole(done.disk, s.role, Ended(t))), Some(Finished(t))) else
        var term := if !cfg.createPr || env.prOpens(k) then PrReady else PrReadyLocal;
        var counted := done.(prReady := s.prReady + 1, disk := SaveRole(done.disk, s.role, Ended(term)));
        if counted.prReady >= cfg.maxCycles then (counted, Some(Finished(term))) else
        var state := counted.disk.state;
        (counted.(role := Orchestrator, incoming := None,
                  disk := counted.disk.(state := LoopState(Some(Orchestrator), Running, state.cycle + 1))),
         None)
  }

  /** One pass of the outer loop after the STOP check. */
  function TurnStep(cfg: Config, env: Env, s: Loop): (step: Stepped)
    ensures step.outcome.None? ==> step.loop.turns == s.turns + 1
  {
    StepAfter(cfg, env, s, Attempt(cfg, env.responses, s.role, s.incoming, s.k, 0))
  }

  function StepAfter(cfg: Config, env: Env, s: Loop, a: Attempts): (step: Stepped)
    ensures step.outcome.None? ==> step.loop.turns == s.turns + 1
    ensures step.log.calls == a.calls && step.log.role == s.role
  {
    match a.verdict
    case Accepted(h) =>
      var (next, outcome) := Conclude(cfg, env, s, a.k, h);
      Stepped(next, outcome, TurnLog(s.role, a.calls, Some(h)))
    case Abort => Stepped(s.(k := a.k), Some(Crashed), TurnLog(s.role, a.calls, None))
    case _ =>
      Stepped(s.(k := a.k, disk := SaveStatus(s.disk, Ended(BlockedEnd))), Some(Finished(BlockedEnd)),
              TurnLog(s.role, a.calls, None))
  }

  function RunFrom(cfg: Config, env: Env, s: Loop): RunResult
    decreases cfg.maxTurns - s.turns
  {
    if s.turns >= cfg.maxTurns then
      RunResult(Finished(StoppedLimit), s.(disk := SaveStatus(s.disk, Ended(StoppedLimit))), [])
    else if env.stop(s.turns) then
      RunResult(Finished(Stopped), s.(disk := SaveStatus(s.disk, Ended(Stopped))), [])
    else
      var step := TurnStep(cfg, env, s);
      if step.outcome.Some? then RunResult(step.outcome.value, step.loop, [step.log])
      else
        var rest := RunFrom(cfg, env, step.loop);
        rest.(log := [step.log] + rest.log)
  }

  predicate IsDone(h: Option<Handoff>) {
    h.Some? && Upper(h.value.status).FoldsToDone?
  }

  predicate TerminalStatus(s: StateStatus) {
    s == Ended(PrReady) || s == Ended(PrReadyLocal) || s == Ended(StoppedLimit) || s == DoneText
  }

  predicate StartsNewCycle(disk: Disk) {
    IsDone(disk.lastHandoff) || TerminalStatus(disk.state.status)
  }

  function StoredRole(state: LoopState): Role {
    if state.activeRole.Some? then state.activeRole.value else Orchestrator
  }

  function Start(disk: Disk, k: nat): Loop {
    if StartsNewCycle(disk) then
      Loop(0, 0, Orchestrator, None, k,
           disk.(state := LoopState(Some(Orchestrator), Running, disk.state.cycle + 1)))
    else Loop(0, 0, StoredRole(disk.state), disk.lastHandoff, k, disk)
  }

  function Run(cfg: Config, env: Env, disk: Disk, k: nat): RunResult {
    RunFrom(cfg, env, Start(disk, k))
  }

  function PrependCalls(calls: seq<Call>, a: Attempts): Attempts {
    a.(calls := calls + a.calls)
  }

  function Prepend(log: seq<TurnLog>, r: RunResult): RunResult {
    r.(log := log + r.log)
  }

  // ---------------------------------------------------------------------------------------------
  // The loop itself
  // ---------------------------------------------------------------------------------------------

  class Workspace {
    var state: LoopState
    var lastHandoff: Option<Handoff>

    function OnDisk(): Disk
      reads this
    {
      Disk(state, lastHandoff)
    }

    constructor (disk: Disk)
      ensures OnDisk() == disk
    {
      state := disk.state;
      lastHandoff := disk.lastHandoff;
    }

    method Save(status: StateStatus)
      modifies this`state
      ensures OnDisk() == SaveStatus(old(OnDisk()), status)
    {
      state := state.(status := status);
    }

    method SaveWithRole(role: Role, status: StateStatus)
      modifies this`state
      ensures OnDisk() == SaveRole(old(OnDisk()), role, status)
    {
      state := state.(activeRole := Some(role), status := status);
    }

    /** The attempts at one turn. */
    method TakeTurn(cfg: Config, responses: nat -> Response, role: Role, incoming: Option<Handoff>, k0: nat)
      returns (verdict: Verdict, k: nat, ghost calls: seq<Call>)
      ensures verdict == Attempt(cfg, responses, role, incoming, k0, 0).verdict
      ensures k == Attempt(cfg, responses, role, incoming, k0, 0).k
      ensures calls == Attempt(cfg, responses, role, incoming, k0, 0).calls
    {
      hide Attempt, Validates, Upper;
      var retries := 0;
      var handoff := incoming;
      k := k0;
      calls := [];
      ghost var whole := Attempt(cfg, responses, role, incoming, k0, 0);
      assert whole.calls == [] + whole.calls;
      while true
        invariant 0 <= retries
        invariant whole == PrependCalls(calls, Attempt(cfg, responses, role, handoff, k, retries))
        decreases cfg.maxRetries - retries
      {
        AttemptUnfolds(cfg, responses, role, handoff, k, retries, calls);
        var response := responses(k);
        k := k + 1;
        if response.NotReady? {
          assert calls + [] == calls;
          return Unready, k, calls;
        }
        calls := calls + [Call(role, handoff)];
        if response.Aborts? {
          return Abort, k, calls;
        }
        if response.Raised? {
          retries := retries + 1;
        } else {
          handoff := Some(response.handoff);
          var ok, errors := ValidateHandoff(response.handoff, Upper(response.handoff.status).FoldsToDone?);
          if ok {
            return Accepted(response.handoff), k, calls;
          }
          retries := retries + 1;
        }
        if retries > cfg.maxRetries {
          return GaveUp, k, calls;
        }
      }
    }

    /** The part of a turn after a handoff was accepted: policy tags, next role, pull request, next cycle. */
    method FinishTurn(cfg: Config, env: Env, k: nat, h: Handoff, turns: nat, prReady: nat, role: Role,
                      ghost s: Loop)
      returns (outcome: Option<Outcome>, turns': nat, prReady': nat, role': Role, incoming: Option<Handoff>)
      requires s.turns == turns && s.prReady == prReady && s.role == role && s.disk == OnDisk()
      modifies this
      ensures Conclude(cfg, env, s, k, h) == (Loop(turns', prReady', role', incoming, k, OnDisk()), outcome)
    {
      hide NextRole;
      turns', prReady', role', incoming := turns + 1, prReady, role, Some(h);
      lastHandoff := Some(h);
      if cfg.blockTags * h.tags != {} {
        Save(Ended(BlockedEnd));
        outcome := Some(Finished(BlockedEnd));
        return;
      }
      match NextRole(role, h) {
        case Go(next) =>
          role' := next;
          SaveWithRole(role', Running);
          outcome := None;
        case End(t) =>
          if t != PrReady {
            SaveWithRole(role, Ended(t));
            outcome := Some(Finished(t));
            return;
          }
          var term := PrReady;
          if cfg.createPr && !env.prOpens(k) {
            term := PrReadyLocal;
          }
          prReady' := prReady + 1;
          SaveWithRole(role, Ended(term));
          if prReady' >= cfg.maxCycles {
            outcome := Some(Finished(term));
            return;
          }
          role' := Orchestrator;
          incoming := None;
          state := LoopState(Some(Orchestrator), Running, state.cycle + 1);
          outcome := None;
      }
    }

    /** `run_loop` after its start-up checks. */
    method RunLoop(cfg: Config, env: Env, k0: nat)
      returns (outcome: Outcome, turns: nat, role: Role, k: nat, ghost log: seq<TurnLog>)
      modifies this
      ensures var r := Run(cfg, env, old(OnDisk()), k0);
              outcome == r.outcome && OnDisk() == r.final.disk && log == r.log &&
              turns == r.final.turns && role == r.final.role && k == r.final.k
    {
      hide Attempt, Conclude;
      ghost var whole := Run(cfg, env, OnDisk(), k0);
      var handoff := lastHandoff;
      role := StoredRole(state);
      if StartsNewCycle(OnDisk()) {
        role := Orchestrator;
        handoff := None;
        state := LoopState(Some(Orchestrator), Running, state.cycle + 1);
      }
      turns := 0;
      k := k0;
      log := [];
      var prReady := 0;
      assert whole == RunFrom(cfg, env, Loop(turns, prReady, role, handoff, k, OnDisk()));
      assert whole.log == [] + whole.log;
      while turns < cfg.maxTurns
        invariant whole == Prepend(log, RunFrom(cfg, env, Loop(turns, prReady, role, handoff, k, OnDisk())))
        decreases cfg.maxTurns - turns
      {
        ghost var s, before := Loop(turns, prReady, role, handoff, k, OnDisk()), log;
        if env.stop(turns) {
          Save(Ended(Stopped));
          assert log + [] == log;
          return Finished(Stopped), turns, role, k, log;
        }
        RunUnfolds(cfg, env, s, before);
        hide RunFrom;
        var verdict: Verdict;
        ghost var calls;
        verdict, k, calls := TakeTurn(cfg, env.responses, role, handoff, k);
        ghost var step := TurnStep(cfg, env, s);
        log := log + [step.log];
        match verdict {
          case Abort =>
            return Crashed, turns, role, k, log;
          case Unready =>
            Save(Ended(BlockedEnd));
            return Finished(BlockedEnd), turns, role, k, log;
          case GaveUp =>
            Save(Ended(BlockedEnd));
            return Finished(BlockedEnd), turns, role, k, log;
          case Accepted(h) =>
            var ended;
            ended, turns, prReady, role, handoff := FinishTurn(cfg, env, k, h, turns, prReady, role, s);
            if ended.Some? {
              return ended.value, turns, role, k, log;
            }
        }
      }
      Save(Ended(StoppedLimit));
      assert log + [] == log;
      return Finished(StoppedLimit), turns, role, k, log;
    }
  }

  /** One unfolding of the attempts at a turn, behind the calls so far. */
  lemma AttemptUnfolds(cfg: Config, responses: nat -> Response, role: Role, incoming: Option<Handoff>, k: nat,
                       retries: nat, calls: seq<Call>)
    ensures var call, next := calls + [Call(role, incoming)], responses(k);
            var fails := next.Raised? ||
                         (next.Returned? && !Validates(next.handoff, Upper(next.handoff.status).FoldsToDone?));
            var again := if next.Returned? then Some(next.handoff) else incoming;
            PrependCalls(calls, Attempt(cfg, responses, role, incoming, k, retries)) ==
              if next.NotReady? then Attempts(Unready, k + 1, calls + [])
              else if next.Aborts? then Attempts(Abort, k + 1, call)
              else if !fails then Attempts(Accepted(next.handoff), k + 1, call)
              else if retries + 1 > cfg.maxRetries then Attempts(GaveUp, k + 1, call)
              else PrependCalls(call, Attempt(cfg, responses, role, again, k + 1, retries + 1))
  {
    hide Validates, Upper;
    if retries + 1 <= cfg.maxRetries {
      var next := responses(k);
      var again := if next.Returned? then Some(next.handoff) else incoming;
      var rest := Attempt(cfg, responses, role, again, k + 1, retries + 1);
      var call := Call(role, incoming);
      assert calls + ([call] + rest.calls) == (calls + [call]) + rest.calls;
    }
  }

  /** One unfolding of a run. */
  lemma RunStep(cfg: Config, env: Env, s: Loop)
    requires s.turns < cfg.maxTurns && !env.stop(s.turns)
    ensures var step := TurnStep(cfg, env, s);
            RunFrom(cfg, env, s) ==
              if step.outcome.Some? then RunResult(step.outcome.value, step.loop, [step.log])
              else Prepend([step.log], RunFrom(cfg, env, step.loop))
  {
    hide TurnStep;
  }

  /** One unfolding of a run, behind the log so far. */
  lemma RunUnfolds(cfg: Config, env: Env, s: Loop, before: seq<TurnLog>)
    requires s.turns < cfg.maxTurns && !env.stop(s.turns)
    ensures var step, r := TurnStep(cfg, env, s), Prepend(before, RunFrom(cfg, env, s));
            r == if step.outcome.Some? then RunResult(step.outcome.value, step.loop, before + [step.log])
                 else Prepend(before + [step.log], RunFrom(cfg, env, step.loop))
  {
    hide TurnStep;
    var step := TurnStep(cfg, env, s);
    if step.outcome.None? {
      var rest := RunFrom(cfg, env, step.loop).log;
      assert before + ([step.log] + rest) == (before + [step.log]) + rest;
    }
  }

  // ---------------------------------------------------------------------------------------------
  // Limits and the saved status
  // ---------------------------------------------------------------------------------------------

  function TotalCalls(log: seq<TurnLog>): nat {
    if log == [] then 0 else |log[0].calls| + TotalCalls(log[1..])
  }

  function Max0(n: int): nat {
    if n > 0 then n else 0
  }

  lemma {:induction false} RunBounds(cfg: Config, env: Env, s: Loop)
    ensures var r := RunFrom(cfg, env, s);
            |r.log| <= Max0(cfg.maxTurns - s.turns) &&
            TotalCalls(r.log) <= |r.log| * (Max0(cfg.maxRetries) + 1)
    decreases cfg.maxTurns - s.turns
  {
    hide Attempt, Conclude;
    if s.turns < cfg.maxTurns && !env.stop(s.turns) {
      var step, bound := TurnStep(cfg, env, s), Max0(cfg.maxRetries) + 1;
      assert |step.log.calls| <= bound;
      if step.outcome.None? {
        RunBounds(cfg, env, step.loop);
        var rest := RunFrom(cfg, env, step.loop).log;
        assert ([step.log] + rest)[1..] == rest;
        assert (1 + |rest|) * bound == bound + |rest| * bound;
      } else {
        assert [step.log][1..] == [];
      }
    }
  }

  /** A run makes at most `maxTurns * (maxRetries + 1)` adapter calls, negative limits counting as zero. */
  lemma AdapterCallsAreBounded(cfg: Config, env: Env, disk: Disk, k: nat)
    ensures TotalCalls(Run(cfg, env, disk, k).log) <= Max0(cfg.maxTurns) * (Max0(cfg.maxRetries) + 1)
  {
    hide RunFrom, TotalCalls;
    var r := Run(cfg, env, disk, k);
    RunBounds(cfg, env, Start(disk, k));
    MulMonotone(|r.log|, Max0(cfg.maxTurns), Max0(cfg.maxRetries) + 1);
  }

  lemma MulMonotone(a: nat, b: nat, c: nat)
    requires a <= b
    ensures a * c <= b * c
  {
  }

  /** Every terminal returned from inside the loop is the status on disk; a limit stop used every turn. */
  lemma {:induction false} ReturnedTerminalIsSaved(cfg: Config, env: Env, s: Loop)
    ensures var r := RunFrom(cfg, env, s);
            (r.outcome.Finished? ==> r.final.disk.state.status == Ended(r.outcome.terminal)) &&
            (r.outcome == Finished(StoppedLimit) ==>
               r.final.turns == (if s.turns > cfg.maxTurns then s.turns else cfg.maxTurns)) &&
            (r.outcome == Finished(StoppedLimit) ==> |r.log| == r.final.turns - s.turns)
    decreases cfg.maxTurns - s.turns
  {
    hide Attempt;
    if s.turns < cfg.maxTurns && !env.stop(s.turns) {
      var step := TurnStep(cfg, env, s);
      if step.outcome.None? {
        ReturnedTerminalIsSaved(cfg, env, step.loop);
      }
    }
  }

  // ---------------------------------------------------------------------------------------------
  // Where PR_READY comes from
  // ---------------------------------------------------------------------------------------------

  /** The turn ended with the loop's decision PR_READY. */
  predicate PrEntry(cfg: Config, e: TurnLog) {
    && e.accepted.Some? && cfg.blockTags * e.accepted.value.tags == {}
    && NextRole(e.role, e.accepted.value) == End(PrReady)
  }

  /** A well-formed DONE: no next role, the repository in sync or that waived, lessons or none, and metrics. */
  predicate MeetsStrictRules(h: Handoff) {
    && h.wellTyped && h.status == Done && h.target == NoneText && (h.syncWaived || h.gitVerified)
    && (h.lessons || h.distilled) && h.metrics != NoMetrics
  }

  lemma StrictDone(role: Role, h: Handoff)
    requires NextRole(role, h) == End(PrReady) && Validates(h, Upper(h.status).FoldsToDone?)
    ensures role == Reviewer && MeetsStrictRules(h)
  {
  }

  /** A Tester turn with no failed test that did not ask for the Debugger. */
  predicate GreenTest(e: TurnLog) {
    && e.role == Tester && e.accepted.Some?
    && TestsFailed(e.accepted.value) <= 0 && e.accepted.value.target != To(Debugger)
  }

  function CountPr(cfg: Config, log: seq<TurnLog>): nat {
    if log == [] then 0 else (if PrEntry(cfg, log[0]) then 1 else 0) + CountPr(cfg, log[1..])
  }

  /** What one entry of the log says about itself and about the entry after it. */
  lemma {:induction false} LogChains(cfg: Config, env: Env, s: Loop, i: nat)
    requires i < |RunFrom(cfg, env, s).log|
    ensures var log := RunFrom(cfg, env, s).log;
            (i == 0 ==> log[0].role == s.role) &&
            (log[i].accepted.Some? ==>
               Validates(log[i].accepted.value, Upper(log[i].accepted.value.status).FoldsToDone?)) &&
            (i > 0 && log[i].role == Reviewer ==> GreenTest(log[i - 1]))
    decreases cfg.maxTurns - s.turns
  {
    hide Attempt, Validates;
    var step := TurnStep(cfg, env, s);
    if step.outcome.None? && i > 0 {
      var rest := RunFrom(cfg, env, step.loop).log;
      LogChains(cfg, env, step.loop, i - 1);
      if i > 1 {
        assert RunFrom(cfg, env, s).log[i - 1] == rest[i - 2];
      } else {
        assert RunFrom(cfg, env, s).log[0] == step.log;
      }
    }
  }

  /** The roles that may follow one another. */
  predicate Edge(a: Role, b: Role) {
    || (a == Orchestrator && b == Coder)
    || ((a == Coder || a == Debugger) && b == Tester)
    || (a == Tester && (b == Reviewer || b == Debugger))
    || (a == Reviewer && b == Orchestrator)
  }

  /** Turn follows turn along these edges, and after a Tester comes the Reviewer exactly when its test was green. */
  lemma {:induction false} TurnsFollowEdges(cfg: Config, env: Env, s: Loop, i: nat)
    requires 0 < i < |RunFrom(cfg, env, s).log|
    ensures var log := RunFrom(cfg, env, s).log;
            Edge(log[i - 1].role, log[i].role) &&
            (log[i - 1].role == Tester ==> (log[i].role == Reviewer <==> GreenTest(log[i - 1])))
    decreases cfg.maxTurns - s.turns
  {
    hide Attempt, Validates;
    var step := TurnStep(cfg, env, s);
    var rest := RunFrom(cfg, env, step.loop).log;
    if i > 1 {
      TurnsFollowEdges(cfg, env, step.loop, i - 1);
      assert RunFrom(cfg, env, s).log[i] == rest[i - 1] && RunFrom(cfg, env, s).log[i - 1] == rest[i - 2];
    } else {
      LogChains(cfg, env, step.loop, 0);
      assert RunFrom(cfg, env, s).log[0] == step.log && RunFrom(cfg, env, s).log[1] == rest[0];
    }
  }

  /**
   * In a run that does not start at Reviewer, every PR_READY is a Reviewer turn whose DONE handoff
   * met the strict rules, directly after a green Tester turn: no Coder or Debugger turn in between.
   */
  lemma PrReadyIsEarned(cfg: Config, env: Env, disk: Disk, k: nat, i: nat)
    requires Start(disk, k).role != Reviewer
    requires i < |Run(cfg, env, disk, k).log| && PrEntry(cfg, Run(cfg, env, disk, k).log[i])
    ensures var log := Run(cfg, env, disk, k).log;
            log[i].role == Reviewer && MeetsStrictRules(log[i].accepted.value) &&
            i > 0 && GreenTest(log[i - 1])
  {
    hide RunFrom, Start;
    LogChains(cfg, env, Start(disk, k), i);
  }

  /** The start at Reviewer is the only one to exclude: from there an untested DONE is PR_READY at once. */
  lemma ReviewerStartSkipsTests(cfg: Config, disk: Disk, k: nat) returns (env: Env)
    requires Start(disk, k).role == Reviewer && cfg.maxTurns > 0
    ensures Run(cfg, env, disk, k).log != [] && PrEntry(cfg, Run(cfg, env, disk, k).log[0])
  {
    var h := Handoff(Done, NoneText, Metrics(None), true, false, true, false, true, {}, "");
    env := Env(n => Returned(h), n => true, n => false);
    var s := Start(disk, k);
    var a := Attempt(cfg, env.responses, s.role, s.incoming, s.k, 0);
    assert Validates(h, true);
    assert a.verdict == Accepted(h);
    assert TurnStep(cfg, env, s).log.accepted == Some(h);
  }

  /** The run returns PR_READY only on such a turn, and its counter counts exactly those turns. */
  lemma {:induction false} PrOutcomeHasEntry(cfg: Config, env: Env, s: Loop)
    ensures var r := RunFrom(cfg, env, s);
            r.final.prReady == s.prReady + CountPr(cfg, r.log) &&
            (r.outcome == Finished(PrReady) || r.outcome == Finished(PrReadyLocal) ==>
               r.log != [] && PrEntry(cfg, r.log[|r.log| - 1]) && r.final.prReady >= cfg.maxCycles)
    decreases cfg.maxTurns - s.turns
  {
    hide Attempt;
    var r := RunFrom(cfg, env, s);
    if s.turns < cfg.maxTurns && !env.stop(s.turns) {
      var step := TurnStep(cfg, env, s);
      if step.outcome.None? {
        PrOutcomeHasEntry(cfg, env, step.loop);
        var rest := RunFrom(cfg, env, step.loop).log;
        assert ([step.log] + rest)[1..] == rest;
      } else {
        assert [step.log][1..] == [];
      }
    }
  }

  // ---- over any chain of runs on one workspace ----

  /** The log ends with a green test and after it Reviewer turns only. */
  predicate GreenBehind(log: seq<TurnLog>) {
    log != [] &&
    var last := log[|log| - 1];
    GreenTest(last) || (last.role == Reviewer && GreenBehind(log[..|log| - 1]))
  }

  lemma {:induction false} GreenBehindMeaning(log: seq<TurnLog>) returns (j: nat)
    requires GreenBehind(log)
    ensures j < |log| && GreenTest(log[j]) && forall m :: j < m < |log| ==> log[m].role == Reviewer
    decreases |log|
  {
    hide GreenTest;
    var n := |log| - 1;
    if GreenTest(log[n]) {
      j := n;
    } else {
      j := GreenBehindMeaning(log[..n]);
      assert log[..n][j] == log[j] && forall m :: j < m < n ==> log[..n][m] == log[m];
    }
  }

  /** What holds of every turn: an accepted handoff validated, and a Reviewer had a green test behind it. */
  predicate TurnTested(log: seq<TurnLog>, i: nat)
    requires i < |log|
  {
    && (log[i].accepted.Some? ==> Validates(log[i].accepted.value, Upper(log[i].accepted.value.status).FoldsToDone?))
    && (log[i].role == Reviewer ==> GreenBehind(log[..i]))
  }

  predicate Tested(log: seq<TurnLog>) {
    forall i :: 0 <= i < |log| ==> TurnTested(log, i)
  }

  lemma TestedOneMore(log: seq<TurnLog>, e: TurnLog)
    requires Tested(log) && (e.role == Reviewer ==> GreenBehind(log))
    requires e.accepted.Some? ==> Validates(e.accepted.value, Upper(e.accepted.value.status).FoldsToDone?)
    ensures Tested(log + [e])
    ensures GreenTest(e) || e.role == Reviewer ==> GreenBehind(log + [e])
  {
    hide GreenTest, Validates;
    var more := log + [e];
    assert more[..|log|] == log;
    forall i | 0 <= i < |more|
      ensures TurnTested(more, i)
    {
      if i < |log| {
        assert TurnTested(log, i);
        assert more[..i] == log[..i];
      }
    }
  }

  /** What a turn leaves: its entry, the next role, and the role on disk. */
  lemma TurnLeaves(cfg: Config, env: Env, s: Loop)
    requires StoredRole(s.disk.state) == s.role
    ensures var step := TurnStep(cfg, env, s);
            && step.log.role == s.role
            && (step.log.accepted.Some? ==>
                  Validates(step.log.accepted.value, Upper(step.log.accepted.value.status).FoldsToDone?))
            && (step.outcome.None? ==> StoredRole(step.loop.disk.state) == step.loop.role)
            && (step.outcome.None? && step.loop.role == Reviewer ==> GreenTest(step.log))
            && (step.outcome.Some? ==> StoredRole(step.loop.disk.state) == s.role)
  {
    hide Attempt, Validates;
  }

  lemma {:induction false} RunIsTested(cfg: Config, env: Env, s: Loop, before: seq<TurnLog>)
    requires StoredRole(s.disk.state) == s.role && Tested(before) && (s.role == Reviewer ==> GreenBehind(before))
    ensures var r := RunFrom(cfg, env, s);
            Tested(before + r.log) && (StoredRole(r.final.disk.state) == Reviewer ==> GreenBehind(before + r.log))
    decreases cfg.maxTurns - s.turns
  {
    hide Tested, GreenBehind, GreenTest, Validates, TurnStep;
    if s.turns < cfg.maxTurns && !env.stop(s.turns) {
      var step := TurnStep(cfg, env, s);
      TurnLeaves(cfg, env, s);
      TestedOneMore(before, step.log);
      if step.outcome.None? {
        RunIsTested(cfg, env, step.loop, before + [step.log]);
        var rest := RunFrom(cfg, env, step.loop).log;
        assert before + ([step.log] + rest) == before + [step.log] + rest;
      }
    } else {
      assert before + [] == before;
    }
  }

  /** One call of the loop: its limits, what it meets, and where it stands in the stream of responses. */
  datatype Session = Session(cfg: Config, env: Env, k: nat)

  /** Runs one after the other on one workspace, however each ends: their turns, and the disk. */
  function Chain(disk: Disk, sessions: seq<Session>): (seq<TurnLog>, Disk)
    decreases |sessions|
  {
    if sessions == [] then ([], disk)
    else
      var r := Run(sessions[0].cfg, sessions[0].env, disk, sessions[0].k);
      var (log, last) := Chain(r.final.disk, sessions[1..]);
      (r.log + log, last)
  }

  lemma {:induction false} ChainIsTested(disk: Disk, sessions: seq<Session>, before: seq<TurnLog>)
    requires Tested(before) && (StoredRole(disk.state) == Reviewer ==> GreenBehind(before))
    ensures Tested(before + Chain(disk, sessions).0)
    decreases |sessions|
  {
    hide Tested, GreenBehind, RunFrom;
    if sessions == [] {
      assert before + [] == before;
    } else {
      var run := sessions[0];
      var r := Run(run.cfg, run.env, disk, run.k);
      RunIsTested(run.cfg, run.env, Start(disk, run.k), before);
      ChainIsTested(r.final.disk, sessions[1..], before + r.log);
      var rest := Chain(r.final.disk, sessions[1..]).0;
      assert before + (r.log + rest) == before + r.log + rest;
    }
  }

  /**
   * From a workspace that is not at Reviewer, over any chain of runs that stop, block, crash, reach their
   * limits or finish, every PR_READY is a Reviewer turn whose DONE handoff met the strict rules, and since
   * the green Tester turn before it there have been Reviewer turns only: no Coder, no Debugger.
   */
  lemma EveryPrIsTested(disk: Disk, sessions: seq<Session>, i: nat) returns (j: nat)
    requires StoredRole(disk.state) != Reviewer
    requires var log := Chain(disk, sessions).0;
             i < |log| && log[i].accepted.Some? && NextRole(log[i].role, log[i].accepted.value) == End(PrReady)
    ensures var log := Chain(disk, sessions).0;
            && log[i].role == Reviewer && MeetsStrictRules(log[i].accepted.value)
            && j < i && GreenTest(log[j]) && forall m :: j < m < i ==> log[m].role == Reviewer
  {
    var log := Chain(disk, sessions).0;
    ChainIsTested(disk, sessions, []);
    assert [] + log == log;
    hide Chain, GreenBehind, GreenTest, NextRole, Validates, MeetsStrictRules;
    assert TurnTested(log, i);
    StrictDone(log[i].role, log[i].accepted.value);
    j := GreenBehindMeaning(log[..i]);
    assert log[..i][j] == log[j] && forall m :: j < m < i ==> log[..i][m] == log[m];
  }

  // ---------------------------------------------------------------------------------------------
  // When a turn ends, and when the run ends
  // ---------------------------------------------------------------------------------------------

  /** The attempt is used up without a handoff: the adapter raised, or what it returned is not valid. */
  predicate Fails(r: Response) {
    r.Raised? || (r.Returned? && !Validates(r.handoff, Upper(r.handoff.status).FoldsToDone?))
  }

  /** The handoff that attempt `j` of a turn is shown: the last one returned before it, or the incoming one. */
  function Shown(responses: nat -> Response, incoming: Option<Handoff>, k: nat, j: nat): Option<Handoff> {
    if j == 0 then incoming
    else if responses(k + j - 1).Returned? then Some(responses(k + j - 1).handoff)
    else Shown(responses, incoming, k, j - 1)
  }

  lemma {:induction false} ShownLater(responses: nat -> Response, incoming: Option<Handoff>, k: nat, j: nat)
    ensures Shown(responses, incoming, k, j + 1) == Shown(responses, Shown(responses, incoming, k, 1), k + 1, j)
    decreases j
  {
    if j > 0 {
      ShownLater(responses, incoming, k, j - 1);
      assert k + (j + 1) - 1 == (k + 1) + j - 1;
    }
  }

  /** A turn with `cap` attempts left takes exactly those up to the first that does not fail. */
  predicate StopsAtFirst(responses: nat -> Response, k: nat, cap: int, a: Attempts) {
    && k < a.k <= k + cap
    && (forall j :: k <= j < a.k - 1 ==> Fails(responses(j)))
    && (match responses(a.k - 1)
        case NotReady => a.verdict == Unready
        case Aborts => a.verdict == Abort
        case Raised => a.verdict == GaveUp && a.k == k + cap
        case Returned(h) =>
          if Fails(responses(a.k - 1)) then a.verdict == GaveUp && a.k == k + cap else a.verdict == Accepted(h))
  }

  /** One adapter call an attempt, unless there is no adapter, each with the last handoff before it. */
  predicate ShowsLast(responses: nat -> Response, role: Role, incoming: Option<Handoff>, k: nat, a: Attempts) {
    && k < a.k && |a.calls| == a.k - k - (if a.verdict == Unready then 1 else 0)
    && forall j :: 0 <= j < |a.calls| ==> a.calls[j] == Call(role, Shown(responses, incoming, k, j))
  }

  lemma {:induction false} AttemptsStopAtFirst(cfg: Config, responses: nat -> Response, role: Role,
                                               incoming: Option<Handoff>, k: nat, retries: nat)
    ensures StopsAtFirst(responses, k, 1 + Max0(cfg.maxRetries - retries),
                         Attempt(cfg, responses, role, incoming, k, retries))
    decreases cfg.maxRetries - retries
  {
    hide Validates, Upper;
    if Fails(responses(k)) && retries + 1 <= cfg.maxRetries {
      var again := if responses(k).Returned? then Some(responses(k).handoff) else incoming;
      AttemptsStopAtFirst(cfg, responses, role, again, k + 1, retries + 1);
    }
  }

  lemma {:induction false} AttemptsShowLast(cfg: Config, responses: nat -> Response, role: Role,
                                            incoming: Option<Handoff>, k: nat, retries: nat)
    ensures ShowsLast(responses, role, incoming, k, Attempt(cfg, responses, role, incoming, k, retries))
    decreases cfg.maxRetries - retries
  {
    hide Validates, Upper;
    var a := Attempt(cfg, responses, role, incoming, k, retries);
    if Fails(responses(k)) && retries + 1 <= cfg.maxRetries {
      var again := if responses(k).Returned? then Some(responses(k).handoff) else incoming;
      var rest := Attempt(cfg, responses, role, again, k + 1, retries + 1);
      AttemptsShowLast(cfg, responses, role, again, k + 1, retries + 1);
      assert a == rest.(calls := [Call(role, incoming)] + rest.calls);
      assert again == Shown(responses, incoming, k, 1);
      forall j | 0 <= j < |a.calls|
        ensures a.calls[j] == Call(role, Shown(responses, incoming, k, j))
      {
        if j > 0 {
          ShownLater(responses, incoming, k, j - 1);
          assert a.calls[j] == rest.calls[j - 1];
        }
      }
    }
  }

  /** The handoff reports failed tests or asks for the Debugger. */
  predicate AsksForDebugger(h: Handoff) {
    (h.metrics.Metrics? && h.metrics.failed.Some? && h.metrics.failed.value > 0) || h.target == To(Debugger)
  }

  /** A role outside the five, or a target that the role may not name. */
  predicate OffTable(role: Role, h: Handoff) {
    role.OtherRole? || (role != Tester && h.target.To? && !Edge(role, h.target.role))
  }

  /** The turn must end the run as BLOCKED. */
  predicate MustBlock(cfg: Config, e: TurnLog) {
    e.accepted.Some? &&
    var h := e.accepted.value;
    || (exists tag :: tag in cfg.blockTags && tag in h.tags)
    || h.status.Blocked?
    || (h.status.Done? && e.role != Reviewer)
    || (h.status.InProgress? && OffTable(e.role, h))
  }

  /** The turn completes a cycle with PR_READY. */
  predicate Completes(cfg: Config, e: TurnLog) {
    && e.accepted.Some? && e.role == Reviewer && e.accepted.value.status.Done?
    && !exists tag :: tag in cfg.blockTags && tag in e.accepted.value.tags
  }

  /** The role after a turn that does not end the run. */
  predicate Follows(cfg: Config, e: TurnLog, next: Role) {
    && e.accepted.Some?
    && if Completes(cfg, e) then next == Orchestrator
       else if e.role == Tester then next == if AsksForDebugger(e.accepted.value) then Debugger else Reviewer
       else Edge(e.role, next)
  }

  /** Turns so far that completed a cycle. */
  function Completed(cfg: Config, log: seq<TurnLog>): nat {
    if log == [] then 0 else (if Completes(cfg, log[0]) then 1 else 0) + Completed(cfg, log[1..])
  }

  /** How a turn taken at `s` must go on: the outcome or the next role, the count, and what is on disk. */
  predicate TurnDecides(cfg: Config, env: Env, s: Loop, e: TurnLog, next: Loop, outcome: Option<Outcome>) {
    && e.role == s.role
    && (e.accepted.None? ==>
          outcome == Some(Crashed) ||
          (outcome == Some(Finished(BlockedEnd)) && next.disk.lastHandoff == s.disk.lastHandoff))
    && (e.accepted.Some? ==>
          && Validates(e.accepted.value, e.accepted.value.status.Done?)
          && next.turns == s.turns + 1 && next.disk.lastHandoff == e.accepted
          && next.prReady == s.prReady + (if Completes(cfg, e) then 1 else 0)
          && (if MustBlock(cfg, e) then outcome == Some(Finished(BlockedEnd))
              else if Completes(cfg, e) && next.prReady >= cfg.maxCycles then
                outcome == Some(Finished(if cfg.createPr && !env.prOpens(next.k) then PrReadyLocal else PrReady))
              else outcome.None?))
    && (outcome.None? ==>
          && Follows(cfg, e, next.role) && next.incoming == (if Completes(cfg, e) then None else e.accepted)
          && StoredRole(next.disk.state) == next.role && next.disk.state.status == Running
          && next.disk.state.cycle == s.disk.state.cycle + (if Completes(cfg, e) then 1 else 0))
    && (outcome.Some? ==> next.disk.state.cycle == s.disk.state.cycle)
    && (outcome.Some? && e.accepted.Some? && cfg.blockTags !! e.accepted.value.tags ==>
          next.disk.state.activeRole == Some(s.role))
  }

  lemma TurnIsDecided(cfg: Config, env: Env, s: Loop)
    ensures var step := TurnStep(cfg, env, s);
            TurnDecides(cfg, env, s, step.log, step.loop, step.outcome)
  {
    hide Attempt;
    var a := Attempt(cfg, env.responses, s.role, s.incoming, s.k, 0);
    if a.verdict.Accepted? {
      var h := a.verdict.handoff;
      if tag :| tag in cfg.blockTags && tag in h.tags {
        assert tag in cfg.blockTags * h.tags;
      }
      if cfg.blockTags * h.tags != {} {
        var tag :| tag in cfg.blockTags * h.tags;
        assert tag in cfg.blockTags && tag in h.tags;
      }
    }
  }

  /** What the attempts of turn `e` met, from attempt `k` on, when they end in `crash` or give no handoff. */
  predicate Met(cfg: Config, env: Env, k: nat, e: TurnLog, crash: bool) {
    var n, cap := |e.calls|, 1 + Max0(cfg.maxRetries);
    && n <= cap
    && (forall j :: k <= j < k + n - 1 ==> Fails(env.responses(j)))
    && (if e.accepted.Some? then n > 0 && env.responses(k + n - 1) == Returned(e.accepted.value) && !crash
        else if crash then n > 0 && env.responses(k + n - 1).Aborts?
        else (n > 0 ==> Fails(env.responses(k + n - 1))) && (n < cap ==> env.responses(k + n).NotReady?))
  }

  lemma TurnMeets(cfg: Config, env: Env, s: Loop)
    ensures var step := TurnStep(cfg, env, s);
            && step.log.role == s.role
            && Met(cfg, env, s.k, step.log, step.outcome == Some(Crashed))
            && (step.outcome.None? ==> step.loop.turns == s.turns + 1 && step.loop.k == s.k + |step.log.calls|)
            && forall j :: 0 <= j < |step.log.calls| ==>
                 step.log.calls[j] == Call(s.role, Shown(env.responses, s.incoming, s.k, j))
  {
    hide Validates, Upper, Attempt, Shown, NextRole;
    var a := Attempt(cfg, env.responses, s.role, s.incoming, s.k, 0);
    AttemptsStopAtFirst(cfg, env.responses, s.role, s.incoming, s.k, 0);
    AttemptsShowLast(cfg, env.responses, s.role, s.incoming, s.k, 0);
    assert a.verdict.Accepted? ==> Conclude(cfg, env, s, a.k, a.verdict.handoff).1 != Some(Crashed);
  }

  /** The role, and the handoff shown first, after turn `e` when the run goes on. */
  predicate Continues(cfg: Config, e: TurnLog, next: TurnLog) {
    && Follows(cfg, e, next.role)
    && (next.calls != [] ==> next.calls[0] == Call(next.role, if Completes(cfg, e) then None else e.accepted))
  }

  /** The run ended between two turns, at its limit or on STOP. */
  predicate EndsBetween(cfg: Config, env: Env, r: RunResult) {
    if r.final.turns >= cfg.maxTurns then r.outcome == Finished(StoppedLimit)
    else r.outcome == Finished(Stopped) && env.stop(r.final.turns)
  }

  lemma SplitFirst(x: TurnLog, rest: seq<TurnLog>, i: nat)
    requires 0 < i <= 1 + |rest|
    ensures ([x] + rest)[..i] == [x] + rest[..i - 1]
    ensures ([x] + rest)[..i][1..] == rest[..i - 1]
  {
  }

  /** Turn `i` of a run met what the outside answered from attempt `s.k + TotalCalls(log[..i])` on. */
  lemma {:induction false} TurnIsTaken(cfg: Config, env: Env, s: Loop, i: nat)
    requires i < |RunFrom(cfg, env, s).log|
    ensures var r := RunFrom(cfg, env, s);
            && s.turns + i < cfg.maxTurns && !env.stop(s.turns + i)
            && Met(cfg, env, s.k + TotalCalls(r.log[..i]), r.log[i], i == |r.log| - 1 && r.outcome == Crashed)
    decreases cfg.maxTurns - s.turns
  {
    hide Met, TurnStep, TurnDecides;
    var r, step := RunFrom(cfg, env, s), TurnStep(cfg, env, s);
    TurnMeets(cfg, env, s);
    RunStep(cfg, env, s);
    if i == 0 {
      assert r.log[..0] == [];
      if step.outcome.None? && RunFrom(cfg, env, step.loop).log == [] {
        assert step.outcome != Some(Crashed) && r.outcome != Crashed;
      }
    } else {
      var rest := RunFrom(cfg, env, step.loop);
      TurnIsTaken(cfg, env, step.loop, i - 1);
      SplitFirst(step.log, rest.log, i);
      assert TotalCalls(r.log[..i]) == |step.log.calls| + TotalCalls(rest.log[..i - 1]);
    }
  }

  /** The first turn of a run, as far as the run shows it. */
  lemma RunBeginsAt(cfg: Config, env: Env, s: Loop)
    ensures var r := RunFrom(cfg, env, s);
            if r.log == [] then EndsBetween(cfg, env, r) && r.final.role == s.role
            else r.log[0].role == s.role && (r.log[0].calls != [] ==> r.log[0].calls[0] == Call(s.role, s.incoming))
  {
    hide TurnStep;
    if s.turns < cfg.maxTurns && !env.stop(s.turns) {
      TurnMeets(cfg, env, s);
      assert Shown(env.responses, s.incoming, s.k, 0) == s.incoming;
      RunStep(cfg, env, s);
      var first := TurnStep(cfg, env, s).log;
      assert RunFrom(cfg, env, s).log[0] == first;
      assert first.calls != [] ==> first.calls[0] == Call(s.role, Shown(env.responses, s.incoming, s.k, 0));
    }
  }

  /**
   * What a turn's handoff does to the run. Without a handoff the run ends, crashed or blocked. A handoff with
   * status BLOCKED, with DONE from another role than Reviewer, with a target the role may not name or with a
   * blocked tag ends it as blocked. A DONE of the Reviewer ends it when it is the last of `maxCycles`, as a
   * pull request or a local one. After every other handoff, and only then, the run goes on: to one role, which
   * is shown that handoff, unless the limit of turns is reached or STOP is set.
   */
  lemma {:induction false} HandoffsDecideTheRun(cfg: Config, env: Env, s: Loop, i: nat)
    requires i < |RunFrom(cfg, env, s).log|
    ensures var r := RunFrom(cfg, env, s); var e, last := r.log[i], i == |r.log| - 1;
            if e.accepted.None? then last && r.outcome in {Crashed, Finished(BlockedEnd)}
            else if MustBlock(cfg, e) then last && r.outcome == Finished(BlockedEnd)
            else if Completes(cfg, e) && s.prReady + Completed(cfg, r.log[..i + 1]) >= cfg.maxCycles then
              last && r.outcome == Finished(if cfg.createPr && !env.prOpens(r.final.k) then PrReadyLocal else PrReady)
            else if last then EndsBetween(cfg, env, r) && Follows(cfg, e, r.final.role)
            else Continues(cfg, e, r.log[i + 1])
    decreases cfg.maxTurns - s.turns
  {
    hide TurnStep, MustBlock, Completes, Follows;
    var r, step := RunFrom(cfg, env, s), TurnStep(cfg, env, s);
    TurnIsDecided(cfg, env, s);
    RunStep(cfg, env, s);
    if step.outcome.None? {
      var rest := RunFrom(cfg, env, step.loop);
      RunBeginsAt(cfg, env, step.loop);
      SplitFirst(step.log, rest.log, i + 1);
      assert Completed(cfg, r.log[..i + 1]) ==
        (if Completes(cfg, step.log) then 1 else 0) + Completed(cfg, rest.log[..i]);
      if i > 0 {
        HandoffsDecideTheRun(cfg, env, step.loop, i - 1);
        assert rest.log[..i - 1 + 1] == rest.log[..i];
      }
    } else {
      assert r.log[..1] == r.log && r.log[1..] == [];
    }
  }

  /** The handoff accepted last, or the one there was before. */
  function LastAccepted(log: seq<TurnLog>, before: Option<Handoff>): Option<Handoff>
    decreases |log|
  {
    if log == [] then before
    else if log[|log| - 1].accepted.Some? then log[|log| - 1].accepted
    else LastAccepted(log[..|log| - 1], before)
  }

  lemma {:induction false} LastAcceptedPrepend(x: TurnLog, log: seq<TurnLog>, before: Option<Handoff>)
    ensures LastAccepted([x] + log, before) ==
            LastAccepted(log, if x.accepted.Some? then x.accepted else before)
    decreases |log|
  {
    var all := [x] + log;
    if log == [] {
      assert all[..0] == [];
      assert all[0] == x;
    } else {
      assert all[|all| - 1] == log[|log| - 1];
      assert all[..|all| - 1] == [x] + log[..|log| - 1];
      LastAcceptedPrepend(x, log[..|log| - 1], before);
    }
  }

  /** What a run leaves on disk: its last handoff, the role it stands at, the completed cycles. */
  lemma {:induction false} RunLeaves(cfg: Config, env: Env, s: Loop)
    requires StoredRole(s.disk.state) == s.role
    ensures var r := RunFrom(cfg, env, s);
            && r.final.disk.lastHandoff == LastAccepted(r.log, s.disk.lastHandoff)
            && StoredRole(r.final.disk.state) == r.final.role
            && r.final.prReady == s.prReady + Completed(cfg, r.log)
            && r.final.disk.state.cycle == s.disk.state.cycle + Completed(cfg, r.log)
                 - (if r.outcome in {Finished(PrReady), Finished(PrReadyLocal)} then 1 else 0)
            && (r.outcome == Crashed ==>
                  r.final.disk.state.status == if |r.log| == 1 then s.disk.state.status else Running)
    decreases cfg.maxTurns - s.turns
  {
    hide TurnStep, MustBlock, Completes, Follows, LastAccepted;
    if s.turns < cfg.maxTurns && !env.stop(s.turns) {
      var step := TurnStep(cfg, env, s);
      TurnIsDecided(cfg, env, s);
      TurnLands(cfg, env, s);
      RunStep(cfg, env, s);
      if step.outcome.None? {
        var rest := RunFrom(cfg, env, step.loop);
        RunLeaves(cfg, env, step.loop);
        LastAcceptedPrepend(step.log, rest.log, s.disk.lastHandoff);
        assert ([step.log] + rest.log)[1..] == rest.log;
      } else {
        LastAcceptedPrepend(step.log, [], s.disk.lastHandoff);
        LastAcceptedEmpty(if step.log.accepted.Some? then step.log.accepted else s.disk.lastHandoff);
        assert [step.log] + [] == [step.log];
        assert [step.log][1..] == [];
      }
    } else {
      LastAcceptedEmpty(s.disk.lastHandoff);
    }
  }

  lemma LastAcceptedEmpty(before: Option<Handoff>)
    ensures LastAccepted([], before) == before
  {
  }

  /** What the last turn of a run leaves. */
  lemma TurnLands(cfg: Config, env: Env, s: Loop)
    requires StoredRole(s.disk.state) == s.role
    ensures var step := TurnStep(cfg, env, s);
            && (step.outcome.Some? ==> step.loop.role == s.role && StoredRole(step.loop.disk.state) == s.role)
            && (step.outcome == Some(Crashed) ==> step.loop.disk == s.disk)
            && (step.outcome.Some? && step.log.accepted.None? ==>
                  step.loop.prReady == s.prReady && step.loop.disk.lastHandoff == s.disk.lastHandoff)
            && (step.outcome in {Some(Finished(PrReady)), Some(Finished(PrReadyLocal))} <==>
                  Completes(cfg, step.log) && step.outcome.Some?)
  {
    hide Attempt;
    TurnIsDecided(cfg, env, s);
  }

  /**
   * Where the next run on the workspace starts: at a new cycle, with Orchestrator and no handoff, after a pull
   * request, at the limit, and when the last handoff on disk is a DONE; otherwise where this run ended, with
   * the handoff it accepted last.
   */
  lemma NextRunBegins(cfg: Config, env: Env, disk: Disk, k: nat, later: nat)
    ensures var r := Run(cfg, env, disk, k); var next := Start(r.final.disk, later);
            var last := LastAccepted(r.log, disk.lastHandoff);
            && next.turns == 0 && next.prReady == 0 && next.disk.lastHandoff == last
            && if r.outcome in {Finished(PrReady), Finished(PrReadyLocal), Finished(StoppedLimit)}
                  || (last.Some? && last.value.status in {Done, OtherStatus(FoldsToDone)})
               then next.role == Orchestrator && next.incoming == None
                    && next.disk.state.cycle == r.final.disk.state.cycle + 1
               else next.role == r.final.role && next.incoming == last
                    && next.disk.state.cycle == r.final.disk.state.cycle
  {
    hide RunFrom, LastAccepted;
    RunLeaves(cfg, env, Start(disk, k));
    ReturnedTerminalIsSaved(cfg, env, Start(disk, k));
  }

  // ---------------------------------------------------------------------------------------------
  // Stopping and restarting
  // ---------------------------------------------------------------------------------------------

  ghost predicate SameWorld(env: Env, free: Env) {
    env.responses == free.responses && env.prOpens == free.prOpens
  }

  ghost predicate NeverStops(env: Env) {
    forall i :: !env.stop(i)
  }

  /** A restart from this disk finds the role and the incoming handoff that are in memory. */
  predicate Resumable(s: Loop) {
    && StoredRole(s.disk.state) == s.role
    && (if IsDone(s.disk.lastHandoff) then s.role == Orchestrator && s.incoming == None
        else s.incoming == s.disk.lastHandoff)
  }

  /** The one start whose first incoming handoff is not found again by a restart before any turn. */
  predicate ForgetsHandoff(disk: Disk) {
    TerminalStatus(disk.state.status) && disk.lastHandoff.Some? && !IsDone(disk.lastHandoff)
  }

  lemma StartIsResumable(disk: Disk, k: nat)
    ensures Resumable(Start(disk, k)) <==> !ForgetsHandoff(disk)
    ensures StoredRole(Start(disk, k).disk.state) == Start(disk, k).role
  {
  }

  /**
   * Where a run starts: with Orchestrator, no handoff and the next cycle if the last handoff is a DONE or the
   * saved status ends a cycle, and otherwise with the saved role, Orchestrator if there is none, and that handoff.
   */
  lemma RunStartsAt(disk: Disk, k: nat)
    ensures var s, state := Start(disk, k), disk.state;
            && s.turns == 0 && s.prReady == 0 && s.k == k && s.disk.lastHandoff == disk.lastHandoff
            && if (disk.lastHandoff.Some? && disk.lastHandoff.value.status in {Done, OtherStatus(FoldsToDone)})
                  || state.status in {Ended(PrReady), Ended(PrReadyLocal), Ended(StoppedLimit), DoneText}
               then s.role == Orchestrator && s.incoming == None
                    && s.disk.state == LoopState(Some(Orchestrator), Running, state.cycle + 1)
               else Some(s.role) == (if state.activeRole == None then Some(Orchestrator) else state.activeRole)
                    && s.incoming == disk.lastHandoff && s.disk.state == state
  {
  }

  lemma TurnIsResumable(cfg: Config, env: Env, s: Loop)
    requires TurnStep(cfg, env, s).outcome.None?
    ensures Resumable(TurnStep(cfg, env, s).loop)
  {
    hide Attempt;
  }

  /** A STOP cuts the run in two: the log so far, and the state from which the free run continues. */
  lemma {:induction false} StopSplits(cfg: Config, env: Env, free: Env, s: Loop) returns (mid: Loop)
    requires SameWorld(env, free) && NeverStops(free)
    requires RunFrom(cfg, env, s).outcome == Finished(Stopped)
    ensures var r := RunFrom(cfg, env, s);
            r.final == mid.(disk := SaveStatus(mid.disk, Ended(Stopped))) &&
            RunFrom(cfg, free, s) == Prepend(r.log, RunFrom(cfg, free, mid)) &&
            (r.log == [] ==> mid == s) && (r.log != [] ==> Resumable(mid)) && mid.turns < cfg.maxTurns
    decreases cfg.maxTurns - s.turns
  {
    hide TurnStep, Resumable, SaveStatus;
    if env.stop(s.turns) {
      mid := s;
      assert [] + RunFrom(cfg, free, s).log == RunFrom(cfg, free, s).log;
    } else {
      assert s.turns < cfg.maxTurns;
      RunStep(cfg, env, s);
      RunStep(cfg, free, s);
      hide RunFrom;
      SameWorldSameTurn(cfg, env, free, s);
      TurnNeverStops(cfg, env, s);
      TurnIsResumable(cfg, env, s);
      var step := TurnStep(cfg, env, s);
      mid := StopSplits(cfg, env, free, step.loop);
      PrependTwice([step.log], RunFrom(cfg, env, step.loop).log, RunFrom(cfg, free, mid));
    }
  }

  lemma PrependTwice(a: seq<TurnLog>, b: seq<TurnLog>, r: RunResult)
    ensures Prepend(a, Prepend(b, r)) == Prepend(a + b, r)
  {
    assert a + (b + r.log) == (a + b) + r.log;
  }

  lemma SameWorldSameTurn(cfg: Config, env: Env, free: Env, s: Loop)
    requires SameWorld(env, free)
    ensures TurnStep(cfg, env, s) == TurnStep(cfg, free, s)
  {
    hide Attempt;
  }

  lemma TurnNeverStops(cfg: Config, env: Env, s: Loop)
    ensures TurnStep(cfg, env, s).outcome != Some(Finished(Stopped))
    ensures TurnStep(cfg, env, s).outcome != Some(Finished(StoppedLimit))
  {
    hide Attempt;
  }

  /** The turn without the incoming handoffs that were shown to the adapter. */
  datatype Shape = Shape(role: Role, attempts: nat, accepted: Option<Handoff>)

  function ShapeOf(e: TurnLog): Shape {
    Shape(e.role, |e.calls|, e.accepted)
  }

  function Shapes(log: seq<TurnLog>): (r: seq<Shape>)
    ensures |r| == |log| && forall i :: 0 <= i < |log| ==> r[i] == ShapeOf(log[i])
  {
    seq(|log|, i requires 0 <= i < |log| => ShapeOf(log[i]))
  }

  predicate AtLimit(o: Outcome) {
    o == Finished(StoppedLimit) || o == Finished(PrReady) || o == Finished(PrReadyLocal)
  }

  lemma {:induction false} AttemptIgnoresIncoming(cfg: Config, responses: nat -> Response, role: Role,
                                                  a: Option<Handoff>, b: Option<Handoff>, k: nat, retries: nat)
    ensures var x, y := Attempt(cfg, responses, role, a, k, retries), Attempt(cfg, responses, role, b, k, retries);
            x.verdict == y.verdict && x.k == y.k && |x.calls| == |y.calls|
    decreases cfg.maxRetries - retries
  {
    if responses(k).Raised? && retries + 1 <= cfg.maxRetries {
      AttemptIgnoresIncoming(cfg, responses, role, a, b, k + 1, retries + 1);
    }
  }

  /** Two loops at the same role and point of the response stream take the same turn. */
  lemma SimilarTurns(cfg: Config, env: Env, s: Loop, s': Loop)
    requires s'.role == s.role && s'.k == s.k && s'.prReady <= s.prReady
    ensures var x, y := TurnStep(cfg, env, s), TurnStep(cfg, env, s');
            ShapeOf(x.log) == ShapeOf(y.log) &&
            (s'.incoming == s.incoming ==> x.log == y.log) &&
            (x.outcome.None? ==> y.outcome.None?) &&
            (x.outcome.Some? && !AtLimit(x.outcome.value) ==> y.outcome == x.outcome) &&
            (x.outcome.None? ==> y.loop.role == x.loop.role && y.loop.incoming == x.loop.incoming &&
                                 y.loop.k == x.loop.k && y.loop.prReady <= x.loop.prReady)
  {
    AttemptIgnoresIncoming(cfg, env.responses, s.role, s.incoming, s'.incoming, s.k, 0);
    hide Attempt, Validates, NextRole;
  }

  /** The second log continues the first; it is the same log unless the first run hit a limit. */
  predicate Extends(full: RunResult, log: seq<TurnLog>, outcome: Outcome) {
    full.log <= log && (!AtLimit(full.outcome) ==> log == full.log && outcome == full.outcome)
  }

  predicate ExtendsShape(full: RunResult, log: seq<TurnLog>, outcome: Outcome) {
    Shapes(full.log) <= Shapes(log) &&
    (!AtLimit(full.outcome) ==> Shapes(log) == Shapes(full.log) && outcome == full.outcome)
  }

  lemma ExtendsImpliesShape(full: RunResult, log: seq<TurnLog>, outcome: Outcome)
    requires Extends(full, log, outcome)
    ensures ExtendsShape(full, log, outcome)
  {
  }

  /** With counters further from the limits, the same run goes on at least as long. */
  lemma {:induction false} LooserLimits(cfg: Config, env: Env, s: Loop, s': Loop)
    requires NeverStops(env)
    requires s'.role == s.role && s'.incoming == s.incoming && s'.k == s.k
    requires s'.prReady <= s.prReady && s'.turns <= s.turns
    ensures Extends(RunFrom(cfg, env, s), RunFrom(cfg, env, s').log, RunFrom(cfg, env, s').outcome)
    decreases cfg.maxTurns - s.turns
  {
    hide TurnStep;
    if s.turns < cfg.maxTurns {
      var x, y := TurnStep(cfg, env, s), TurnStep(cfg, env, s');
      SimilarTurns(cfg, env, s, s');
      RunStep(cfg, env, s);
      RunStep(cfg, env, s');
      hide RunFrom;
      if x.outcome.None? {
        LooserLimits(cfg, env, x.loop, y.loop);
      }
    }
  }

  /** The same for two loops that differ in the first incoming handoff. */
  lemma LooserLimitsFromStart(cfg: Config, env: Env, s: Loop, s': Loop)
    requires NeverStops(env)
    requires s'.role == s.role && s'.k == s.k && s'.prReady <= s.prReady && s'.turns <= s.turns
    ensures ExtendsShape(RunFrom(cfg, env, s), RunFrom(cfg, env, s').log, RunFrom(cfg, env, s').outcome)
  {
    hide TurnStep, ShapeOf, ExtendsShape, Extends;
    var full, again := RunFrom(cfg, env, s), RunFrom(cfg, env, s');
    if s.turns >= cfg.maxTurns {
      NothingExtends(full, again.log, again.outcome);
    } else {
      var x, y := TurnStep(cfg, env, s), TurnStep(cfg, env, s');
      SimilarTurns(cfg, env, s, s');
      RunStep(cfg, env, s);
      RunStep(cfg, env, s');
      hide RunFrom;
      if x.outcome.None? {
        var rest, rest' := RunFrom(cfg, env, x.loop), RunFrom(cfg, env, y.loop);
        LooserLimits(cfg, env, x.loop, y.loop);
        ExtendsImpliesShape(rest, rest'.log, rest'.outcome);
        TurnThenExtends(x.log, y.log, rest, rest'.log, rest'.outcome);
      } else {
        LastTurnExtends(x.log, y.log, full, again.log, again.outcome);
      }
    }
  }

  lemma NothingExtends(full: RunResult, log: seq<TurnLog>, outcome: Outcome)
    requires full.log == [] && full.outcome == Finished(StoppedLimit)
    ensures ExtendsShape(full, log, outcome)
  {
  }

  lemma TurnThenExtends(x: TurnLog, y: TurnLog, rest: RunResult, log: seq<TurnLog>, outcome: Outcome)
    requires ShapeOf(x) == ShapeOf(y) && ExtendsShape(rest, log, outcome)
    ensures ExtendsShape(Prepend([x], rest), [y] + log, outcome)
  {
    hide ShapeOf;
    assert Shapes([x] + rest.log) == [ShapeOf(x)] + Shapes(rest.log);
    assert Shapes([y] + log) == [ShapeOf(y)] + Shapes(log);
  }

  lemma LastTurnExtends(x: TurnLog, y: TurnLog, full: RunResult, log: seq<TurnLog>, outcome: Outcome)
    requires ShapeOf(x) == ShapeOf(y) && full.log == [x] && [y] <= log
    requires AtLimit(full.outcome) || (log == [y] && outcome == full.outcome)
    ensures ExtendsShape(full, log, outcome)
  {
    hide ShapeOf;
    assert Shapes([x]) == [ShapeOf(x)];
    assert Shapes(log)[0] == ShapeOf(log[0]) == ShapeOf(y);
  }

  /** What a restart from a halted workspace has in memory. */
  lemma RestartState(mid: Loop)
    requires StoredRole(mid.disk.state) == mid.role
    ensures var r := Start(SaveStatus(mid.disk, Ended(Stopped)), mid.k);
            (Resumable(mid) || !IsDone(mid.disk.lastHandoff) || mid.role == Orchestrator ==> r.role == mid.role) &&
            r.k == mid.k && r.turns == 0 && r.prReady == 0 &&
            (Resumable(mid) ==> r.incoming == mid.incoming)
  {
  }

  /**
   * Halting by STOP and restarting takes the same turns as never halting: the uninterrupted run is a
   * prefix of the two runs put together, and is all of it with the same outcome unless it hit a limit,
   * which a restart counts afresh.
   */
  lemma RestartContinuesTheRun(cfg: Config, env: Env, free: Env, disk: Disk, k: nat)
    requires SameWorld(env, free) && NeverStops(free)
    requires Run(cfg, env, disk, k).outcome == Finished(Stopped)
    ensures var full, halted := Run(cfg, free, disk, k), Run(cfg, env, disk, k);
            var resumed := Run(cfg, free, halted.final.disk, halted.final.k);
            ExtendsShape(full, halted.log + resumed.log, resumed.outcome)
    ensures var full, halted := Run(cfg, free, disk, k), Run(cfg, env, disk, k);
            var resumed := Run(cfg, free, halted.final.disk, halted.final.k);
            halted.log != [] || !ForgetsHandoff(disk) ==>
              Extends(full, halted.log + resumed.log, resumed.outcome)
  {
    var s := Start(disk, k);
    var halted := Run(cfg, env, disk, k);
    var mid := StopSplits(cfg, env, free, s);
    StartIsResumable(disk, k);
    assert mid == s && IsDone(s.disk.lastHandoff) ==> mid.role == Orchestrator;
    RestartState(mid);
    var again := Start(halted.final.disk, halted.final.k);
    assert again.role == mid.role && again.k == mid.k;
    LooserLimitsFromStart(cfg, free, mid, again);
    if halted.log != [] || !ForgetsHandoff(disk) {
      LooserLimits(cfg, free, mid, again);
    }
    hide RunFrom, Resumable, Start;
    var tail, resumed := RunFrom(cfg, free, mid), RunFrom(cfg, free, again);
    assert ExtendsShape(tail, resumed.log, resumed.outcome);
    ShapesPrepend(halted.log, tail, resumed);
  }

  lemma ShapesPrepend(head: seq<TurnLog>, tail: RunResult, resumed: RunResult)
    requires ExtendsShape(tail, resumed.log, resumed.outcome)
    ensures ExtendsShape(Prepend(head, tail), head + resumed.log, resumed.outcome)
  {
    assert Shapes(head + tail.log) == Shapes(head) + Shapes(tail.log);
    assert Shapes(head + resumed.log) == Shapes(head) + Shapes(resumed.log);
  }

  /** The exception is exact: restarting such a workspace before its first turn shows the adapter another handoff. */
  lemma ForgottenHandoffReturns(cfg: Config, env: Env, free: Env, disk: Disk, k: nat)
    requires SameWorld(env, free) && NeverStops(free) && cfg.maxTurns > 0 && env.stop(0)
    requires ForgetsHandoff(disk) && !free.responses(k).NotReady?
    ensures var full, halted := Run(cfg, free, disk, k), Run(cfg, env, disk, k);
            var resumed := Run(cfg, free, halted.final.disk, halted.final.k);
            halted.log == [] && full.log != [] && resumed.log != [] &&
            full.log[0].calls != [] && resumed.log[0].calls != [] &&
            full.log[0].calls[0].incoming == None && resumed.log[0].calls[0].incoming == disk.lastHandoff
  {
    var halted := Run(cfg, env, disk, k);
    var s, again := Start(disk, k), Start(halted.final.disk, halted.final.k);
    FirstCall(cfg, free, s);
    FirstCall(cfg, free, again);
  }

  lemma FirstCall(cfg: Config, env: Env, s: Loop)
    requires s.turns < cfg.maxTurns && !env.stop(s.turns) && !env.responses(s.k).NotReady?
    ensures RunFrom(cfg, env, s).log != [] && RunFrom(cfg, env, s).log[0].calls != []
    ensures RunFrom(cfg, env, s).log[0].calls[0] == Call(s.role, s.incoming)
  {
    var a := Attempt(cfg, env.responses, s.role, s.incoming, s.k, 0);
    assert a.calls[0] == Call(s.role, s.incoming);
    assert TurnStep(cfg, env, s).log.calls == a.calls;
  }
}
