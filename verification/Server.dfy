/** The stdio server: a reader that dispatches, workers that run tool calls, one gate (memory/local_mcp/server.py). */
module Server {
  import opened Wrappers

  // ---------------------------------------------------------------------------------------------
  // Messages
  // ---------------------------------------------------------------------------------------------

  datatype Id = Null | Number(n: int) | Text(s: string)

  /** The `id` member: absent, of a kind JSON-RPC does not allow, or an id. */
  datatype IdField = Missing | Illegal | Legal(id: Id)

  /** What the checks of `_start_call` find: a bad shape or tool or argument, a crash of the check, or nothing. */
  datatype CallCheck = BadCall | CheckCrashes | GoodCall

  datatype Method =
    | Ping
    | Initialize
    | ToolsList(paramsOk: bool)
    | ToolsCall(check: CallCheck)
    | Cancelled(target: Option<Id>)
    | Other

  /** One frame; `version2` is whether `jsonrpc` is "2.0", `named` whether `method` is a nonempty string. */
  datatype Frame = NotJson | NotObject | Object(id: IdField, version2: bool, named: bool, verb: Method)

  datatype Kind = Result | ParseError | InvalidRequest | InFlight | MethodNotFound | InvalidParams | InternalError

  /** An answer, with the number of the frame it belongs to. */
  datatype Answer = Answer(to: nat, id: Id, kind: Kind)

  /** What `_dispatch` decides before it looks at the gate. */
  datatype Verdict = Reply(id: Id, kind: Kind) | Ignore | Mark(target: Id) | Ask(id: Id, verb: Method)

  function ResponseId(id: IdField): Id {
    if id.Legal? then id.id else Null
  }

  function Judge(frame: Frame): Verdict {
    match frame
    case NotJson => Reply(Null, ParseError)
    case NotObject => Reply(Null, InvalidRequest)
    case Object(id, version2, named, verb) =>
      if !version2 || !named then Reply(ResponseId(id), InvalidRequest)
      else if id.Missing? then
        if verb.Cancelled? && verb.target.Some? then Mark(verb.target.value) else Ignore
      else if id.Illegal? then Reply(Null, InvalidRequest)
      else Ask(id.id, verb)
  }

  // ---------------------------------------------------------------------------------------------
  // The gate
  // ---------------------------------------------------------------------------------------------

  /** One tool call under way: its own number, the frame that asked for it, and the id of that request. */
  datatype Flight = Flight(no: nat, to: nat, id: Id)

  /** `_Gate`: every method runs under its lock. */
  class Gate {
    var flight: Option<Flight>
    var cancelled: set<Flight>

    constructor ()
      ensures flight == None && cancelled == {}
    {
      flight, cancelled := None, {};
    }

    method CurrentBusy() returns (busy: bool)
      ensures busy == flight.Some?
    {
      busy := flight.Some?;
    }

    method Begin(f: Flight) returns (ok: bool)
      modifies this`flight
      ensures ok == old(flight).None?
      ensures flight == Begun(old(flight), f)
    {
      if flight.Some? {
        return false;
      }
      flight := Some(f);
      ok := true;
    }

    method Finish(f: Flight)
      modifies this`flight
      ensures flight == Finished(old(flight), f)
    {
      if flight == Some(f) {
        flight := None;
      }
    }

    method Cancel(id: Id)
      modifies this`cancelled
      ensures cancelled == old(cancelled) + Target(flight, id)
    {
      if flight.Some? && flight.value.id == id {
        cancelled := cancelled + {flight.value};
      }
    }
  }

  function Begun(flight: Option<Flight>, f: Flight): Option<Flight> {
    if flight.Some? then flight else Some(f)
  }

  function Finished(flight: Option<Flight>, f: Flight): Option<Flight> {
    if flight == Some(f) then None else flight
  }

  /** The flights a cancel of this id stops. */
  function Target(flight: Option<Flight>, id: Id): set<Flight> {
    if flight.Some? && flight.value.id == id then {flight.value} else {}
  }

  // ---------------------------------------------------------------------------------------------
  // The two kinds of thread
  // ---------------------------------------------------------------------------------------------

  /** Where the reader is with the frame it holds. `Starting` has begun a flight and not yet started its worker. */
  datatype Reader = Idle | Holds(frame: Frame) | Passed(id: Id, verb: Method) | Starting(flight: Flight)

  datatype Phase = Executing | Answered

  /** `frames` and `answers` are all read and sent so far; `flights` counts the calls begun. */
  datatype Sys = Sys(reader: Reader, gate: Option<Flight>, cancelled: set<Flight>, workers: map<Flight, Phase>,
                     frames: seq<Frame>, answers: seq<Answer>, flights: nat)

  datatype Action =
    | Receive(frame: Frame)
    | Check                        // everything up to the test of current_busy()
    | Handle                       // the branch of the method, with begin() for a call
    | Start                        // worker.start()
    | StartFails                   // worker.start() raises
    | Finally(w: Flight, ok: bool) // the executor returns or raises, and the answer goes out
    | Finish(w: Flight)            // gate.finish()
    | Shutdown                     // cancel_current() of the main thread or at the end of the input

  function Init(): Sys {
    Sys(Idle, None, {}, map[], [], [], 0)
  }

  predicate Enabled(s: Sys, a: Action) {
    match a
    case Receive(_) => s.reader.Idle?
    case Check => s.reader.Holds?
    case Handle => s.reader.Passed?
    case Start => s.reader.Starting?
    case StartFails => s.reader.Starting?
    case Finally(w, _) => w in s.workers && s.workers[w].Executing?
    case Finish(w) => w in s.workers && s.workers[w].Answered?
    case Shutdown => true
  }

  /** The frame the reader holds is the last one it read. */
  function Send(s: Sys, id: Id, kind: Kind): Sys
    requires s.frames != []
  {
    s.(reader := Idle, answers := s.answers + [Answer(|s.frames| - 1, id, kind)])
  }

  function AfterCheck(s: Sys): Sys
    requires s.reader.Holds? && s.frames != []
  {
    match Judge(s.reader.frame)
    case Reply(id, kind) => Send(s, id, kind)
    case Ignore => s.(reader := Idle)
    case Mark(target) => s.(reader := Idle, cancelled := s.cancelled + Target(s.gate, target))
    case Ask(id, verb) =>
      if s.gate.Some? && !verb.Ping? then Send(s, id, InFlight) else s.(reader := Passed(id, verb))
  }

  function AfterHandle(s: Sys): Sys
    requires s.reader.Passed? && s.frames != []
  {
    var id := s.reader.id;
    match s.reader.verb
    case Ping => Send(s, id, Result)
    case Initialize => Send(s, id, Result)
    case ToolsList(ok) => Send(s, id, if ok then Result else InvalidParams)
    case ToolsCall(BadCall) => Send(s, id, InvalidParams)
    case ToolsCall(CheckCrashes) => Send(s, id, InternalError)
    case ToolsCall(GoodCall) =>
      var flight := Flight(s.flights, |s.frames| - 1, id);
      if s.gate.Some? then Send(s, id, InFlight)
      else s.(gate := Begun(s.gate, flight), flights := s.flights + 1, reader := Starting(flight))
    case _ => Send(s, id, MethodNotFound)
  }

  function Do(s: Sys, a: Action): Sys
    requires Enabled(s, a) && (s.reader.Idle? || s.frames != [])
  {
    match a
    case Receive(frame) => s.(reader := Holds(frame), frames := s.frames + [frame])
    case Check => AfterCheck(s)
    case Handle => AfterHandle(s)
    case Start => s.(reader := Idle, workers := s.workers[s.reader.flight := Executing])
    case StartFails => Send(s, s.reader.flight.id, InternalError)
    case Finally(w, ok) =>
      s.(workers := s.workers[w := Phase.Answered],
         answers := s.answers + [Answer(w.to, w.id, if ok then Result else InternalError)])
    case Finish(w) => s.(workers := s.workers - {w}, gate := Finished(s.gate, w))
    case Shutdown => if s.gate.Some? then s.(cancelled := s.cancelled + {s.gate.value}) else s
  }

  predicate Runs(s: Sys, acts: seq<Action>)
    decreases |acts|
  {
    acts != [] ==> Enabled(s, acts[0]) && (s.reader.Idle? || s.frames != []) && Runs(Do(s, acts[0]), acts[1..])
  }

  function After(s: Sys, acts: seq<Action>): Sys
    requires Runs(s, acts)
    decreases |acts|
  {
    if acts == [] then s else After(Do(s, acts[0]), acts[1..])
  }

  // ---------------------------------------------------------------------------------------------
  // What JSON-RPC asks for
  // ---------------------------------------------------------------------------------------------

  /** Section 4.1 of the JSON-RPC 2.0 Specification: a valid request without an id. */
  predicate IsNotification(f: Frame) {
    f.Object? && f.version2 && f.named && f.id.Missing?
  }

  function Due(f: Frame): nat {
    if IsNotification(f) then 0 else 1
  }

  /** Section 5: the id of the request, null when it could not be told. */
  function IdDue(f: Frame): Id {
    if f.Object? && f.id.Legal? then f.id.id else Null
  }

  /** The answers that may be given to a frame. */
  predicate KindFits(f: Frame, kind: Kind) {
    match f
    case NotJson => kind == ParseError
    case NotObject => kind == InvalidRequest
    case Object(id, version2, named, verb) =>
      if !version2 || !named || !id.Legal? then kind == InvalidRequest
      else
        match verb
        case Ping => kind == Result
        case Initialize => kind == Result || kind == InFlight
        case ToolsList(ok) => kind == InFlight || kind == if ok then Result else InvalidParams
        case ToolsCall(BadCall) => kind == InFlight || kind == InvalidParams
        case ToolsCall(CheckCrashes) => kind == InFlight || kind == InternalError
        case ToolsCall(GoodCall) => kind == InFlight || kind == Result || kind == InternalError
        case _ => kind == InFlight || kind == MethodNotFound
  }

  function Count(answers: seq<Answer>, i: nat): nat {
    if answers == [] then 0
    else
      var n := |answers| - 1;
      Count(answers[..n], i) + if answers[n].to == i then 1 else 0
  }

  lemma CountOneMore(answers: seq<Answer>, a: Answer, i: nat)
    ensures Count(answers + [a], i) == Count(answers, i) + if a.to == i then 1 else 0
  {
    assert (answers + [a])[..|answers|] == answers;
  }

  // ---------------------------------------------------------------------------------------------
  // The invariant
  // ---------------------------------------------------------------------------------------------

  /** All workers run the flight in the gate, and a flight about to start has none. */
  predicate OneFlight(s: Sys) {
    && (forall w <- s.workers :: s.gate == Some(w))
    && (s.reader.Starting? ==> s.gate == Some(s.reader.flight) && s.workers == map[])
  }

  /** What the reader and a flight know of their frames. */
  predicate Informed(s: Sys) {
    && (!s.reader.Idle? ==> s.frames != [])
    && (s.reader.Holds? ==> s.reader.frame == s.frames[|s.frames| - 1])
    && (s.reader.Passed? ==> Judge(s.frames[|s.frames| - 1]) == Ask(s.reader.id, s.reader.verb))
    && (s.reader.Starting? ==> s.reader.flight.to == |s.frames| - 1)
    && (s.gate.Some? ==>
          s.gate.value.to < |s.frames| && Judge(s.frames[s.gate.value.to]) == Ask(s.gate.value.id, ToolsCall(GoodCall)))
    && (s.gate.Some? && (s.reader.Holds? || s.reader.Passed?) ==> s.gate.value.to < |s.frames| - 1)
  }

  /** Frame `i` is with the reader or with a worker that has not answered. */
  predicate Open(s: Sys, i: nat) {
    (!s.reader.Idle? && i == |s.frames| - 1) ||
    (s.gate.Some? && s.gate.value.to == i && s.gate.value in s.workers && s.workers[s.gate.value].Executing?)
  }

  predicate Accounted(s: Sys) {
    forall i :: 0 <= i < |s.frames| ==> Count(s.answers, i) == if Open(s, i) then 0 else Due(s.frames[i])
  }

  predicate Proper(frames: seq<Frame>, a: Answer) {
    a.to < |frames| && a.id == IdDue(frames[a.to]) && KindFits(frames[a.to], a.kind)
  }

  predicate AllProper(s: Sys) {
    forall k :: 0 <= k < |s.answers| ==> Proper(s.frames, s.answers[k])
  }

  predicate Inv(s: Sys) {
    OneFlight(s) && Informed(s) && Accounted(s) && AllProper(s)
  }

  lemma StepKeepsFlight(s: Sys, a: Action)
    requires OneFlight(s) && Informed(s) && Enabled(s, a)
    ensures OneFlight(Do(s, a)) && Informed(Do(s, a))
  {
  }

  /** The answer a step sends. */
  function Given(s: Sys, a: Action): seq<Answer>
    requires Enabled(s, a) && (s.reader.Idle? || s.frames != [])
  {
    if a.Receive? || a.Start? || a.Finish? || a.Shutdown? then []
    else if a.Finally? then [Answer(a.w.to, a.w.id, if a.ok then Result else InternalError)]
    else if Do(s, a).reader.Idle? && |Do(s, a).answers| > |s.answers| then [Do(s, a).answers[|s.answers|]]
    else []
  }

  lemma StepGives(s: Sys, a: Action)
    requires OneFlight(s) && Informed(s) && Enabled(s, a)
    ensures var s', given := Do(s, a), Given(s, a);
            && s'.answers == s.answers + given && |given| <= 1 && s.frames <= s'.frames
            && (given != [] ==> Proper(s'.frames, given[0]))
  {
    if a.Check? {
      CheckGives(s);
    } else if a.Handle? {
      HandleGives(s);
    }
  }

  lemma CheckGives(s: Sys)
    requires OneFlight(s) && Informed(s) && Enabled(s, Check)
    ensures var s', given := Do(s, Check), Given(s, Check);
            && s'.answers == s.answers + given && |given| <= 1 && s.frames == s'.frames
            && (given != [] ==> Proper(s'.frames, given[0]))
  {
  }

  lemma HandleGives(s: Sys)
    requires OneFlight(s) && Informed(s) && Enabled(s, Handle)
    ensures var s', given := Do(s, Handle), Given(s, Handle);
            && s'.answers == s.answers + given && |given| <= 1 && s.frames == s'.frames
            && (given != [] ==> Proper(s'.frames, given[0]))
  {
  }

  /** A frame leaves the open ones by its one answer, or without one when none is due. */
  lemma StepCloses(s: Sys, a: Action, i: nat)
    requires OneFlight(s) && Informed(s) && Enabled(s, a) && i < |s.frames|
    ensures var s', given := Do(s, a), Given(s, a);
            && (Open(s', i) ==> Open(s, i))
            && (if given != [] && given[0].to == i then 1 else 0) ==
               (if Open(s, i) && !Open(s', i) then Due(s.frames[i]) else 0)
  {
    if a.Check? {
      CheckCloses(s, i);
    } else if a.Handle? {
      HandleCloses(s, i);
    }
  }

  lemma CheckCloses(s: Sys, i: nat)
    requires OneFlight(s) && Informed(s) && Enabled(s, Check) && i < |s.frames|
    ensures var s', given := Do(s, Check), Given(s, Check);
            && (Open(s', i) ==> Open(s, i))
            && (if given != [] && given[0].to == i then 1 else 0) ==
               (if Open(s, i) && !Open(s', i) then Due(s.frames[i]) else 0)
  {
  }

  lemma HandleCloses(s: Sys, i: nat)
    requires OneFlight(s) && Informed(s) && Enabled(s, Handle) && i < |s.frames|
    ensures var s', given := Do(s, Handle), Given(s, Handle);
            && (Open(s', i) ==> Open(s, i))
            && (if given != [] && given[0].to == i then 1 else 0) ==
               (if Open(s, i) && !Open(s', i) then Due(s.frames[i]) else 0)
  {
  }

  lemma {:induction false} NoneBeyond(s: Sys, k: nat)
    requires AllProper(s) && k <= |s.answers|
    ensures Count(s.answers[..k], |s.frames|) == 0
  {
    if k > 0 {
      assert s.answers[..k][..k - 1] == s.answers[..k - 1];
      assert Proper(s.frames, s.answers[k - 1]);
      NoneBeyond(s, k - 1);
    }
  }

  lemma StepKeepsProper(s: Sys, a: Action)
    requires OneFlight(s) && Informed(s) && AllProper(s) && Enabled(s, a)
    ensures AllProper(Do(s, a))
  {
    StepGives(s, a);
    var s', given := Do(s, a), Given(s, a);
    hide *;
    forall k | 0 <= k < |s'.answers|
      ensures Proper(s'.frames, s'.answers[k])
    {
      if k < |s.answers| {
        ProperStays(s, s', k);
      } else {
        assert s'.answers[k] == given[0];
      }
    }
    AreProper(s');
  }

  lemma AreProper(s: Sys)
    requires forall k :: 0 <= k < |s.answers| ==> Proper(s.frames, s.answers[k])
    ensures AllProper(s)
  {
  }

  lemma ProperStays(s: Sys, s': Sys, k: nat)
    requires AllProper(s) && s.frames <= s'.frames && s.answers <= s'.answers && k < |s.answers|
    ensures Proper(s'.frames, s'.answers[k])
  {
    assert Proper(s.frames, s.answers[k]);
  }

  lemma FrameArrives(s: Sys, a: Action)
    requires Inv(s) && Enabled(s, a)
    ensures !a.Receive? ==> Do(s, a).frames == s.frames
    ensures a.Receive? ==> |Do(s, a).frames| == |s.frames| + 1 && Open(Do(s, a), |s.frames|) &&
                           Count(Do(s, a).answers, |s.frames|) == 0
  {
    NoneBeyond(s, |s.answers|);
    assert s.answers[..|s.answers|] == s.answers;
  }

  predicate FrameAccounted(s: Sys, i: nat)
    requires i < |s.frames|
  {
    Count(s.answers, i) == if Open(s, i) then 0 else Due(s.frames[i])
  }

  lemma StepKeepsAccount(s: Sys, a: Action, i: nat)
    requires OneFlight(s) && Informed(s) && Enabled(s, a) && i < |s.frames| && FrameAccounted(s, i)
    ensures i < |Do(s, a).frames| && FrameAccounted(Do(s, a), i)
  {
    StepGives(s, a);
    StepCloses(s, a, i);
    StepCounts(s.answers, Given(s, a), i);
    var s', given := Do(s, a), Given(s, a);
    hide *;
    AccountFollows(s, s', given, i);
  }

  lemma AccountFollows(s: Sys, s': Sys, given: seq<Answer>, i: nat)
    requires i < |s.frames| && s.frames <= s'.frames && FrameAccounted(s, i) && s'.answers == s.answers + given
    requires Count(s'.answers, i) == Count(s.answers, i) + if given != [] && given[0].to == i then 1 else 0
    requires Open(s', i) ==> Open(s, i)
    requires (if given != [] && given[0].to == i then 1 else 0) ==
             (if Open(s, i) && !Open(s', i) then Due(s.frames[i]) else 0)
    ensures FrameAccounted(s', i)
  {
    hide Count, Open, Due;
    assert s.frames[i] == s'.frames[i];
  }

  lemma AreAccounted(s: Sys)
    requires forall i :: 0 <= i < |s.frames| ==> FrameAccounted(s, i)
    ensures Accounted(s)
  {
    forall i | 0 <= i < |s.frames|
      ensures Count(s.answers, i) == if Open(s, i) then 0 else Due(s.frames[i])
    {
      assert FrameAccounted(s, i);
    }
  }

  lemma IsAccounted(s: Sys, i: nat)
    requires Accounted(s) && i < |s.frames|
    ensures FrameAccounted(s, i)
  {
  }

  lemma StepKeepsAccounts(s: Sys, a: Action)
    requires Inv(s) && Enabled(s, a)
    ensures Accounted(Do(s, a)) && AllProper(Do(s, a))
  {
    StepKeepsProper(s, a);
    FrameArrives(s, a);
    var s' := Do(s, a);
    hide Do, Count, Due, OneFlight, AllProper, Accounted, Enabled, Open;
    forall i | 0 <= i < |s'.frames|
      ensures FrameAccounted(s', i)
    {
      if i < |s.frames| {
        IsAccounted(s, i);
        StepKeepsAccount(s, a, i);
      }
    }
    AreAccounted(s');
  }

  lemma StepCounts(answers: seq<Answer>, given: seq<Answer>, i: nat)
    requires |given| <= 1
    ensures Count(answers + given, i) == Count(answers, i) + if given != [] && given[0].to == i then 1 else 0
  {
    if given == [] {
      assert answers + given == answers;
    } else {
      assert given == [given[0]];
      CountOneMore(answers, given[0], i);
    }
  }

  lemma {:induction false} RunKeepsInv(s: Sys, acts: seq<Action>)
    requires Inv(s) && Runs(s, acts)
    ensures Inv(After(s, acts))
    decreases |acts|
  {
    if acts != [] {
      StepKeepsFlight(s, acts[0]);
      StepKeepsAccounts(s, acts[0]);
      hide Do, Enabled, OneFlight, Informed, Accounted, AllProper;
      RunKeepsInv(Do(s, acts[0]), acts[1..]);
    }
  }

  // ---------------------------------------------------------------------------------------------
  // Runs
  // ---------------------------------------------------------------------------------------------

  /** In every interleaving at most one tool call is under way, and it is the one in the gate. */
  lemma AtMostOneCall(acts: seq<Action>, v: Flight, w: Flight)
    requires Runs(Init(), acts)
    requires v in After(Init(), acts).workers && w in After(Init(), acts).workers
    ensures v == w && After(Init(), acts).gate == Some(w)
  {
    RunKeepsInv(Init(), acts);
  }

  predicate Quiet(s: Sys) {
    s.reader.Idle? && forall w <- s.workers :: s.workers[w].Answered?
  }

  /**
   * At every point each frame has at most one answer; once the reader is idle and the worker has
   * answered, each has exactly the one due to it, a notification none, and always with its own id.
   */
  lemma AnsweredExactlyOnce(acts: seq<Action>, i: nat)
    requires Runs(Init(), acts) && i < |After(Init(), acts).frames|
    ensures var s := After(Init(), acts);
            && Count(s.answers, i) <= Due(s.frames[i])
            && (Quiet(s) ==> Count(s.answers, i) == Due(s.frames[i]))
            && forall k :: 0 <= k < |s.answers| && s.answers[k].to == i ==>
                 s.answers[k].id == IdDue(s.frames[i]) && KindFits(s.frames[i], s.answers[k].kind)
  {
    RunKeepsInv(Init(), acts);
    var s := After(Init(), acts);
    hide After, Runs, Count, KindFits, IdDue;
    assert Count(s.answers, i) == if Open(s, i) then 0 else Due(s.frames[i]);
    forall k | 0 <= k < |s.answers| && s.answers[k].to == i
      ensures s.answers[k].id == IdDue(s.frames[i]) && KindFits(s.frames[i], s.answers[k].kind)
    {
      assert Proper(s.frames, s.answers[k]);
    }
  }

  // ---------------------------------------------------------------------------------------------
  // The gate opens again, unless a worker could not be started
  // ---------------------------------------------------------------------------------------------

  /** The flight in the gate has lost its worker, so nobody will finish it. */
  predicate Stuck(s: Sys) {
    s.gate.Some? && !s.reader.Starting? && s.gate.value !in s.workers
  }

  predicate StartFailed(acts: seq<Action>) {
    exists k :: 0 <= k < |acts| && acts[k].StartFails?
  }

  lemma StuckIsForever(s: Sys, a: Action)
    requires OneFlight(s) && Informed(s) && Enabled(s, a)
    ensures Stuck(Do(s, a)) <==> Stuck(s) || a.StartFails?
  {
  }

  lemma {:induction false} StuckIff(s: Sys, acts: seq<Action>)
    requires Inv(s) && Runs(s, acts)
    ensures Stuck(After(s, acts)) <==> Stuck(s) || StartFailed(acts)
    decreases |acts|
  {
    if acts != [] {
      StuckIsForever(s, acts[0]);
      StepKeepsFlight(s, acts[0]);
      StepKeepsAccounts(s, acts[0]);
      StuckIff(Do(s, acts[0]), acts[1..]);
      hide Do, Enabled, Inv, Stuck;
      assert forall k :: 1 <= k < |acts| ==> acts[k] == acts[1..][k - 1];
      assert forall k :: 0 <= k < |acts[1..]| ==> acts[1..][k] == acts[k + 1];
    }
  }

  /**
   * With nothing under way the gate is free for the next call exactly when every worker thread so far
   * could be started. Otherwise it stays taken, and every later request but ping is refused.
   */
  lemma GateIsFreeIff(acts: seq<Action>)
    requires Runs(Init(), acts)
    ensures var s := After(Init(), acts);
            s.reader.Idle? && s.workers == map[] ==> (s.gate.None? <==> !StartFailed(acts))
  {
    StuckIff(Init(), acts);
  }

  /** A stuck gate answers every request but ping with `request_in_flight`. */
  lemma StuckRefuses(s: Sys, id: Id, verb: Method)
    requires Inv(s) && Stuck(s) && s.reader.Idle? && !verb.Ping?
    ensures var s' := Do(Do(s, Receive(Object(Legal(id), true, true, verb))), Check);
            s'.reader.Idle? && Stuck(s') && s'.answers == s.answers + [Answer(|s.frames|, id, InFlight)]
  {
  }

  /** Such a run: one call arrives, and its worker cannot be started. */
  lemma FailedStartLeavesGateTaken(id: Id) returns (acts: seq<Action>)
    ensures Runs(Init(), acts)
    ensures var s := After(Init(), acts);
            s.reader.Idle? && s.workers == map[] && s.gate.Some? && s.answers == [Answer(0, id, InternalError)]
  {
    var first := Receive(Object(Legal(id), true, true, ToolsCall(GoodCall)));
    var s1 := Do(Init(), first);
    var s2 := Do(s1, Check);
    var s3 := Do(s2, Handle);
    assert s3.reader == Starting(Flight(0, 0, id));
    var s4 := Do(s3, StartFails);
    assert Runs(s4, []) && After(s4, []) == s4;
    acts := Precede(s3, StartFails, []);
    acts := Precede(s2, Handle, acts);
    acts := Precede(s1, Check, acts);
    acts := Precede(Init(), first, acts);
  }

  lemma Precede(s: Sys, a: Action, rest: seq<Action>) returns (acts: seq<Action>)
    requires Enabled(s, a) && (s.reader.Idle? || s.frames != []) && Runs(Do(s, a), rest)
    ensures acts == [a] + rest && Runs(s, acts) && After(s, acts) == After(Do(s, a), rest)
  {
    hide Do, Enabled;
    acts := [a] + rest;
    assert acts[0] == a && acts[1..] == rest;
  }

  // ---------------------------------------------------------------------------------------------
  // Cancelling
  // ---------------------------------------------------------------------------------------------

  /** The step asks to stop this flight while it is in the gate: a notification with its id, or a shutdown. */
  predicate Hits(s: Sys, a: Action, f: Flight) {
    && s.gate == Some(f)
    && (a.Shutdown? ||
        (a.Check? && s.reader.Holds? && IsNotification(s.reader.frame) && s.reader.frame.verb == Cancelled(Some(f.id))))
  }

  lemma StepCancels(s: Sys, a: Action, f: Flight)
    requires OneFlight(s) && Informed(s) && Enabled(s, a)
    ensures f in Do(s, a).cancelled <==> f in s.cancelled || Hits(s, a, f)
  {
  }

  /** Some step of the run hits the flight. */
  predicate EverHit(s: Sys, acts: seq<Action>, f: Flight)
    requires Runs(s, acts)
    decreases |acts|
  {
    acts != [] && (Hits(s, acts[0], f) || EverHit(Do(s, acts[0]), acts[1..], f))
  }

  lemma {:induction false} CancelledIff(s: Sys, acts: seq<Action>, f: Flight)
    requires Inv(s) && Runs(s, acts)
    ensures f in After(s, acts).cancelled <==> f in s.cancelled || EverHit(s, acts, f)
    decreases |acts|
  {
    if acts != [] {
      StepKeepsFlight(s, acts[0]);
      StepKeepsAccounts(s, acts[0]);
      StepCancels(s, acts[0], f);
      hide Do, Enabled, Inv, Hits;
      CancelledIff(Do(s, acts[0]), acts[1..], f);
    }
  }

  /**
   * Over whole runs a call is cancelled exactly when some step hit it: a notification with its id, or a
   * shutdown, while it was in the gate. A cancel of another id, or one that comes late, stops nothing.
   */
  lemma CancelHitsItsTarget(acts: seq<Action>, f: Flight)
    requires Runs(Init(), acts)
    ensures f in After(Init(), acts).cancelled <==> EverHit(Init(), acts, f)
  {
    CancelledIff(Init(), acts, f);
  }

  // ---------------------------------------------------------------------------------------------
  // Which answer a frame gets
  // ---------------------------------------------------------------------------------------------

  predicate IsRequest(f: Frame) {
    f.Object? && f.version2 && f.named && f.id.Legal?
  }

  /** A request for a tool call whose checks find nothing. */
  predicate IsGoodCall(f: Frame) {
    IsRequest(f) && f.verb == ToolsCall(GoodCall)
  }

  predicate HasAnswer(s: Sys, i: nat, kind: Kind) {
    exists k :: 0 <= k < |s.answers| && s.answers[k].to == i && s.answers[k].kind == kind
  }

  /**
   * What earns frame `i` its answer: a flight in the gate when the reader checks a request other than ping;
   * an executor that returns; one that raises, or a worker that cannot be started.
   */
  predicate Earns(s: Sys, a: Action, i: nat, kind: Kind) {
    match kind
    case InFlight =>
      a.Check? && s.reader.Holds? && i == |s.frames| - 1 && IsRequest(s.frames[i]) && !s.frames[i].verb.Ping?
      && s.gate.Some?
    case Result => a.Finally? && a.w.to == i && a.ok
    case InternalError =>
      (a.Finally? && a.w.to == i && !a.ok) || (a.StartFails? && s.reader.Starting? && i == |s.frames| - 1)
    case _ => false
  }

  /** Some step of the run earns the frame this answer. */
  predicate EverEarns(s: Sys, acts: seq<Action>, i: nat, kind: Kind)
    requires Runs(s, acts)
    decreases |acts|
  {
    acts != [] && (Earns(s, acts[0], i, kind) || EverEarns(Do(s, acts[0]), acts[1..], i, kind))
  }

  /** Between the check and the branch of the method the gate stays free, but for a ping. */
  predicate PassedIsFree(s: Sys) {
    s.reader.Passed? && !s.reader.verb.Ping? ==> s.gate.None?
  }

  lemma StepKeepsPassedFree(s: Sys, a: Action)
    requires OneFlight(s) && Informed(s) && PassedIsFree(s) && Enabled(s, a)
    ensures PassedIsFree(Do(s, a))
  {
  }

  /** The answers of this kind to frame `i` that a step sends are those it earns. */
  lemma StepEarns(s: Sys, a: Action, i: nat, kind: Kind)
    requires OneFlight(s) && Informed(s) && PassedIsFree(s) && Enabled(s, a) && i < |s.frames|
    requires kind == InFlight || (IsGoodCall(s.frames[i]) && kind in {Result, InternalError})
    ensures var given := Given(s, a);
            given != [] && given[0].to == i && given[0].kind == kind <==> Earns(s, a, i, kind)
  {
    if a.Check? {
      CheckEarns(s, i, kind);
    } else if a.Handle? {
      HandleEarns(s, i, kind);
    }
  }

  lemma CheckEarns(s: Sys, i: nat, kind: Kind)
    requires OneFlight(s) && Informed(s) && Enabled(s, Check) && i < |s.frames|
    requires kind == InFlight || (IsGoodCall(s.frames[i]) && kind in {Result, InternalError})
    ensures var given := Given(s, Check);
            given != [] && given[0].to == i && given[0].kind == kind <==> Earns(s, Check, i, kind)
  {
  }

  lemma HandleEarns(s: Sys, i: nat, kind: Kind)
    requires OneFlight(s) && Informed(s) && PassedIsFree(s) && Enabled(s, Handle) && i < |s.frames|
    requires kind == InFlight || (IsGoodCall(s.frames[i]) && kind in {Result, InternalError})
    ensures var given := Given(s, Handle);
            given != [] && given[0].to == i && given[0].kind == kind <==> Earns(s, Handle, i, kind)
  {
  }

  lemma StepAnswers(s: Sys, a: Action, i: nat, kind: Kind)
    requires Inv(s) && PassedIsFree(s) && Enabled(s, a)
    requires i < |s.frames| ==> kind == InFlight || (IsGoodCall(s.frames[i]) && kind in {Result, InternalError})
    ensures HasAnswer(Do(s, a), i, kind) <==> HasAnswer(s, i, kind) || Earns(s, a, i, kind)
  {
    var s', given := Do(s, a), Given(s, a);
    StepGives(s, a);
    if i < |s.frames| {
      StepEarns(s, a, i, kind);
    } else {
      NothingEarnedYet(s, a, i, kind);
    }
    hide *;
    if HasAnswer(s, i, kind) {
      AnswerStays(s, s', i, kind);
    }
    OneMoreAnswer(s, s', given, i, kind);
  }

  lemma OneMoreAnswer(s: Sys, s': Sys, given: seq<Answer>, i: nat, kind: Kind)
    requires s'.answers == s.answers + given && |given| <= 1
    ensures HasAnswer(s', i, kind) <==>
              HasAnswer(s, i, kind) || (given != [] && given[0].to == i && given[0].kind == kind)
  {
    if k :| 0 <= k < |s.answers| && s.answers[k].to == i && s.answers[k].kind == kind {
      assert s'.answers[k] == s.answers[k];
    }
    if given != [] {
      assert s'.answers[|s.answers|] == given[0];
    }
  }

  lemma AnswerStays(s: Sys, s': Sys, i: nat, kind: Kind)
    requires s.answers <= s'.answers && HasAnswer(s, i, kind)
    ensures HasAnswer(s', i, kind)
  {
    var k :| 0 <= k < |s.answers| && s.answers[k].to == i && s.answers[k].kind == kind;
    assert s'.answers[k] == s.answers[k];
  }

  lemma NothingEarnedYet(s: Sys, a: Action, i: nat, kind: Kind)
    requires OneFlight(s) && Informed(s) && Enabled(s, a) && i >= |s.frames|
    ensures !Earns(s, a, i, kind)
    ensures Given(s, a) != [] ==> Given(s, a)[0].to < |s.frames|
  {
  }

  lemma {:induction false} FramesGrow(s: Sys, acts: seq<Action>)
    requires Runs(s, acts)
    ensures s.frames <= After(s, acts).frames
    decreases |acts|
  {
    if acts != [] {
      FramesGrow(Do(s, acts[0]), acts[1..]);
    }
  }

  lemma {:induction false} AnsweredIff(s: Sys, acts: seq<Action>, i: nat, kind: Kind)
    requires Inv(s) && PassedIsFree(s) && Runs(s, acts) && i < |After(s, acts).frames|
    requires kind == InFlight || (IsGoodCall(After(s, acts).frames[i]) && kind in {Result, InternalError})
    ensures HasAnswer(After(s, acts), i, kind) <==> HasAnswer(s, i, kind) || EverEarns(s, acts, i, kind)
    decreases |acts|
  {
    if acts != [] {
      FramesGrow(s, acts);
      assert i < |s.frames| ==> s.frames[i] == After(s, acts).frames[i];
      StepKeepsFlight(s, acts[0]);
      StepKeepsAccounts(s, acts[0]);
      StepKeepsPassedFree(s, acts[0]);
      StepAnswers(s, acts[0], i, kind);
      hide Do, Enabled, Inv, Earns, HasAnswer, PassedIsFree, IsGoodCall;
      AnsweredIff(Do(s, acts[0]), acts[1..], i, kind);
    }
  }

  /** The answer due to a frame, by what happened to it. */
  function KindDue(f: Frame, busy: bool, returned: bool): Kind {
    match f
    case NotJson => ParseError
    case NotObject => InvalidRequest
    case Object(id, version2, named, verb) =>
      if !version2 || !named || !id.Legal? then InvalidRequest
      else if verb.Ping? then Result
      else if busy then InFlight
      else
        match verb
        case Initialize => Result
        case ToolsList(ok) => if ok then Result else InvalidParams
        case ToolsCall(BadCall) => InvalidParams
        case ToolsCall(CheckCrashes) => InternalError
        case ToolsCall(GoodCall) => if returned then Result else InternalError
        case _ => MethodNotFound
  }

  lemma {:induction false} NoSecondAnswer(answers: seq<Answer>, i: nat, j: nat, k: nat)
    requires j < k < |answers| && answers[j].to == i && answers[k].to == i
    ensures Count(answers, i) >= 2
    decreases |answers|
  {
    var n := |answers| - 1;
    if k < n {
      NoSecondAnswer(answers[..n], i, j, k);
    } else {
      SomeAnswer(answers[..n], i, j);
    }
  }

  lemma {:induction false} SomeAnswer(answers: seq<Answer>, i: nat, j: nat)
    requires j < |answers| && answers[j].to == i
    ensures Count(answers, i) >= 1
    decreases |answers|
  {
    if j < |answers| - 1 {
      SomeAnswer(answers[..|answers| - 1], i, j);
    }
  }

  /**
   * Which answer every frame gets, in every interleaving: a request other than ping `request_in_flight`
   * exactly when a flight was in the gate as the reader checked it; otherwise the result or the error of
   * its method, and a tool call that began a result exactly when its executor returned, an internal
   * error exactly when it raised or its worker could not be started.
   */
  lemma AnswersAreExact(acts: seq<Action>, k: nat)
    requires Runs(Init(), acts) && k < |After(Init(), acts).answers|
    ensures var s := After(Init(), acts); var i, kind := s.answers[k].to, s.answers[k].kind;
            && i < |s.frames|
            && kind == KindDue(s.frames[i], EverEarns(Init(), acts, i, InFlight), EverEarns(Init(), acts, i, Result))
            && (IsGoodCall(s.frames[i]) && kind == InternalError ==> EverEarns(Init(), acts, i, InternalError))
  {
    RunKeepsInv(Init(), acts);
    var s := After(Init(), acts);
    var i, kind := s.answers[k].to, s.answers[k].kind;
    assert Proper(s.frames, s.answers[k]);
    assert HasAnswer(s, i, kind);
    AnsweredIff(Init(), acts, i, InFlight);
    if IsGoodCall(s.frames[i]) {
      AnsweredIff(Init(), acts, i, Result);
      AnsweredIff(Init(), acts, i, InternalError);
    }
    assert FrameAccounted(s, i);
    hide Runs, After, EverEarns, Inv, Open;
    forall other | HasAnswer(s, i, other)
      ensures other == kind
    {
      var j :| 0 <= j < |s.answers| && s.answers[j].to == i && s.answers[j].kind == other;
      if j != k {
        NoSecondAnswer(s.answers, i, if j < k then j else k, if j < k then k else j);
      }
    }
    hide Proper, HasAnswer, Count, Due;
    assert forall other :: !HasAnswer(Init(), i, other) by { NoAnswerYet(i); }
    assert KindFits(s.frames[i], kind);
    ExactKind(s.frames[i], kind, EverEarns(Init(), acts, i, InFlight), EverEarns(Init(), acts, i, Result));
  }

  lemma NoAnswerYet(i: nat)
    ensures forall kind :: !HasAnswer(Init(), i, kind)
  {
  }

  lemma ExactKind(f: Frame, kind: Kind, busy: bool, returned: bool)
    requires KindFits(f, kind) && (kind == InFlight <==> busy)
    requires IsGoodCall(f) ==> (kind == Result <==> returned)
    ensures kind == KindDue(f, busy, returned)
  {
  }

  /** No frame of the run is a tool call that passes its checks. */
  predicate NoCall(acts: seq<Action>) {
    forall k :: 0 <= k < |acts| ==> !(acts[k].Receive? && IsGoodCall(acts[k].frame))
  }

  /** Nothing can take the gate. */
  predicate GateIdle(s: Sys) {
    && s.gate.None? && s.workers == map[] && !s.reader.Starting?
    && (s.reader.Holds? ==> !IsGoodCall(s.reader.frame)) && (s.reader.Passed? ==> s.reader.verb != ToolsCall(GoodCall))
  }

  lemma {:induction false} IdleNeverRefuses(s: Sys, acts: seq<Action>, i: nat)
    requires GateIdle(s) && Runs(s, acts) && NoCall(acts)
    ensures !EverEarns(s, acts, i, InFlight)
    decreases |acts|
  {
    if acts != [] {
      assert GateIdle(Do(s, acts[0])) by { StepKeepsIdle(s, acts[0]); }
      assert forall k :: 0 <= k < |acts[1..]| ==> acts[1..][k] == acts[k + 1];
      hide Do, Enabled;
      IdleNeverRefuses(Do(s, acts[0]), acts[1..], i);
    }
  }

  lemma StepKeepsIdle(s: Sys, a: Action)
    requires GateIdle(s) && Enabled(s, a) && (s.reader.Idle? || s.frames != [])
    requires !(a.Receive? && IsGoodCall(a.frame))
    ensures GateIdle(Do(s, a))
  {
  }

  /** Without a tool call no request is ever refused as in flight. */
  lemma NoCallNoRefusal(acts: seq<Action>, k: nat)
    requires Runs(Init(), acts) && NoCall(acts) && k < |After(Init(), acts).answers|
    ensures After(Init(), acts).answers[k].kind != InFlight
  {
    AnswersAreExact(acts, k);
    IdleNeverRefuses(Init(), acts, After(Init(), acts).answers[k].to);
  }
}
