/** The PID lock file as interleaved steps of threads and processes that may crash (memory/agent_lock.py). */
module AgentLock {
  import opened Wrappers

  // ---------------------------------------------------------------------------------------------
  // The system
  // ---------------------------------------------------------------------------------------------

  /** A thread of the live process with this PID. */
  datatype Thread = Thread(pid: int, id: int)

  /** The file at the lock path; `content` is the PID written in it, none while it is empty. */
  datatype LockFile = LockFile(inode: nat, content: Option<int>)

  datatype OnDisk = Absent | Present(file: LockFile)

  /**
   * Where a thread is inside `agent_lock`; a thread that is not listed is outside. `Created` holds an
   * open descriptor of a file without a PID, `SawStale` has decided to unlink.
   */
  datatype Place =
    | Trying
    | Created(inode: nat)
    | SawStale(inode: nat)
    | Inside(inode: nat)
    | Leaving(inode: nat)
    | Unlinking(inode: nat)
    | Releasing

  /** `guards` is the in-process lock of each PID. */
  datatype Sys = Sys(disk: OnDisk, nextInode: nat, alive: set<int>, guards: map<int, Thread>,
                     places: map<Thread, Place>)

  datatype Action =
    | Enter(t: Thread)       // takes the in-process guard
    | Create(t: Thread)      // os.open with O_CREAT | O_EXCL
    | WritePid(t: Thread)    // os.write through the descriptor
    | SeeStale(t: Thread)    // _stale_lock returns true
    | SeeHeld(t: Thread)     // _stale_lock returns false
    | Unlink(t: Thread)      // path.unlink() of a stale file
    | GiveUp(t: Thread)      // the deadline has passed
    | Leave(t: Thread)       // the body of the with statement ends
    | CheckOwner(t: Thread)  // _unlink_if_owner reads the file
    | Remove(t: Thread)      // _unlink_if_owner unlinks
    | Release(t: Thread)     // gives the guard back
    | Crash(pid: int)
    | Spawn(pid: int)        // a new process, possibly under a PID used before

  predicate Stale(s: Sys) {
    s.disk.Present? && (s.disk.file.content.None? || s.disk.file.content.value !in s.alive)
  }

  predicate At(s: Sys, t: Thread, p: Place) {
    t in s.places && s.places[t] == p
  }

  predicate Enabled(s: Sys, a: Action) {
    match a
    case Enter(t) => t.pid in s.alive && t !in s.places && t.pid !in s.guards
    case Create(t) => At(s, t, Trying) && s.disk.Absent?
    case WritePid(t) => t in s.places && s.places[t].Created?
    case SeeStale(t) => At(s, t, Trying) && Stale(s)
    case SeeHeld(t) => At(s, t, Trying) && s.disk.Present? && !Stale(s)
    case Unlink(t) => t in s.places && s.places[t].SawStale?
    case GiveUp(t) => At(s, t, Trying)
    case Leave(t) => t in s.places && s.places[t].Inside?
    case CheckOwner(t) => t in s.places && s.places[t].Leaving?
    case Remove(t) => t in s.places && s.places[t].Unlinking?
    case Release(t) => At(s, t, Releasing)
    case Crash(pid) => pid in s.alive
    case Spawn(pid) => pid > 0 && pid !in s.alive
  }

  function Move(s: Sys, t: Thread, p: Place): Sys {
    s.(places := s.places[t := p])
  }

  function Do(s: Sys, a: Action): Sys
    requires Enabled(s, a)
  {
    match a
    case Enter(t) => Move(s.(guards := s.guards[t.pid := t]), t, Trying)
    case Create(t) =>
      Move(s.(disk := Present(LockFile(s.nextInode, None)), nextInode := s.nextInode + 1), t, Created(s.nextInode))
    case WritePid(t) =>
      var i := s.places[t].inode;
      // the descriptor writes to its own file, which may no longer be the one at the path
      var disk := if s.disk.Present? && s.disk.file.inode == i then Present(LockFile(i, Some(t.pid))) else s.disk;
      Move(s.(disk := disk), t, Inside(i))
    case SeeStale(t) => Move(s, t, SawStale(s.disk.file.inode))
    case SeeHeld(t) => s
    case Unlink(t) => Move(s.(disk := Absent), t, Trying)
    case GiveUp(t) => Move(s, t, Releasing)
    case Leave(t) => Move(s, t, Leaving(s.places[t].inode))
    case CheckOwner(t) =>
      if s.disk.Present? && s.disk.file.content == Some(t.pid) then Move(s, t, Unlinking(s.places[t].inode))
      else Move(s, t, Releasing)
    case Remove(t) => Move(s.(disk := Absent), t, Releasing)
    case Release(t) => s.(guards := s.guards - {t.pid}, places := s.places - {t})
    case Crash(pid) =>
      s.(alive := s.alive - {pid}, guards := s.guards - {pid},
         places := map t | t in s.places && t.pid != pid :: s.places[t])
    case Spawn(pid) => s.(alive := s.alive + {pid})
  }

  /** Every action of the run can happen when its turn comes. */
  predicate Runs(s: Sys, acts: seq<Action>)
    decreases |acts|
  {
    acts != [] ==> Enabled(s, acts[0]) && Runs(Do(s, acts[0]), acts[1..])
  }

  function After(s: Sys, acts: seq<Action>): Sys
    requires Runs(s, acts)
    decreases |acts|
  {
    if acts == [] then s else After(Do(s, acts[0]), acts[1..])
  }

  /** A machine on which nobody is in `agent_lock`; any lock file may be left over from before. */
  predicate Initial(s: Sys) {
    s.places == map[] && s.guards == map[] && (forall p <- s.alive :: p > 0) &&
    (s.disk.Present? ==> s.disk.file.inode < s.nextInode)
  }

  ghost predicate MutualExclusion(s: Sys) {
    forall t, u :: t in s.places && u in s.places && s.places[t].Inside? && s.places[u].Inside? ==> t == u
  }

  // ---------------------------------------------------------------------------------------------
  // The two windows
  // ---------------------------------------------------------------------------------------------

  /** No stale test looks at a file between its creation and the write of its PID. */
  ghost predicate NoEmptyLook(s: Sys, a: Action) {
    a.SeeStale? && s.disk.Present? ==> forall u :: u in s.places ==> s.places[u] != Created(s.disk.file.inode)
  }

  /** No unlink removes another file than the one whose staleness was tested. */
  predicate NoLateUnlink(s: Sys, a: Action) {
    a.Unlink? && a.t in s.places && s.places[a.t].SawStale? && s.disk.Present? ==>
      s.disk.file.inode == s.places[a.t].inode
  }

  /** The run keeps out of the first window if `looks`, and out of the second if `unlinks`. */
  ghost predicate Avoids(s: Sys, acts: seq<Action>, looks: bool, unlinks: bool)
    requires Runs(s, acts)
    decreases |acts|
  {
    acts != [] ==>
      (looks ==> NoEmptyLook(s, acts[0])) && (unlinks ==> NoLateUnlink(s, acts[0])) &&
      Avoids(Do(s, acts[0]), acts[1..], looks, unlinks)
  }

  ghost predicate Benign(s: Sys, acts: seq<Action>)
    requires Runs(s, acts)
  {
    Avoids(s, acts, true, true)
  }

  // ---------------------------------------------------------------------------------------------
  // Safety
  // ---------------------------------------------------------------------------------------------

  /** The thread created the file it names and has not removed it. */
  predicate Holds(s: Sys, t: Thread) {
    t in s.places && (s.places[t].Created? || s.places[t].Inside? || s.places[t].Leaving? || s.places[t].Unlinking?)
  }

  ghost predicate GuardsKept(s: Sys) {
    forall t :: t in s.places ==> t.pid in s.alive && t.pid in s.guards && s.guards[t.pid] == t
  }

  ghost predicate InodesKept(s: Sys) {
    && (s.disk.Present? ==> s.disk.file.inode < s.nextInode)
    && (forall t :: t in s.places && s.places[t].SawStale? ==> s.places[t].inode < s.nextInode)
  }

  /** The file that the holder `t` has made so far. */
  function FileOf(s: Sys, t: Thread): OnDisk
    requires Holds(s, t)
  {
    Present(LockFile(s.places[t].inode, if s.places[t].Created? then None else Some(t.pid)))
  }

  /** The file at the path is the holder's, with its PID once written. */
  ghost predicate HolderOwnsFile(s: Sys) {
    forall t :: Holds(s, t) ==> s.disk == FileOf(s, t)
  }

  ghost predicate OneHolder(s: Sys) {
    forall t, u :: Holds(s, t) && Holds(s, u) ==> t == u
  }

  /** A file found stale is nobody's. */
  ghost predicate StaleIsFree(s: Sys) {
    forall t, u :: t in s.places && s.places[t].SawStale? && Holds(s, u) ==> s.places[u].inode != s.places[t].inode
  }

  ghost predicate Inv(s: Sys) {
    GuardsKept(s) && InodesKept(s) && HolderOwnsFile(s) && OneHolder(s) && StaleIsFree(s)
  }

  lemma StepKeepsGuards(s: Sys, a: Action)
    requires GuardsKept(s) && Enabled(s, a)
    ensures GuardsKept(Do(s, a))
  {
  }

  lemma StepKeepsInodes(s: Sys, a: Action)
    requires InodesKept(s) && Enabled(s, a) && HolderOwnsFile(s)
    ensures InodesKept(Do(s, a))
  {
  }

  lemma StepKeepsHolder(s: Sys, a: Action)
    requires Inv(s) && Enabled(s, a) && NoEmptyLook(s, a) && NoLateUnlink(s, a)
    ensures HolderOwnsFile(Do(s, a)) && OneHolder(Do(s, a))
  {
    var s' := Do(s, a);
    forall t | Holds(s', t)
      ensures s'.disk == FileOf(s', t)
    {
      HolderKeepsFile(s, a, t);
    }
    forall t, u | Holds(s', t) && Holds(s', u)
      ensures t == u
    {
      WasHolder(s, a, t);
      WasHolder(s, a, u);
      hide Do, Enabled, NoEmptyLook, NoLateUnlink, StaleIsFree, GuardsKept, InodesKept;
      if a.Create? {
        NobodyHoldsNothing(s, t);
        NobodyHoldsNothing(s, u);
      }
    }
  }

  /** The only new holder is the creator of the file. */
  lemma WasHolder(s: Sys, a: Action, t: Thread)
    requires Enabled(s, a) && Holds(Do(s, a), t)
    ensures Holds(s, t) || a == Create(t)
    ensures a.Create? ==> s.disk.Absent?
  {
  }

  lemma NobodyHoldsNothing(s: Sys, t: Thread)
    requires HolderOwnsFile(s) && s.disk.Absent?
    ensures !Holds(s, t)
  {
  }

  lemma HolderKeepsFile(s: Sys, a: Action, t: Thread)
    requires Inv(s) && Enabled(s, a) && NoEmptyLook(s, a) && NoLateUnlink(s, a) && Holds(Do(s, a), t)
    ensures Do(s, a).disk == FileOf(Do(s, a), t)
  {
    WasHolder(s, a, t);
    if a != Create(t) {
      assert s.disk == FileOf(s, t);
      assert a.Create? ==> s.disk.Absent?;
      assert a.WritePid? || a.Remove? ==> Holds(s, a.t) && a.t == t;
    }
  }

  lemma StepKeepsStaleFree(s: Sys, a: Action)
    requires Inv(s) && Enabled(s, a) && NoEmptyLook(s, a) && NoLateUnlink(s, a)
    ensures StaleIsFree(Do(s, a))
  {
    var s' := Do(s, a);
    forall t, u | t in s'.places && s'.places[t].SawStale? && Holds(s', u)
      ensures s'.places[u].inode != s'.places[t].inode
    {
      if !a.Create? {
        assert Holds(s, u);
      }
    }
  }

  lemma StepKeepsInv(s: Sys, a: Action)
    requires Inv(s) && Enabled(s, a) && NoEmptyLook(s, a) && NoLateUnlink(s, a)
    ensures Inv(Do(s, a))
  {
    StepKeepsGuards(s, a);
    StepKeepsInodes(s, a);
    StepKeepsHolder(s, a);
    StepKeepsStaleFree(s, a);
  }

  lemma {:induction false} BenignRunKeepsInv(s: Sys, acts: seq<Action>)
    requires Inv(s) && Runs(s, acts) && Benign(s, acts)
    ensures Inv(After(s, acts))
    decreases |acts|
  {
    if acts != [] {
      StepKeepsInv(s, acts[0]);
      hide Enabled, Inv, NoEmptyLook, NoLateUnlink;
      BenignRunKeepsInv(Do(s, acts[0]), acts[1..]);
    }
  }

  /**
   * In every interleaving, with crashes and reused PIDs at any point, at most one thread of all
   * processes is inside, as long as no step falls into one of the two windows.
   */
  lemma BenignRunsExclude(s: Sys, acts: seq<Action>)
    requires Initial(s) && Runs(s, acts) && Benign(s, acts)
    ensures MutualExclusion(After(s, acts))
  {
    assert Inv(s);
    BenignRunKeepsInv(s, acts);
    var s' := After(s, acts);
    hide After, Runs, Benign;
    forall t, u | t in s'.places && u in s'.places && s'.places[t].Inside? && s'.places[u].Inside?
      ensures t == u
    {
      assert Holds(s', t) && Holds(s', u);
    }
  }

  // ---------------------------------------------------------------------------------------------
  // Single steps are enough
  // ---------------------------------------------------------------------------------------------

  /** A lock operation in which creation carries the PID and a stale test carries the unlink. */
  datatype Atomic = Acquire(t: Thread) | Reap(t: Thread) | Plain(a: Action)

  predicate IsAtomic(m: Atomic) {
    m.Plain? ==> !m.a.Create? && !m.a.WritePid? && !m.a.SeeStale? && !m.a.Unlink?
  }

  function Actions(m: Atomic): seq<Action> {
    match m
    case Acquire(t) => [Create(t), WritePid(t)]
    case Reap(t) => [SeeStale(t), Unlink(t)]
    case Plain(a) => [a]
  }

  function Expand(ms: seq<Atomic>): seq<Action> {
    if ms == [] then [] else Actions(ms[0]) + Expand(ms[1..])
  }

  /** Nobody is between the halves of a split operation. */
  ghost predicate Settled(s: Sys) {
    forall t :: t in s.places ==> !s.places[t].Created? && !s.places[t].SawStale?
  }

  lemma OneThen(s: Sys, a: Action, rest: seq<Action>)
    requires Runs(s, [a] + rest)
    ensures Enabled(s, a) && Runs(Do(s, a), rest) && After(s, [a] + rest) == After(Do(s, a), rest)
    ensures NoEmptyLook(s, a) && NoLateUnlink(s, a) && Benign(Do(s, a), rest) ==> Benign(s, [a] + rest)
  {
    assert ([a] + rest)[0] == a && ([a] + rest)[1..] == rest;
  }

  lemma TwoThen(s: Sys, a: Action, b: Action, rest: seq<Action>)
    requires Runs(s, [a, b] + rest)
    ensures Enabled(s, a) && Enabled(Do(s, a), b) && Runs(Do(Do(s, a), b), rest)
    ensures After(s, [a, b] + rest) == After(Do(Do(s, a), b), rest)
    ensures (NoEmptyLook(s, a) && NoLateUnlink(s, a) && NoEmptyLook(Do(s, a), b) && NoLateUnlink(Do(s, a), b) &&
             Benign(Do(Do(s, a), b), rest)) ==> Benign(s, [a, b] + rest)
  {
    assert [a, b] + rest == [a] + ([b] + rest);
    OneThen(s, a, [b] + rest);
    OneThen(Do(s, a), b, rest);
  }

  lemma {:induction false} AtomicRunsAreBenign(s: Sys, ms: seq<Atomic>)
    requires Settled(s) && Runs(s, Expand(ms)) && forall i :: 0 <= i < |ms| ==> IsAtomic(ms[i])
    ensures Benign(s, Expand(ms)) && Settled(After(s, Expand(ms)))
    decreases |ms|
  {
    if ms != [] {
      var m, rest := ms[0], Expand(ms[1..]);
      assert Expand(ms) == Actions(m) + rest;
      hide Enabled, Stale, Runs, After, Benign, Settled, Do;
      match m {
        case Acquire(t) =>
          TwoThen(s, Create(t), WritePid(t), rest);
          AcquireSettles(s, t);
          AtomicRunsAreBenign(Do(Do(s, Create(t)), WritePid(t)), ms[1..]);
        case Reap(t) =>
          TwoThen(s, SeeStale(t), Unlink(t), rest);
          ReapSettles(s, t);
          AtomicRunsAreBenign(Do(Do(s, SeeStale(t)), Unlink(t)), ms[1..]);
        case Plain(a) =>
          OneThen(s, a, rest);
          PlainSettles(s, a);
          AtomicRunsAreBenign(Do(s, a), ms[1..]);
      }
    }
  }

  lemma AcquireSettles(s: Sys, t: Thread)
    requires Settled(s) && Enabled(s, Create(t)) && Enabled(Do(s, Create(t)), WritePid(t))
    ensures Settled(Do(Do(s, Create(t)), WritePid(t)))
  {
  }

  lemma ReapSettles(s: Sys, t: Thread)
    requires Settled(s) && Enabled(s, SeeStale(t)) && Enabled(Do(s, SeeStale(t)), Unlink(t))
    ensures Settled(Do(Do(s, SeeStale(t)), Unlink(t)))
    ensures NoEmptyLook(s, SeeStale(t)) && NoLateUnlink(Do(s, SeeStale(t)), Unlink(t))
  {
  }

  lemma PlainSettles(s: Sys, a: Action)
    requires Settled(s) && Enabled(s, a) && !a.Create? && !a.WritePid? && !a.SeeStale? && !a.Unlink?
    ensures Settled(Do(s, a))
  {
  }

  /** With create-plus-write and test-plus-unlink as single steps, exclusion holds in every run. */
  lemma AtomicRunsExclude(s: Sys, ms: seq<Atomic>)
    requires Initial(s) && Runs(s, Expand(ms)) && forall i :: 0 <= i < |ms| ==> IsAtomic(ms[i])
    ensures MutualExclusion(After(s, Expand(ms)))
  {
    AtomicRunsAreBenign(s, ms);
    BenignRunsExclude(s, Expand(ms));
  }

  // ---------------------------------------------------------------------------------------------
  // Each window alone breaks exclusion
  // ---------------------------------------------------------------------------------------------

  const T1 := Thread(1, 0)
  const T2 := Thread(2, 0)

  /** The run leads from `s` to `mid`, keeping out of the chosen windows. */
  ghost predicate Leads(s: Sys, acts: seq<Action>, looks: bool, unlinks: bool, mid: Sys) {
    Runs(s, acts) && After(s, acts) == mid && Avoids(s, acts, looks, unlinks)
  }

  lemma NoActions(s: Sys, looks: bool, unlinks: bool) returns (acts: seq<Action>)
    ensures acts == [] && Leads(s, acts, looks, unlinks, s)
  {
    acts := [];
  }

  lemma {:induction false} Extend(s: Sys, acts: seq<Action>, looks: bool, unlinks: bool, mid: Sys, a: Action)
    returns (more: seq<Action>, next: Sys)
    requires Leads(s, acts, looks, unlinks, mid) && Enabled(mid, a)
    requires (looks ==> NoEmptyLook(mid, a)) && (unlinks ==> NoLateUnlink(mid, a))
    ensures next == Do(mid, a)
    ensures more == acts + [a] && Leads(s, more, looks, unlinks, next)
    decreases |acts|
  {
    hide Enabled, NoEmptyLook, NoLateUnlink, Do;
    more, next := acts + [a], Do(mid, a);
    if acts == [] {
      assert more[0] == a && more[1..] == [];
      assert Runs(next, []) && After(next, []) == next && Avoids(next, [], looks, unlinks);
      assert Runs(s, more);
    } else {
      assert more[0] == acts[0] && more[1..] == acts[1..] + [a];
      var rest, last := Extend(Do(s, acts[0]), acts[1..], looks, unlinks, mid, a);
      assert Runs(s, more);
    }
  }

  /** A newcomer finds the file stale. */
  lemma Finds(s: Sys, acts: seq<Action>, looks: bool, unlinks: bool, mid: Sys, t: Thread)
    returns (more: seq<Action>, next: Sys)
    requires Leads(s, acts, looks, unlinks, mid) && Enabled(mid, Enter(t)) && Stale(mid)
    requires looks ==> forall u <- mid.places :: mid.places[u] != Created(mid.disk.file.inode)
    ensures Leads(s, more, looks, unlinks, next)
    ensures next == mid.(guards := mid.guards[t.pid := t], places := mid.places[t := SawStale(mid.disk.file.inode)])
  {
    hide Leads;
    more, next := Extend(s, acts, looks, unlinks, mid, Enter(t));
    more, next := Extend(s, more, looks, unlinks, next, SeeStale(t));
    var seen := SawStale(mid.disk.file.inode);
    assert mid.places[t := Trying][t := seen] == mid.places[t := seen];
  }

  /** A thread that waits takes the lock over from an absent file. */
  lemma Takes(s: Sys, acts: seq<Action>, looks: bool, unlinks: bool, mid: Sys, t: Thread)
    returns (more: seq<Action>, next: Sys)
    requires Leads(s, acts, looks, unlinks, mid) && At(mid, t, Trying) && mid.disk.Absent?
    ensures Leads(s, more, looks, unlinks, next)
    ensures next == mid.(disk := Present(LockFile(mid.nextInode, Some(t.pid))), nextInode := mid.nextInode + 1,
                         places := mid.places[t := Inside(mid.nextInode)])
    ensures more == acts + [Create(t), WritePid(t)]
  {
    hide Leads;
    more, next := Extend(s, acts, looks, unlinks, mid, Create(t));
    more, next := Extend(s, more, looks, unlinks, next, WritePid(t));
    var inode := mid.nextInode;
    assert mid.places[t := Created(inode)][t := Inside(inode)] == mid.places[t := Inside(inode)];
  }

  /** A thread that saw a stale file removes what is at the path now, and takes the lock. */
  lemma Replaces(s: Sys, acts: seq<Action>, looks: bool, unlinks: bool, mid: Sys, t: Thread)
    returns (more: seq<Action>, next: Sys)
    requires Leads(s, acts, looks, unlinks, mid) && t in mid.places && mid.places[t].SawStale?
    requires unlinks && mid.disk.Present? ==> mid.disk.file.inode == mid.places[t].inode
    ensures Leads(s, more, looks, unlinks, next)
    ensures next == mid.(disk := Present(LockFile(mid.nextInode, Some(t.pid))), nextInode := mid.nextInode + 1,
                         places := mid.places[t := Inside(mid.nextInode)])
    ensures more == acts + [Unlink(t), Create(t), WritePid(t)]
  {
    hide Leads;
    more, next := Extend(s, acts, looks, unlinks, mid, Unlink(t));
    more, next := Takes(s, more, looks, unlinks, next, t);
    assert mid.places[t := Trying][t := Inside(mid.nextInode)] == mid.places[t := Inside(mid.nextInode)];
  }

  lemma Reached(s: Sys, acts: seq<Action>, looks: bool, unlinks: bool, mid: Sys)
    requires Leads(s, acts, looks, unlinks, mid)
    ensures Runs(s, acts) && After(s, acts) == mid && Avoids(s, acts, looks, unlinks)
  {
  }

  lemma BothInside(s: Sys, acts: seq<Action>, looks: bool, unlinks: bool, mid: Sys)
    requires Leads(s, acts, looks, unlinks, mid)
    requires T1 in mid.places && T2 in mid.places && mid.places[T1].Inside? && mid.places[T2].Inside?
    ensures Runs(s, acts) && !MutualExclusion(After(s, acts)) && Avoids(s, acts, looks, unlinks)
  {
  }

  /** The file exists, its PID is not yet written. */
  lemma FileIsEmpty() returns (s: Sys, acts: seq<Action>, mid: Sys)
    ensures Initial(s) && Leads(s, acts, false, true, mid)
    ensures mid == Sys(Present(LockFile(0, None)), 1, {1, 2}, map[1 := T1], map[T1 := Created(0)])
  {
    s := Sys(Absent, 0, {1, 2}, map[], map[]);
    acts := NoActions(s, false, true);
    hide Leads;
    acts, mid := Extend(s, acts, false, true, s, Enter(T1));
    acts, mid := Extend(s, acts, false, true, mid, Create(T1));
  }

  /** Between the creation of the file and the write of the PID, another process takes it for stale. */
  lemma EmptyLookBreaksExclusion() returns (s: Sys, acts: seq<Action>)
    ensures Initial(s) && Runs(s, acts) && !MutualExclusion(After(s, acts)) && Avoids(s, acts, false, true)
  {
    hide Leads, Initial;
    var mid;
    s, acts, mid := FileIsEmpty();
    acts, mid := Finds(s, acts, false, true, mid, T2);
    acts, mid := Replaces(s, acts, false, true, mid, T2);
    acts, mid := Extend(s, acts, false, true, mid, WritePid(T1));
    BothInside(s, acts, false, true, mid);
  }

  /** Between the stale test and the unlink, another process has already replaced the dead file. */
  lemma LateUnlinkBreaksExclusion() returns (s: Sys, acts: seq<Action>)
    ensures Initial(s) && Runs(s, acts) && !MutualExclusion(After(s, acts)) && Avoids(s, acts, true, false)
  {
    s := Sys(Present(LockFile(0, Some(9))), 1, {1, 2}, map[], map[]);
    var mid;
    acts := NoActions(s, true, false);
    hide Leads;
    acts, mid := Finds(s, acts, true, false, s, T1);
    acts, mid := Finds(s, acts, true, false, mid, T2);
    acts, mid := Replaces(s, acts, true, false, mid, T2);
    acts, mid := Replaces(s, acts, true, false, mid, T1);
    BothInside(s, acts, true, false, mid);
  }

  // ---------------------------------------------------------------------------------------------
  // Recovery
  // ---------------------------------------------------------------------------------------------

  /** The run moves no thread but `t`. */
  predicate Only(t: Thread, acts: seq<Action>) {
    forall i :: 0 <= i < |acts| ==> !acts[i].Crash? && !acts[i].Spawn? && acts[i].t == t
  }

  ghost predicate CanEnterAlone(s: Sys, t: Thread) {
    exists acts :: Only(t, acts) && Runs(s, acts) && t in After(s, acts).places && After(s, acts).places[t].Inside?
  }

  /** None `t` does changes a lock file that is neither stale nor its own. */
  lemma {:induction false} HeldFileStays(s: Sys, t: Thread, acts: seq<Action>)
    requires Only(t, acts) && Runs(s, acts)
    requires s.disk.Present? && !Stale(s) && (t in s.places ==> s.places[t] == Trying || s.places[t] == Releasing)
    ensures var s' := After(s, acts);
            s'.disk == s.disk && (t in s'.places ==> s'.places[t] == Trying || s'.places[t] == Releasing)
    decreases |acts|
  {
    if acts != [] {
      assert acts[0].t == t;
      assert forall i :: 0 <= i < |acts[1..]| ==> acts[1..][i] == acts[i + 1];
      HeldFileStays(Do(s, acts[0]), t, acts[1..]);
    }
  }

  /** Four steps of its own take a thread in when the file is stale, two when there is none. */
  lemma StaleFileIsTaken(s: Sys, t: Thread) returns (acts: seq<Action>)
    requires At(s, t, Trying) && (s.disk.Absent? || Stale(s))
    ensures Only(t, acts) && Runs(s, acts) && t in After(s, acts).places && After(s, acts).places[t].Inside?
  {
    var mid := s;
    acts := NoActions(s, false, false);
    hide Leads;
    if s.disk.Present? {
      acts, mid := Extend(s, acts, false, false, mid, SeeStale(t));
      acts, mid := Replaces(s, acts, false, false, mid, t);
    } else {
      acts, mid := Takes(s, acts, false, false, mid, t);
    }
    Reached(s, acts, false, false, mid);
  }

  /**
   * A waiting thread can get in by itself exactly when there is no lock file or its PID is of no live
   * process: a dead holder blocks nobody, unless its PID is in use again.
   */
  lemma CanEnterIff(s: Sys, t: Thread)
    requires At(s, t, Trying)
    ensures CanEnterAlone(s, t) <==>
              s.disk.Absent? || s.disk.file.content.None? || s.disk.file.content.value !in s.alive
  {
    if s.disk.Absent? || Stale(s) {
      var acts := StaleFileIsTaken(s, t);
    } else {
      forall acts | Only(t, acts) && Runs(s, acts)
        ensures !(t in After(s, acts).places && After(s, acts).places[t].Inside?)
      {
        HeldFileStays(s, t, acts);
      }
    }
  }

  /** A holder is killed while another process waits. */
  lemma HolderIsKilled() returns (s: Sys, acts: seq<Action>, mid: Sys)
    ensures Initial(s) && Leads(s, acts, true, true, mid)
    ensures At(mid, T2, Trying) && mid.places.Keys == {T2} && 1 !in mid.alive
    ensures mid.disk == Present(LockFile(0, Some(1)))
  {
    s := Sys(Absent, 0, {1, 2}, map[], map[]);
    acts := NoActions(s, true, true);
    hide Leads;
    acts, mid := Extend(s, acts, true, true, s, Enter(T1));
    acts, mid := Takes(s, acts, true, true, mid, T1);
    acts, mid := Extend(s, acts, true, true, mid, Enter(T2));
    acts, mid := Extend(s, acts, true, true, mid, Crash(1));
  }

  /** The exception: the dead holder's PID is given to a new process, which never took the lock. */
  lemma ReusedPidBlocks() returns (s: Sys, acts: seq<Action>)
    ensures Initial(s) && Runs(s, acts) && Benign(s, acts)
    ensures var s' := After(s, acts);
            At(s', T2, Trying) && (forall t :: !Holds(s', t)) && !CanEnterAlone(s', T2)
  {
    hide Leads, CanEnterAlone, Initial;
    var mid;
    s, acts, mid := HolderIsKilled();
    acts, mid := Extend(s, acts, true, true, mid, Spawn(1));
    CanEnterIff(mid, T2);
    Reached(s, acts, true, true, mid);
  }

  // ---------------------------------------------------------------------------------------------
  // The lock is given back
  // ---------------------------------------------------------------------------------------------

  /** Every guard is that of a thread of its process that is inside `agent_lock`. */
  ghost predicate GuardsAreUsed(s: Sys) {
    forall pid :: pid in s.guards ==> s.guards[pid].pid == pid && s.guards[pid] in s.places
  }

  lemma StepKeepsGuardsUsed(s: Sys, a: Action)
    requires GuardsKept(s) && GuardsAreUsed(s) && Enabled(s, a)
    ensures GuardsAreUsed(Do(s, a))
  {
  }

  /** In every run, crashes and windows included, a process without a thread in `agent_lock` has its guard free. */
  lemma {:induction false} UnusedGuardIsFree(s: Sys, acts: seq<Action>, pid: int)
    requires GuardsKept(s) && GuardsAreUsed(s) && Runs(s, acts)
    requires forall t :: t in After(s, acts).places ==> t.pid != pid
    ensures pid !in After(s, acts).guards
    decreases |acts|
  {
    if acts != [] {
      StepKeepsGuards(s, acts[0]);
      StepKeepsGuardsUsed(s, acts[0]);
      hide Enabled, Do, GuardsKept, GuardsAreUsed;
      UnusedGuardIsFree(Do(s, acts[0]), acts[1..], pid);
    }
  }

  ghost predicate SomeoneHolds(s: Sys) {
    exists t :: Holds(s, t)
  }

  /** A thread inside, on its way out: what `finally` does. */
  function WayOut(t: Thread): seq<Action> {
    [Leave(t), CheckOwner(t), Remove(t), Release(t)]
  }

  /**
   * From every state that a benign run reaches, a thread inside can leave by itself, and then the file is
   * gone, its guard is free, and every thread that waits can get in.
   */
  lemma LockIsGivenBack(s: Sys, acts: seq<Action>, t: Thread)
    requires Initial(s) && Runs(s, acts) && Benign(s, acts)
    requires t in After(s, acts).places && After(s, acts).places[t].Inside?
    ensures var s1 := After(s, acts);
            Runs(s1, WayOut(t)) && Benign(s1, WayOut(t)) &&
            var s2 := After(s1, WayOut(t));
            && s2.disk.Absent? && IsOut(s1.(disk := Absent), s2, t)
            && forall u :: At(s2, u, Trying) ==> CanEnterAlone(s2, u)
  {
    assert Inv(s);
    BenignRunKeepsInv(s, acts);
    var s1 := After(s, acts);
    hide After, Runs, Benign, Initial;
    HolderHasFile(s1, t);
    WayOutRuns(s1, t);
    var s2 := After(s1, WayOut(t));
    forall u | At(s2, u, Trying)
      ensures CanEnterAlone(s2, u)
    {
      CanEnterIff(s2, u);
    }
  }

  /** The four steps of an owner, one by one. */
  lemma OwnerSteps(s: Sys, t: Thread)
    requires t in s.places && s.places[t].Inside? && s.disk == FileOf(s, t) && GuardsKept(s)
    ensures var i := s.places[t].inode;
            var s1 := s.(places := s.places[t := Leaving(i)]);
            var s2 := s.(places := s.places[t := Unlinking(i)]);
            var s3 := s.(disk := Absent, places := s.places[t := Releasing]);
            && Enabled(s, Leave(t)) && Do(s, Leave(t)) == s1
            && Enabled(s1, CheckOwner(t)) && Do(s1, CheckOwner(t)) == s2
            && Enabled(s2, Remove(t)) && Do(s2, Remove(t)) == s3
            && Enabled(s3, Release(t))
            && Do(s3, Release(t)) == s.(disk := Absent, places := s.places - {t}, guards := s.guards - {t.pid})
  {
    hide GuardsKept;
    var i := s.places[t].inode;
    assert s.places[t := Leaving(i)][t := Unlinking(i)] == s.places[t := Unlinking(i)];
    assert s.places[t := Unlinking(i)][t := Releasing] == s.places[t := Releasing];
    assert s.places[t := Releasing] - {t} == s.places - {t};
  }

  lemma WayOutRuns(s: Sys, t: Thread)
    requires GuardsKept(s) && t in s.places && s.places[t].Inside? && s.disk == FileOf(s, t)
    ensures Runs(s, WayOut(t)) && Benign(s, WayOut(t))
    ensures var s' := After(s, WayOut(t));
            s'.disk.Absent? && IsOut(s.(disk := Absent), s', t)
  {
    OwnerSteps(s, t);
    var mid := s;
    var acts := NoActions(s, true, true);
    hide Leads, GuardsKept, Do, Enabled;
    acts, mid := Extend(s, acts, true, true, mid, Leave(t));
    acts, mid := Extend(s, acts, true, true, mid, CheckOwner(t));
    acts, mid := Extend(s, acts, true, true, mid, Remove(t));
    acts, mid := Extend(s, acts, true, true, mid, Release(t));
    assert acts == WayOut(t);
    Reached(s, acts, true, true, mid);
  }

  /** In any benign interleaving the owner's check finds its own file, and its unlink removes it. */
  lemma OwnerRemovesItsFile(s: Sys, acts: seq<Action>, t: Thread)
    requires Initial(s) && Runs(s, acts) && Benign(s, acts) && t in After(s, acts).places
    ensures var s1 := After(s, acts);
            && (s1.places[t].Leaving? ==>
                  Enabled(s1, CheckOwner(t)) &&
                  Do(s1, CheckOwner(t)) == s1.(places := s1.places[t := Unlinking(s1.places[t].inode)]))
            && (s1.places[t].Unlinking? ==>
                  && s1.disk == Present(LockFile(s1.places[t].inode, Some(t.pid))) && Enabled(s1, Remove(t))
                  && Do(s1, Remove(t)).disk.Absent?)
  {
    assert Inv(s);
    BenignRunKeepsInv(s, acts);
    hide After, Runs, Benign, Initial, Inv;
    var s1 := After(s, acts);
    if Holds(s1, t) {
      HolderHasFile(s1, t);
    }
  }

  lemma HolderHasFile(s: Sys, t: Thread)
    requires Inv(s) && Holds(s, t)
    ensures s.disk == FileOf(s, t)
  {
  }

  lemma TwoActions(s: Sys, a: Action, b: Action)
    requires Enabled(s, a) && Enabled(Do(s, a), b)
    ensures Runs(s, [a, b]) && After(s, [a, b]) == Do(Do(s, a), b)
  {
    hide Enabled, Do;
    assert [a, b][1..] == [b] && [b][1..] == [];
    assert Runs(Do(s, a), [b]) && After(Do(s, a), [b]) == After(Do(Do(s, a), b), []);
  }

  /**
   * In every state, after the windows too: on its way out a thread leaves a file that does not hold its PID,
   * and a thread that waits can give up; both are gone then, their guards free and the file as it was.
   */
  lemma ForeignFileIsLeft(s: Sys, t: Thread)
    requires t in s.places
    ensures s.places[t].Leaving? && !(s.disk.Present? && s.disk.file.content == Some(t.pid)) ==>
              Runs(s, [CheckOwner(t), Release(t)]) && IsOut(s, After(s, [CheckOwner(t), Release(t)]), t)
    ensures s.places[t].Trying? ==>
              Runs(s, [GiveUp(t), Release(t)]) && IsOut(s, After(s, [GiveUp(t), Release(t)]), t)
  {
    if s.places[t].Leaving? && !(s.disk.Present? && s.disk.file.content == Some(t.pid)) {
      TwoActions(s, CheckOwner(t), Release(t));
    }
    if s.places[t].Trying? {
      TwoActions(s, GiveUp(t), Release(t));
    }
  }

  /** The thread has left, and nothing else has changed. */
  predicate IsOut(s: Sys, s': Sys, t: Thread) {
    && s'.disk == s.disk && s'.alive == s.alive && t !in s'.places && t.pid !in s'.guards
    && forall u :: u in s.places && u != t ==> u in s'.places && s'.places[u] == s.places[u]
  }

  lemma StepKeepsFileHeld(s: Sys, a: Action)
    requires Inv(s) && Enabled(s, a) && NoEmptyLook(s, a) && NoLateUnlink(s, a) && !a.Crash?
    requires s.disk.Present? ==> SomeoneHolds(s)
    ensures Do(s, a).disk.Present? ==> SomeoneHolds(Do(s, a))
  {
    var s' := Do(s, a);
    if s'.disk.Present? {
      if a.Create? {
        assert Holds(s', a.t);
      } else {
        var t :| Holds(s, t);
        assert s.disk == FileOf(s, t);
        assert Holds(s', t);
      }
    }
  }

  /** Over every benign run from an absent file, as long as no process crashes: no holder, no file. */
  lemma {:induction false} NoHolderNoFile(s: Sys, acts: seq<Action>)
    requires Inv(s) && (s.disk.Present? ==> SomeoneHolds(s))
    requires Runs(s, acts) && Benign(s, acts) && forall i :: 0 <= i < |acts| ==> !acts[i].Crash?
    ensures After(s, acts).disk.Present? ==> SomeoneHolds(After(s, acts))
    decreases |acts|
  {
    if acts != [] {
      StepKeepsInv(s, acts[0]);
      StepKeepsFileHeld(s, acts[0]);
      assert forall i :: 0 <= i < |acts[1..]| ==> acts[1..][i] == acts[i + 1];
      hide Enabled, Inv, NoEmptyLook, NoLateUnlink, Do, SomeoneHolds;
      NoHolderNoFile(Do(s, acts[0]), acts[1..]);
    }
  }

  /** No process starts under the PID that is in the lock file. */
  predicate NoReuse(s: Sys, a: Action) {
    a.Spawn? && s.disk.Present? ==> s.disk.file.content != Some(a.pid)
  }

  predicate NeverReuses(s: Sys, acts: seq<Action>)
    requires Runs(s, acts)
    decreases |acts|
  {
    acts != [] ==> NoReuse(s, acts[0]) && NeverReuses(Do(s, acts[0]), acts[1..])
  }

  lemma StepKeepsHeldOrStale(s: Sys, a: Action)
    requires Inv(s) && Enabled(s, a) && NoEmptyLook(s, a) && NoLateUnlink(s, a) && NoReuse(s, a)
    requires s.disk.Present? ==> SomeoneHolds(s) || Stale(s)
    ensures Do(s, a).disk.Present? ==> SomeoneHolds(Do(s, a)) || Stale(Do(s, a))
  {
    var s' := Do(s, a);
    if s'.disk.Present? {
      if a.Create? {
        assert Holds(s', a.t);
      } else if t :| Holds(s, t) {
        assert s.disk == FileOf(s, t);
        assert Holds(s', t) || (a.Crash? && a.pid == t.pid);
      } else {
        assert a.WritePid? ==> Holds(s, a.t);
      }
    }
  }

  /**
   * With crashes at any point: as long as no new process gets the PID that is in the file, a file that nobody
   * holds is stale, so whoever waits can get in.
   */
  lemma {:induction false} NobodyBlocksForever(s: Sys, acts: seq<Action>)
    requires Inv(s) && (s.disk.Present? ==> SomeoneHolds(s) || Stale(s))
    requires Runs(s, acts) && Benign(s, acts) && NeverReuses(s, acts)
    ensures var s' := After(s, acts);
            !SomeoneHolds(s') ==> forall t :: At(s', t, Trying) ==> CanEnterAlone(s', t)
    decreases |acts|
  {
    if acts == [] {
      forall t | !SomeoneHolds(s) && At(s, t, Trying)
        ensures CanEnterAlone(s, t)
      {
        CanEnterIff(s, t);
      }
    } else {
      StepKeepsInv(s, acts[0]);
      StepKeepsHeldOrStale(s, acts[0]);
      hide Enabled, Inv, NoEmptyLook, NoLateUnlink, NoReuse, Do, SomeoneHolds, Stale, CanEnterAlone;
      NobodyBlocksForever(Do(s, acts[0]), acts[1..]);
    }
  }

  /** Both from the start: every machine on which nobody is in `agent_lock`. */
  lemma LockComesFree(s: Sys, acts: seq<Action>)
    requires Initial(s) && Runs(s, acts) && Benign(s, acts)
    ensures var s' := After(s, acts);
            && (s.disk.Absent? && (forall i :: 0 <= i < |acts| ==> !acts[i].Crash?) && !SomeoneHolds(s') ==>
                  s'.disk.Absent?)
            && ((s.disk.Absent? || Stale(s)) && NeverReuses(s, acts) && !SomeoneHolds(s') ==>
                  forall t :: At(s', t, Trying) ==> CanEnterAlone(s', t))
            && forall pid :: (forall t :: t in s'.places ==> t.pid != pid) ==> pid !in s'.guards
  {
    assert Inv(s) && GuardsAreUsed(s);
    var s' := After(s, acts);
    forall pid | forall t :: t in s'.places ==> t.pid != pid
      ensures pid !in s'.guards
    {
      UnusedGuardIsFree(s, acts, pid);
    }
    if s.disk.Absent? && forall i :: 0 <= i < |acts| ==> !acts[i].Crash? {
      NoHolderNoFile(s, acts);
    }
    if (s.disk.Absent? || Stale(s)) && NeverReuses(s, acts) {
      NobodyBlocksForever(s, acts);
    }
  }
}
