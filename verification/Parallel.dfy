/** The driver of parallel streams, from the leases to the one PR and back (memory/supervisor_parallel.py). */
module Parallel {
  import opened Wrappers
  import opened Text
  import opened Paths
  import opened Leases

  // ---------------------------------------------------------------------------------------------
  // Plans and what the outside answers
  // ---------------------------------------------------------------------------------------------

  /** A stream; worktree and branch are `None` while they are not set. */
  datatype Plan = Plan(name: string, owned: seq<string>, worktree: Option<string>, branch: Option<string>)

  datatype Status = Pending | Running | StreamReady | Blocked | Merged

  /** How the role loop of a stream ends: with a PR_READY terminal, another terminal, or an exception. */
  datatype LoopEnd = LoopReady | LoopNotReady | LoopRaises

  datatype Terminal = PrReady | PrReadyLocal | OtherTerminal

  /** Worktrees are left as they are, cannot be made, or are made with these paths and branches. */
  datatype Provision = Skipped | Impossible | Made(at: nat -> (string, string))

  /**
   * A foreign action is done, is refused in the way the driver reports, or raises something else. Of the
   * registry, `Refuses` is an unreadable file and `Throws` a lock that times out or a failing write.
   */
  datatype Answer = Works | Refuses | Throws

  /**
   * The settings and everything foreign. `claims(i)` and `releases(i)` say how the registry takes the claim
   * and the release of stream `i`, `renewals(t, i)` its renewal in tick `t`, and `written(t)` whether that
   * tick can write the state file. `others(k)` are the registry steps of other processes that come before
   * registry action `k` of this one, `looks(k)` and `now(k)` what that action sees.
   */
  datatype Env = Env(requireOwned: bool, concurrent: bool, push: bool, createPr: bool, ttl: int,
                     claims: nat -> Answer, written: nat -> bool, renewals: (nat, nat) -> Answer,
                     releases: nat -> Answer,
                     provision: Provision, loop: nat -> LoopEnd, changed: nat -> seq<string>, order: seq<nat>,
                     pushed: nat -> Answer, integration: Answer, merged: nat -> Answer, pushedAll: Answer,
                     pr: Option<Terminal>, saved: Answer,
                     others: nat -> seq<Step>, looks: nat -> Looks, now: nat -> int)

  datatype Outcome = Rejected(why: PlanError) | Raised | Stopped | Finished(terminal: Terminal)

  /** What the driver does to branches; `leases` is the registry at that moment. */
  datatype Event =
    | Run(i: nat)
    | Push(i: nat)
    | Merge(i: nat, ok: bool, leases: Table)
    | PushIntegration
    | OpenPr(leases: Table)

  datatype StreamEnd = Ready | NotReady | Raises

  /** `_run_one_stream`. */
  function EndOf(sfx: HasSuffix, env: Env, plan: Plan, i: nat): StreamEnd {
    if plan.worktree.None? then NotReady
    else
      match env.loop(i)
      case LoopRaises => Raises
      case LoopNotReady => NotReady
      case LoopReady =>
        if !env.requireOwned then Ready
        else
          match FilesOutside(sfx, env.changed(i), plan.owned)
          case Fail(_) => Raises
          case Ok(violations) => if violations == [] then Ready else NotReady
  }

  /**
   * A stream is ready exactly when it has a worktree, its loop ended ready, and, where the gate is on, each of
   * its changed paths but "" and "." is owned by it; it raises exactly when its loop does.
   */
  lemma StreamIsReadyIff(sfx: HasSuffix, env: Env, plan: Plan, i: nat)
    requires NoBlank(plan.owned)
    ensures EndOf(sfx, env, plan, i).Ready? <==>
              && plan.worktree.Some? && env.loop(i) == LoopReady
              && (env.requireOwned ==> AllOwned(sfx, env.changed(i), plan.owned))
    ensures EndOf(sfx, env, plan, i).Raises? <==> plan.worktree.Some? && env.loop(i) == LoopRaises
  {
    hide *;
    GatePassesIff(sfx, env.changed(i), plan.owned);
    EndUnfolds(sfx, env, plan, i, FilesOutside(sfx, env.changed(i), plan.owned));
  }

  lemma EndUnfolds(sfx: HasSuffix, env: Env, plan: Plan, i: nat, outside: Result<seq<string>, PathError>)
    requires outside == FilesOutside(sfx, env.changed(i), plan.owned)
    ensures EndOf(sfx, env, plan, i) ==
            if plan.worktree.None? || env.loop(i) == LoopNotReady then NotReady
            else if env.loop(i) == LoopRaises || (env.requireOwned && outside.Fail?) then Raises
            else if env.requireOwned && outside != Ok([]) then NotReady else Ready
  {
    hide FilesOutside;
  }

  predicate AllReady(sfx: HasSuffix, env: Env, plans: seq<Plan>) {
    forall i :: 0 <= i < |plans| ==> EndOf(sfx, env, plans[i], i).Ready?
  }

  function Specs(plans: seq<Plan>): (r: seq<PlanSpec>)
    ensures |r| == |plans| && forall i :: 0 <= i < |plans| ==> r[i] == PlanSpec(plans[i].name, plans[i].owned)
  {
    seq(|plans|, i requires 0 <= i < |plans| => PlanSpec(plans[i].name, plans[i].owned))
  }

  /** With the gate on, no file is changed by two streams that are both ready. */
  lemma ReadyChangesAreDisjoint(sfx: HasSuffix, env: Env, plans: seq<Plan>, i: nat, j: nat, p: nat, q: nat)
    requires Accepted(sfx, Specs(plans)) && AllReady(sfx, env, plans) && env.requireOwned
    requires i < |plans| && j < |plans| && i != j && SafeTokens(plans[i].owned) && SafeTokens(plans[j].owned)
    requires p < |env.changed(i)| && q < |env.changed(j)|
    requires RelOf(env.changed(i)[p]) != "" && RelOf(env.changed(i)[p]) != "."
    ensures RelOf(env.changed(i)[p]) != RelOf(env.changed(j)[q])
  {
    hide Accepted, SafeTokens, FilesOutside, RelOf;
    assert EndOf(sfx, env, plans[i], i).Ready? && EndOf(sfx, env, plans[j], j).Ready?;
    GatedChangesAreDisjoint(sfx, Specs(plans), i, j, env.changed(i), env.changed(j), p, q);
  }

  // ---------------------------------------------------------------------------------------------
  // Leases of this process
  // ---------------------------------------------------------------------------------------------

  /** All four looks of a step see the process `me` alive, with this start time if it can be read. */
  predicate Sees(looks: Looks, me: int, start: Option<string>) {
    SeesIn(looks.conflict, me, start) && SeesIn(looks.holder, me, start) &&
    SeesIn(looks.drop, me, start) && SeesIn(looks.stamp, me, start)
  }

  predicate SeesIn(w: World, me: int, start: Option<string>) {
    me > 0 && me in w.alive && StartTime(w, me) == start
  }

  /** The stream's lease is in the table, with these paths, and belongs to `me`. */
  predicate HasLease(t: Table, me: int, start: Option<string>, name: string, paths: seq<string>) {
    && Trim(name) in t && t[Trim(name)].Lease?
    && var r := t[Trim(name)].rec;
       r.pid == Some(me) && r.owned == paths && (start.Some? ==> r.starttime == start)
  }

  /** The streams with a lease in the name of `me`. */
  function Mine(t: Table, me: int): set<string> {
    set n | n in t && t[n].Lease? && t[n].rec.pid == Some(me)
  }

  lemma OwnIsAlive(w: World, e: Entry, me: int, start: Option<string>)
    requires e.Lease? && e.rec.pid == Some(me) && (start.Some? ==> e.rec.starttime == start) && SeesIn(w, me, start)
    ensures !OwnerGone(w, e.rec) && !Dead(w, e)
  {
  }

  /** The steps of others, and of this process for other streams, leave its lease in place. */
  lemma OwnStays(sfx: HasSuffix, t: Table, s: Step, me: int, start: Option<string>, name: string, paths: seq<string>)
    requires HasLease(t, me, start, name, paths) && Sees(s.looks, me, start)
    requires s.me != me || s.op.Renew? || Trim(s.name) != Trim(name)
    ensures HasLease(Apply(sfx, t, s).0, me, start, name, paths)
  {
    hide Text.Trim, NormPaths, ListsApart, Dead, SeesIn, OwnerGone;
    var e := t[Trim(name)];
    OwnIsAlive(s.looks.conflict, e, me, start);
    OwnIsAlive(s.looks.holder, e, me, start);
    OwnIsAlive(s.looks.drop, e, me, start);
    if s.me != me {
      LiveForeignLeaseIsKept(sfx, t, s, Trim(name));
    }
  }

  /** In the eyes of the others the lease stays as it is, to the last field. */
  lemma OthersLeaveIt(sfx: HasSuffix, t: Table, s: Step, me: int, start: Option<string>, name: string,
                      paths: seq<string>)
    requires HasLease(t, me, start, name, paths) && Sees(s.looks, me, start) && s.me != me
    ensures Trim(name) in Apply(sfx, t, s).0 && Apply(sfx, t, s).0[Trim(name)] == t[Trim(name)]
  {
    hide Text.Trim, NormPaths, Apply, Dead, SeesIn, OwnerGone;
    var e := t[Trim(name)];
    OwnIsAlive(s.looks.conflict, e, me, start);
    OwnIsAlive(s.looks.holder, e, me, start);
    OwnIsAlive(s.looks.drop, e, me, start);
    LiveForeignLeaseIsKept(sfx, t, s, Trim(name));
  }

  /** The owner's renewal goes through and moves the expiry. */
  lemma OwnIsRenewed(sfx: HasSuffix, t: Table, s: Step, start: Option<string>, paths: seq<string>)
    requires HasLease(t, s.me, start, s.name, paths) && Sees(s.looks, s.me, start) && s.op.Renew?
    requires Trim(s.name) != ""
    ensures var n := Trim(s.name);
            Apply(sfx, t, s).0 == t[n := Lease(t[n].rec.(expiresAt := s.now + s.op.ttl))]
  {
    hide Text.Trim, NormPaths, Apply, Dead, SeesIn, OwnerGone;
    OwnIsAlive(s.looks.holder, t[Trim(s.name)], s.me, start);
    RenewGoesThroughIff(sfx, t, s);
  }

  lemma GrantedIsOwn(sfx: HasSuffix, t: Table, s: Step, start: Option<string>)
    requires s.op.Claim? && Apply(sfx, t, s).1.Granted? && Sees(s.looks, s.me, start)
    ensures NormPaths(s.op.paths).Some?
    ensures HasLease(Apply(sfx, t, s).0, s.me, start, s.name, NormPaths(s.op.paths).value)
    ensures Trim(s.name) != ""
  {
    hide Text.Trim, NormPaths, ListsApart, Dead;
  }

  lemma GrantedIsNamed(sfx: HasSuffix, t: Table, s: Step)
    requires s.op.Claim? && Apply(sfx, t, s).1.Granted?
    ensures Trim(s.name) != "" && NormPaths(s.op.paths).Some?
  {
    hide Text.Trim, NormPaths, ListsApart, Dead;
  }

  lemma NotGrantedChangesNothing(sfx: HasSuffix, t: Table, s: Step)
    requires s.op.Claim? && !Apply(sfx, t, s).1.Granted?
    ensures Apply(sfx, t, s).0 == t
  {
    hide Text.Trim, NormPaths, ListsApart, Dead;
  }

  /** Nobody but `me` writes its PID, and it does so only by claiming. */
  lemma MineGrowsByClaims(sfx: HasSuffix, t: Table, s: Step, me: int)
    ensures var t' := Apply(sfx, t, s).0;
            && Mine(t', me) <= Mine(t, me) + (if s.me == me && s.op.Claim? then {Trim(s.name)} else {})
            && (s.me == me && s.op.Release? && Trim(s.name) != "" ==> Mine(t', me) <= Mine(t, me) - {Trim(s.name)})
  {
    hide Text.Trim, NormPaths, ListsApart, Dead;
  }

  /** One step of any process, on the registry itself. */
  method Perform(registry: Registry, s: Step) returns (reply: Reply)
    requires Normalised(registry.leases)
    modifies registry
    ensures (registry.leases, reply) == old(Apply(registry.sfx, registry.leases, s))
    ensures Normalised(registry.leases)
  {
    StepKeepsNormalised(registry.sfx, registry.leases, s);
    hide Apply, Normalised;
    match s.op {
      case Claim(paths, worktree, branch, ttl) =>
        reply := registry.Claim(s.me, s.name, paths, worktree, branch, ttl, s.looks, s.now);
      case Renew(ttl) => reply := registry.Renew(s.me, s.name, ttl, s.looks, s.now);
      case Release => reply := registry.Release(s.me, s.name, s.looks);
    }
  }

  // ---------------------------------------------------------------------------------------------
  // What holds along the way
  // ---------------------------------------------------------------------------------------------

  predicate ForeignSteps(steps: seq<Step>, me: int) {
    forall i :: 0 <= i < |steps| ==> steps[i].me != me
  }

  /** The other processes really are others. */
  ghost predicate OthersAreOthers(env: Env, me: int) {
    forall k :: ForeignSteps(env.others(k), me)
  }

  predicate SeenBy(steps: seq<Step>, me: int, start: Option<string>) {
    forall i :: 0 <= i < |steps| ==> Sees(steps[i].looks, me, start)
  }

  predicate DistinctStreams(plans: seq<Plan>) {
    forall i, j :: 0 <= i < j < |plans| ==> Trim(plans[i].name) != Trim(plans[j].name)
  }

  /** Every process sees `me` alive all along, and no two streams have one name in the registry. */
  ghost predicate Calm(env: Env, me: int, start: Option<string>, plans: seq<Plan>) {
    DistinctStreams(plans) && forall k :: Sees(env.looks(k), me, start) && SeenBy(env.others(k), me, start)
  }

  function Stored(plan: Plan): seq<string> {
    if NormPaths(plan.owned).Some? then NormPaths(plan.owned).value else []
  }

  /** The leases of the first `n` streams are in the table. */
  predicate Held(t: Table, me: int, start: Option<string>, plans: seq<Plan>, n: nat)
    requires n <= |plans|
  {
    forall i :: 0 <= i < n ==> HasLease(t, me, start, plans[i].name, Stored(plans[i]))
  }

  /** While leases are given back: those of the first `n` streams that could not be released are still there. */
  predicate StillHeld(env: Env, t: Table, me: int, start: Option<string>, plans: seq<Plan>, n: nat, claimed: nat)
    requires claimed <= |plans|
  {
    forall i :: 0 <= i < claimed && (i < n ==> env.releases(i) != Works) ==>
      HasLease(t, me, start, plans[i].name, Stored(plans[i]))
  }

  /** The names among the first `n` whose release failed, and those whose release went through. */
  function Left(env: Env, plans: seq<Plan>, n: nat): set<string>
    requires n <= |plans|
  {
    set i | 0 <= i < n && env.releases(i) != Works :: Trim(plans[i].name)
  }

  function GivenBack(env: Env, plans: seq<Plan>, n: nat): set<string>
    requires n <= |plans|
  {
    set i | 0 <= i < n && env.releases(i) == Works :: Trim(plans[i].name)
  }

  /**
   * With `n` of `claimed` leases through the release, the process has what it had before, the leases still
   * to be released and those whose release failed, and none of those given back.
   */
  predicate Bounded(env: Env, mine: set<string>, before: set<string>, plans: seq<Plan>, n: nat, claimed: nat)
    requires claimed <= |plans| && n <= |plans|
  {
    mine <= before + Names(plans, n, claimed) + Left(env, plans, n) && mine !! GivenBack(env, plans, n)
  }

  /** The same entries for the streams whose leases are still held. */
  predicate Untouched(env: Env, a: Table, b: Table, plans: seq<Plan>, n: nat, claimed: nat)
    requires claimed <= |plans|
  {
    forall i :: 0 <= i < claimed && (i < n ==> env.releases(i) != Works) ==>
      Trim(plans[i].name) in a && Trim(plans[i].name) in b && b[Trim(plans[i].name)] == a[Trim(plans[i].name)]
  }

  /** The leases that tick `t` renewed among the first `n` expire `ttl` after their renewal. */
  predicate Renewed(env: Env, t: nat, leases: Table, plans: seq<Plan>, n: nat, from: nat)
    requires n <= |plans|
  {
    forall i :: 0 <= i < n && env.renewals(t, i) == Works ==>
      Trim(plans[i].name) in leases && leases[Trim(plans[i].name)].Lease? &&
      leases[Trim(plans[i].name)].rec.expiresAt == env.now(from + i) + env.ttl
  }

  /** Tick `t` with `n` leases: the state file is written, and no renewal raises anything but a refusal. */
  predicate TickWorks(env: Env, t: nat, n: nat) {
    env.written(t) && forall i :: 0 <= i < n ==> env.renewals(t, i) != Throws
  }

  predicate TicksWork(env: Env, from: nat, to: nat, n: nat) {
    forall t :: from <= t < to ==> TickWorks(env, t, n)
  }

  /** Every stream ends once, in some order. */
  predicate EndsOnce(order: seq<nat>, n: nat) {
    && |order| == n && (forall i :: 0 <= i < n ==> i in order) && (forall k :: 0 <= k < n ==> order[k] < n)
  }

  /** The registry names of streams `lo` to `hi`. */
  function Names(plans: seq<Plan>, lo: nat, hi: nat): set<string>
    requires hi <= |plans|
  {
    set i | lo <= i < hi :: Trim(plans[i].name)
  }

  predicate Named(plans: seq<Plan>, n: nat)
    requires n <= |plans|
  {
    forall i :: 0 <= i < n ==> Trim(plans[i].name) != ""
  }

  /** Provisioning changes neither the names nor the paths of the streams. */
  predicate SameStreams(a: seq<Plan>, b: seq<Plan>) {
    |a| == |b| && forall i :: 0 <= i < |a| ==> a[i].name == b[i].name && a[i].owned == b[i].owned
  }

  lemma HeldStays(sfx: HasSuffix, t: Table, s: Step, me: int, start: Option<string>, plans: seq<Plan>, n: nat)
    requires n <= |plans| && Held(t, me, start, plans, n) && Sees(s.looks, me, start)
    requires s.me != me || s.op.Renew?
    ensures Held(Apply(sfx, t, s).0, me, start, plans, n)
  {
    hide Sees, HasLease, Apply;
    forall i | 0 <= i < n
      ensures HasLease(Apply(sfx, t, s).0, me, start, plans[i].name, Stored(plans[i]))
    {
      OwnStays(sfx, t, s, me, start, plans[i].name, Stored(plans[i]));
    }
  }

  lemma StillHeldStays(sfx: HasSuffix, env: Env, t: Table, s: Step, me: int, start: Option<string>, plans: seq<Plan>,
                       n: nat, claimed: nat)
    requires claimed <= |plans| && StillHeld(env, t, me, start, plans, n, claimed) && Sees(s.looks, me, start)
    requires s.me != me || s.op.Renew?
    ensures StillHeld(env, Apply(sfx, t, s).0, me, start, plans, n, claimed)
  {
    hide Sees, HasLease, Apply;
    forall i | 0 <= i < claimed && (i < n ==> env.releases(i) != Works)
      ensures HasLease(Apply(sfx, t, s).0, me, start, plans[i].name, Stored(plans[i]))
    {
      OwnStays(sfx, t, s, me, start, plans[i].name, Stored(plans[i]));
    }
  }

  lemma ForeignStepLeavesUntouched(sfx: HasSuffix, env: Env, first: Table, t: Table, s: Step, me: int,
                                   start: Option<string>, plans: seq<Plan>, n: nat, claimed: nat)
    requires claimed <= |plans| && StillHeld(env, t, me, start, plans, n, claimed) && Sees(s.looks, me, start)
    requires s.me != me && Untouched(env, first, t, plans, n, claimed)
    ensures Untouched(env, first, Apply(sfx, t, s).0, plans, n, claimed)
  {
    hide Sees, HasLease, Apply, Text.Trim;
    forall i | 0 <= i < claimed && (i < n ==> env.releases(i) != Works)
      ensures Trim(plans[i].name) in Apply(sfx, t, s).0
      ensures Trim(plans[i].name) in t && Apply(sfx, t, s).0[Trim(plans[i].name)] == t[Trim(plans[i].name)]
    {
      OthersLeaveIt(sfx, t, s, me, start, plans[i].name, Stored(plans[i]));
    }
  }

  lemma HeldIsUntouched(env: Env, t: Table, me: int, start: Option<string>, plans: seq<Plan>, n: nat, claimed: nat)
    requires claimed <= |plans| && StillHeld(env, t, me, start, plans, n, claimed)
    ensures Untouched(env, t, t, plans, n, claimed)
  {
    hide Text.Trim, Stored;
  }

  lemma UntouchedStayRenewed(env: Env, tick: nat, a: Table, b: Table, plans: seq<Plan>, claimed: nat, n: nat, from: nat)
    requires n <= claimed <= |plans| && Untouched(env, a, b, plans, 0, claimed)
    requires Renewed(env, tick, a, plans, n, from)
    ensures Renewed(env, tick, b, plans, n, from)
  {
    hide Text.Trim;
  }

  lemma RenewsOneMore(sfx: HasSuffix, env: Env, tick: nat, t: Table, s: Step, start: Option<string>, plans: seq<Plan>,
                      n: nat, claimed: nat, from: nat)
    requires n < claimed <= |plans| && Held(t, s.me, start, plans, claimed) && Sees(s.looks, s.me, start)
    requires DistinctStreams(plans) && Named(plans, claimed) && Renewed(env, tick, t, plans, n, from)
    requires s.op == Renew(env.ttl) && s.name == plans[n].name && s.now == env.now(from + n)
    ensures Renewed(env, tick, Apply(sfx, t, s).0, plans, n + 1, from)
  {
    hide Sees, Apply, Text.Trim, Stored, HasLease;
    assert HasLease(t, s.me, start, plans[n].name, Stored(plans[n]));
    OwnIsRenewed(sfx, t, s, start, Stored(plans[n]));
    assert Trim(s.name) in t && t[Trim(s.name)].Lease? by { LeaseIsThere(t, s.me, start, s.name, Stored(plans[n])); }
    RenewedMore(env, tick, t, t[Trim(s.name)].rec.(expiresAt := s.now + env.ttl), plans, n, from);
  }

  lemma LeaseIsThere(t: Table, me: int, start: Option<string>, name: string, paths: seq<string>)
    requires HasLease(t, me, start, name, paths)
    ensures Trim(name) in t && t[Trim(name)].Lease?
  {
    hide Text.Trim;
  }

  lemma RenewedMore(env: Env, tick: nat, t: Table, rec: Record, plans: seq<Plan>, n: nat, from: nat)
    requires n < |plans| && DistinctStreams(plans) && Renewed(env, tick, t, plans, n, from)
    requires rec.expiresAt == env.now(from + n) + env.ttl
    ensures Renewed(env, tick, t[Trim(plans[n].name) := Lease(rec)], plans, n + 1, from)
  {
    hide Text.Trim;
  }

  /** Releasing one stream leaves the leases of the others. */
  lemma ReleaseKeepsOthers(sfx: HasSuffix, env: Env, t: Table, s: Step, start: Option<string>, plans: seq<Plan>,
                           n: nat, claimed: nat)
    requires n < claimed <= |plans| && StillHeld(env, t, s.me, start, plans, n, claimed) && Sees(s.looks, s.me, start)
    requires DistinctStreams(plans) && s.op.Release? && s.name == plans[n].name && env.releases(n) == Works
    ensures StillHeld(env, Apply(sfx, t, s).0, s.me, start, plans, n + 1, claimed)
  {
    hide Sees, HasLease, Apply, Text.Trim;
    forall i | 0 <= i < claimed && (i < n + 1 ==> env.releases(i) != Works)
      ensures HasLease(Apply(sfx, t, s).0, s.me, start, plans[i].name, Stored(plans[i]))
    {
      OwnStays(sfx, t, s, s.me, start, plans[i].name, Stored(plans[i]));
    }
  }

  lemma ClaimHoldsOneMore(sfx: HasSuffix, t: Table, s: Step, start: Option<string>, plans: seq<Plan>, n: nat)
    requires n < |plans| && Held(t, s.me, start, plans, n) && Sees(s.looks, s.me, start) && DistinctStreams(plans)
    requires s.op.Claim? && s.name == plans[n].name && s.op.paths == plans[n].owned && Apply(sfx, t, s).1.Granted?
    ensures Held(Apply(sfx, t, s).0, s.me, start, plans, n + 1)
  {
    hide Sees, HasLease, Apply, NormPaths, Text.Trim;
    GrantedIsOwn(sfx, t, s, start);
    forall i | 0 <= i < n + 1
      ensures HasLease(Apply(sfx, t, s).0, s.me, start, plans[i].name, Stored(plans[i]))
    {
      if i < n {
        OwnStays(sfx, t, s, s.me, start, plans[i].name, Stored(plans[i]));
      }
    }
  }

  // ---------------------------------------------------------------------------------------------
  // What the log may contain
  // ---------------------------------------------------------------------------------------------

  predicate NoMerges(log: seq<Event>) {
    forall k :: 0 <= k < |log| ==> !log[k].Merge? && !log[k].OpenPr? && !log[k].PushIntegration?
  }

  /** The branch of every stream that has a worktree is among the pushes of the first `n` events. */
  predicate AllPushed(env: Env, plans: seq<Plan>, log: seq<Event>, n: nat) {
    forall i :: 0 <= i < |plans| && plans[i].branch.Some? && plans[i].worktree.Some? ==>
      env.pushed(i) == Works && exists k :: 0 <= k < n && k < |log| && log[k] == Push(i)
  }

  /** What must come before event `k`. */
  predicate InOrderAt(env: Env, plans: seq<Plan>, log: seq<Event>, k: nat)
    requires k < |log|
  {
    && (env.push && (log[k].Merge? || log[k].PushIntegration? || log[k].OpenPr?) ==> AllPushed(env, plans, log, k))
    && (env.push && log[k].OpenPr? ==> env.pushedAll == Works && k > 0 && log[k - 1] == PushIntegration)
    && (log[k].PushIntegration? ==> forall i :: 0 <= i < |plans| && plans[i].branch.Some? ==> MergedBefore(log, k, i))
    && (!env.push ==> !log[k].Push? && !log[k].PushIntegration?)
  }

  /**
   * When pushing is asked for, all branches are pushed before the first merge, and the integration branch
   * after the last merge and before the PR; when it is not, nothing is pushed.
   */
  predicate PushesFirst(env: Env, plans: seq<Plan>, log: seq<Event>) {
    forall k :: 0 <= k < |log| ==> InOrderAt(env, plans, log, k)
  }

  /** Before the pushes there are only runs. */
  predicate OnlyRuns(log: seq<Event>) {
    forall k :: 0 <= k < |log| ==> log[k].Run?
  }

  /** A successful merge of stream `i` is among the first `n` events. */
  predicate MergedBefore(log: seq<Event>, n: int, i: nat) {
    exists k :: 0 <= k < n && k < |log| && log[k].Merge? && log[k].i == i && log[k].ok
  }

  /** The streams with a branch among the first `n` are merged. */
  predicate AllMerged(log: seq<Event>, plans: seq<Plan>, n: nat)
    requires n <= |plans|
  {
    forall i :: 0 <= i < n && plans[i].branch.Some? ==> MergedBefore(log, |log|, i)
  }

  /** Merges are of streams of the list, and come when every stream is ready. */
  predicate MergesAreReady(sfx: HasSuffix, env: Env, plans: seq<Plan>, log: seq<Event>) {
    forall k :: 0 <= k < |log| && log[k].Merge? ==> log[k].i < |plans| && AllReady(sfx, env, plans)
  }

  /** A PR comes after a merge of every stream with a branch, and nothing comes after it. */
  predicate PrIsLast(plans: seq<Plan>, log: seq<Event>) {
    forall k :: 0 <= k < |log| && log[k].OpenPr? ==>
      k == |log| - 1 && forall i :: 0 <= i < |plans| && plans[i].branch.Some? ==> MergedBefore(log, k, i)
  }

  /** At every merge and at the PR the leases of all streams are in the table. */
  predicate LeasedAll(me: int, start: Option<string>, plans: seq<Plan>, log: seq<Event>) {
    forall k :: 0 <= k < |log| ==>
      (log[k].Merge? ==> Held(log[k].leases, me, start, plans, |plans|)) &&
      (log[k].OpenPr? ==> Held(log[k].leases, me, start, plans, |plans|))
  }

  /** Each stream gets its worktree, and a branch unless it has one. */
  function Provisioned(plans: seq<Plan>, at: nat -> (string, string)): (r: seq<Plan>)
    ensures SameStreams(r, plans) && forall i :: 0 <= i < |r| ==> r[i].worktree.Some? && r[i].branch.Some?
  {
    seq(|plans|, i requires 0 <= i < |plans| =>
      plans[i].(worktree := Some(at(i).0), branch := if plans[i].branch.Some? then plans[i].branch else Some(at(i).1)))
  }

  predicate NoPrs(log: seq<Event>) {
    forall k :: 0 <= k < |log| ==> !log[k].OpenPr?
  }

  predicate PushesWork(env: Env, plans: seq<Plan>) {
    forall i :: 0 <= i < |plans| && plans[i].branch.Some? && plans[i].worktree.Some? ==> env.pushed(i) == Works
  }

  predicate MergesWork(env: Env, plans: seq<Plan>) {
    forall i :: 0 <= i < |plans| && plans[i].branch.Some? ==> env.merged(i) == Works
  }

  /** Nothing after the runs goes wrong. */
  predicate IntegrationWorks(env: Env, plans: seq<Plan>) {
    && (env.push ==> PushesWork(env, plans))
    && env.integration == Works && MergesWork(env, plans) && ConclusionWorks(env)
  }

  predicate ConclusionWorks(env: Env) {
    (env.push ==> env.pushedAll == Works) && (env.createPr ==> env.pr.Some?) && env.saved == Works
  }

  predicate Opened(log: seq<Event>) {
    log != [] && log[|log| - 1].OpenPr?
  }

  /** The log while merging, with the first `n` streams done. */
  ghost predicate MergePhase(sfx: HasSuffix, env: Env, me: int, start: Option<string>, plans: seq<Plan>,
                             log: seq<Event>, n: nat)
  {
    && n <= |plans| && NoPrs(log) && AllMerged(log, plans, n) && MergesAreReady(sfx, env, plans, log)
    && (Calm(env, me, start, plans) ==> LeasedAll(me, start, plans, log))
  }

  lemma NoWorktreeNotReady(sfx: HasSuffix, env: Env, plans: seq<Plan>)
    requires exists i :: 0 <= i < |plans| && plans[i].worktree.None?
    ensures !AllReady(sfx, env, plans)
  {
    var i :| 0 <= i < |plans| && plans[i].worktree.None?;
    assert !EndOf(sfx, env, plans[i], i).Ready?;
  }

  lemma PushLogged(log: seq<Event>, e: Event)
    requires NoMerges(log) && !e.Merge? && !e.OpenPr? && !e.PushIntegration?
    ensures NoMerges(log + [e])
  {
  }

  lemma PushedStays(env: Env, plans: seq<Plan>, log: seq<Event>, n: nat, e: Event)
    requires n <= |log|
    ensures AllPushed(env, plans, log, n) ==>
              AllPushed(env, plans, log + [e], n) && AllPushed(env, plans, log + [e], n + 1)
  {
    var more := log + [e];
    if AllPushed(env, plans, log, n) {
      forall i | 0 <= i < |plans| && plans[i].branch.Some? && plans[i].worktree.Some?
        ensures exists k :: 0 <= k < n && k < |more| && more[k] == Push(i)
      {
        var k :| 0 <= k < n && k < |log| && log[k] == Push(i);
        assert more[k] == Push(i);
      }
    }
  }

  lemma MergedStays(log: seq<Event>, n: nat, i: nat, e: Event)
    requires n <= |log| && MergedBefore(log, n, i)
    ensures MergedBefore(log + [e], n, i)
  {
    var k :| 0 <= k < n && k < |log| && log[k].Merge? && log[k].i == i && log[k].ok;
    assert (log + [e])[k] == log[k];
  }

  /** An event at the end of the log, with what must have come before it. */
  lemma OneMoreInOrder(env: Env, plans: seq<Plan>, log: seq<Event>, e: Event)
    requires PushesFirst(env, plans, log)
    requires env.push && (e.Merge? || e.PushIntegration? || e.OpenPr?) ==> AllPushed(env, plans, log, |log|)
    requires env.push && e.OpenPr? ==> env.pushedAll == Works && log != [] && log[|log| - 1] == PushIntegration
    requires e.PushIntegration? ==> AllMerged(log, plans, |plans|)
    requires !env.push ==> !e.Push? && !e.PushIntegration?
    ensures PushesFirst(env, plans, log + [e])
  {
    var more := log + [e];
    hide AllPushed, MergedBefore;
    forall k | 0 <= k < |more|
      ensures InOrderAt(env, plans, more, k)
    {
      PushedStays(env, plans, log, k, e);
      assert k < |log| ==> InOrderAt(env, plans, log, k) && more[k] == log[k];
      assert 0 < k ==> more[k - 1] == log[k - 1];
      forall i | more[k].PushIntegration? && 0 <= i < |plans| && plans[i].branch.Some?
        ensures MergedBefore(more, k, i)
      {
        MergedStays(log, k, i, e);
      }
    }
  }

  /** A log of runs, and of pushes where they are asked for, is in order. */
  lemma NoMergesInOrder(env: Env, plans: seq<Plan>, log: seq<Event>)
    requires NoMerges(log) && (!env.push ==> OnlyRuns(log))
    ensures PushesFirst(env, plans, log)
  {
    hide AllPushed, MergedBefore;
  }

  lemma NothingMerged(sfx: HasSuffix, env: Env, me: int, start: Option<string>, plans: seq<Plan>, log: seq<Event>)
    requires NoMerges(log)
    ensures MergePhase(sfx, env, me, start, plans, log, 0)
  {
    hide Calm, Held, AllReady;
  }

  lemma MergeLogged(sfx: HasSuffix, env: Env, me: int, start: Option<string>, plans: seq<Plan>, log: seq<Event>,
                    i: nat, ok: bool, leases: Table)
    requires i < |plans| && MergePhase(sfx, env, me, start, plans, log, i) && AllReady(sfx, env, plans)
    requires Calm(env, me, start, plans) ==> Held(leases, me, start, plans, |plans|)
    ensures var more := log + [Merge(i, ok, leases)];
            && MergePhase(sfx, env, me, start, plans, more, i)
            && (ok ==> MergePhase(sfx, env, me, start, plans, more, i + 1))
  {
    hide Calm, Held, AllReady;
    var more := log + [Merge(i, ok, leases)];
    forall j | 0 <= j < i && plans[j].branch.Some?
      ensures MergedBefore(more, |more|, j)
    {
      assert MergedBefore(log, |log|, j);
      var k :| 0 <= k < |log| && log[k].Merge? && log[k].i == j && log[k].ok;
      assert more[k] == log[k];
    }
    assert more[|log|] == Merge(i, ok, leases);
  }

  lemma NoBranchNoMerge(sfx: HasSuffix, env: Env, me: int, start: Option<string>, plans: seq<Plan>, log: seq<Event>,
                        i: nat)
    requires i < |plans| && MergePhase(sfx, env, me, start, plans, log, i) && plans[i].branch.None?
    ensures MergePhase(sfx, env, me, start, plans, log, i + 1)
  {
  }

  /** A push or a PR at the end of the log changes nothing about the merges before it. */
  lemma LogOther(sfx: HasSuffix, env: Env, me: int, start: Option<string>, plans: seq<Plan>, log: seq<Event>, e: Event)
    requires !e.Merge? && MergePhase(sfx, env, me, start, plans, log, |plans|)
    requires e.OpenPr? && Calm(env, me, start, plans) ==> Held(e.leases, me, start, plans, |plans|)
    ensures LogSafe(sfx, env, me, start, plans, log + [e]) && AllMerged(log + [e], plans, |plans|)
    ensures !e.OpenPr? ==> MergePhase(sfx, env, me, start, plans, log + [e], |plans|)
  {
    hide AllReady, Held, Calm;
    var more := log + [e];
    forall i | 0 <= i < |plans| && plans[i].branch.Some?
      ensures MergedBefore(more, |log|, i) && MergedBefore(more, |more|, i)
    {
      assert MergedBefore(log, |log|, i);
      var k :| 0 <= k < |log| && log[k].Merge? && log[k].i == i && log[k].ok;
      assert more[k] == log[k];
    }
  }

  lemma PhaseIsSafe(sfx: HasSuffix, env: Env, me: int, start: Option<string>, plans: seq<Plan>, log: seq<Event>, n: nat)
    requires MergePhase(sfx, env, me, start, plans, log, n)
    ensures LogSafe(sfx, env, me, start, plans, log)
    ensures n == |plans| ==> AllMerged(log, plans, |plans|) && !Opened(log)
  {
  }

  /** What holds of the log of a whole run. */
  ghost predicate LogSafe(sfx: HasSuffix, env: Env, me: int, start: Option<string>, plans: seq<Plan>, log: seq<Event>) {
    && MergesAreReady(sfx, env, plans, log) && PrIsLast(plans, log)
    && (Calm(env, me, start, plans) ==> LeasedAll(me, start, plans, log))
  }

  lemma SameStreamsSameLeases(env: Env, t: Table, me: int, start: Option<string>, a: seq<Plan>, b: seq<Plan>, n: nat)
    requires SameStreams(a, b) && n <= |a|
    ensures Named(a, n) ==> Named(b, n)
    ensures Calm(env, me, start, b) ==> Calm(env, me, start, a)
    ensures Held(t, me, start, a, n) ==> Held(t, me, start, b, n)
  {
    hide HasLease, NormPaths, Sees, SeenBy, Text.Trim;
  }

  class Hub {
    const registry: Registry
    const me: int
    const env: Env
    ghost const start: Option<string>
    var plans: seq<Plan>
    var status: seq<Status>
    var claimed: nat
    var log: seq<Event>
    var actions: nat
    var ticks: nat
    ghost var before: set<string>

    constructor (registry: Registry, me: int, ghost start: Option<string>, env: Env, plans: seq<Plan>)
      ensures this.registry == registry && this.me == me && this.start == start && this.env == env
      ensures this.plans == plans && |status| == |plans| && claimed == 0 && log == [] && ticks == 0
    {
      this.registry, this.me, this.start, this.env, this.plans := registry, me, start, env, plans;
      status := seq(|plans|, i => Pending);
      claimed, log, actions, ticks, before := 0, [], 0, 0, {};
    }

    /**
     * The registry is in order; this process has added to what it had before no leases but the claimed
     * ones, and in calm times all of these are there.
     */
    ghost predicate Valid()
      reads this, registry
    {
      && InOrder(0) && claimed <= |plans|
      && (Calm(env, me, start, plans) ==> Held(registry.leases, me, start, plans, claimed))
    }

    /** The part of this that still holds when `n` of the leases have been through the release. */
    ghost predicate InOrder(n: nat)
      reads this, registry
    {
      && |status| == |plans| && n <= claimed <= |plans| && Named(plans, claimed)
      && Normalised(registry.leases) && OthersAreOthers(env, me)
      && Bounded(env, Mine(registry.leases, me), before, plans, n, claimed)
    }

    /** With `n` of the leases through the release, those whose release failed are still there in calm times. */
    ghost predicate Releasing(n: nat)
      reads this, registry
    {
      && InOrder(n)
      && (Calm(env, me, start, plans) ==> StillHeld(env, registry.leases, me, start, plans, n, claimed))
    }

    /** The other processes take their turn. */
    method Others(n: nat)
      requires Releasing(n)
      modifies registry
      ensures Releasing(n)
      ensures Calm(env, me, start, plans) ==> Untouched(env, old(registry.leases), registry.leases, plans, n, claimed)
    {
      hide Sees, StillHeld, Apply, Normalised, Mine, Bounded, Named, Untouched;
      var steps := env.others(actions);
      ghost var first := registry.leases;
      assert ForeignSteps(steps, me);
      if Calm(env, me, start, plans) {
        HeldIsUntouched(env, first, me, start, plans, n, claimed);
      }
      for i := 0 to |steps|
        invariant Releasing(n)
        invariant Calm(env, me, start, plans) ==> Untouched(env, first, registry.leases, plans, n, claimed)
      {
        ghost var t := registry.leases;
        var reply := Perform(registry, steps[i]);
        MineGrowsByClaims(registry.sfx, t, steps[i], me);
        FewerStayBounded(env, Mine(t, me), Mine(registry.leases, me), before, plans, n, claimed);
        if Calm(env, me, start, plans) {
          assert SeenBy(env.others(actions), me, start);
          StillHeldStays(registry.sfx, env, t, steps[i], me, start, plans, n, claimed);
          ForeignStepLeavesUntouched(registry.sfx, env, first, t, steps[i], me, start, plans, n, claimed);
        }
      }
    }

    /** The other processes take their turn while all claimed leases are held. */
    method OthersWhileHeld()
      requires Valid()
      modifies registry
      ensures Valid()
      ensures Calm(env, me, start, plans) ==> Untouched(env, old(registry.leases), registry.leases, plans, 0, claimed)
    {
      HeldIsStillHeld(env, registry.leases, me, start, plans, claimed);
      hide Held, StillHeld, Normalised, Mine, Bounded, Named, Calm, Untouched;
      Others(0);
      HeldIsStillHeld(env, registry.leases, me, start, plans, claimed);
    }

    /** Claims stream after stream; stops at the first that is refused or raises. */
    method ClaimAll() returns (end: Answer)
      requires Valid() && claimed == 0
      modifies this`claimed, this`actions, registry
      ensures Valid() && (end == Works <==> claimed == |plans|)
      ensures end == Throws ==> env.claims(claimed) == Throws
      ensures claimed < |plans| && env.claims(claimed) != Works ==> end == env.claims(claimed)
    {
      hide Sees, Held, Apply, Normalised, Mine, Text.Trim, Bounded, DistinctStreams, NormPaths;
      while claimed < |plans|
        invariant Valid()
        decreases |plans| - claimed
      {
        OthersWhileHeld();
        var plan, looks, now := plans[claimed], env.looks(actions), env.now(actions);
        actions := actions + 1;
        if env.claims(claimed) != Works {
          return env.claims(claimed);
        }
        ghost var t := registry.leases;
        var s := Step(me, plan.name, Claim(plan.owned, plan.worktree, plan.branch, env.ttl), looks, now);
        var reply := Perform(registry, s);
        if !reply.Granted? {
          NotGrantedChangesNothing(registry.sfx, t, s);
          return Refuses;
        }
        GrantedIsNamed(registry.sfx, t, s);
        MineGrowsByClaims(registry.sfx, t, s, me);
        ClaimStaysBounded(env, Mine(t, me), Mine(registry.leases, me), before, plans, claimed);
        if Calm(env, me, start, plans) {
          assert Sees(looks, me, start);
          ClaimHoldsOneMore(registry.sfx, t, s, start, plans, claimed);
        }
        claimed := claimed + 1;
      }
      return Works;
    }

    /** Writes the state and renews the leases held so far; a refusal is only logged, anything else is not caught. */
    method Tick() returns (ok: bool)
      requires Valid()
      modifies this`actions, this`ticks, registry
      ensures Valid() && ticks == old(ticks) + 1 && (ok <==> TickWorks(env, old(ticks), claimed))
      ensures ok ==> actions == old(actions) + claimed
      ensures ok && Calm(env, me, start, plans) ==>
                Renewed(env, old(ticks), registry.leases, plans, claimed, old(actions))
    {
      hide Sees, Held, Apply, Normalised, Mine, Text.Trim, Bounded, Renewed, Untouched, Named, DistinctStreams,
           OthersAreOthers;
      ghost var t0, a0 := ticks, actions;
      assert Renewed(env, t0, registry.leases, plans, 0, a0) by { NothingRenewed(env, t0, registry.leases, plans, a0); }
      var t := ticks;
      ticks := ticks + 1;
      if !env.written(t) {
        return false;
      }
      for i := 0 to claimed
        invariant Valid() && t == t0 && ticks == t + 1 && actions == a0 + i
        invariant forall j :: 0 <= j < i ==> env.renewals(t, j) != Throws
        invariant Calm(env, me, start, plans) ==> Renewed(env, t, registry.leases, plans, i, a0)
      {
        ghost var earlier := registry.leases;
        OthersWhileHeld();
        if Calm(env, me, start, plans) {
          UntouchedStayRenewed(env, t, earlier, registry.leases, plans, claimed, i, a0);
        }
        var looks, now := env.looks(actions), env.now(actions);
        actions := actions + 1;
        if env.renewals(t, i) == Throws {
          return false;
        }
        if env.renewals(t, i) == Works {
          ghost var table := registry.leases;
          var s := Step(me, plans[i].name, Renew(env.ttl), looks, now);
          if Calm(env, me, start, plans) {
            assert Sees(s.looks, me, start);
            HeldStays(registry.sfx, table, s, me, start, plans, claimed);
            RenewsOneMore(registry.sfx, env, t, table, s, start, plans, i, claimed, a0);
          }
          var reply := Perform(registry, s);
          MineGrowsByClaims(registry.sfx, table, s, me);
          FewerStayBounded(env, Mine(table, me), Mine(registry.leases, me), before, plans, 0, claimed);
        } else if Calm(env, me, start, plans) {
          SkipsOne(env, t, registry.leases, plans, i, a0);
        }
      }
      return true;
    }

    /** `_fail_blocked`: one more tick, and the run is over; the tick itself can raise. */
    method FailBlocked() returns (out: Outcome)
      requires Valid()
      modifies this`actions, this`ticks, registry
      ensures Valid() && out == if TickWorks(env, old(ticks), claimed) then Stopped else Raised
    {
      var ok := Tick();
      return if ok then Stopped else Raised;
    }

    /** Worktrees and branches; `false` when git cannot make one. */
    method ProvisionAll() returns (ok: bool)
      requires Valid()
      modifies this`plans
      ensures Valid() && SameStreams(plans, old(plans)) && (ok <==> !env.provision.Impossible?)
    {
      hide Held, Normalised, Named, Mine, Bounded, Calm;
      match env.provision {
        case Skipped => ok := true;
        case Impossible => ok := false;
        case Made(at) =>
          var made := Provisioned(plans, at);
          SameStreamsSameLeases(env, registry.leases, me, start, plans, made, claimed);
          SameBounds(env, Mine(registry.leases, me), before, plans, made, claimed);
          plans := made;
          ok := true;
      }
    }

    /** One stream: run its loop, then the owned-paths gate. */
    method RunOne(i: nat) returns (end: StreamEnd)
      requires Valid() && i < |plans|
      modifies this`status, this`log
      ensures Valid() && log == old(log) + [Run(i)]
      ensures end == EndOf(registry.sfx, env, plans[i], i)
      ensures status == old(status)[i := if end.Ready? then StreamReady else if end.Raises? then Running else Blocked]
      ensures (old(NoMerges(log)) ==> NoMerges(log)) && (old(OnlyRuns(log)) ==> OnlyRuns(log))
    {
      hide Held, Normalised, Named, Mine, Bounded, FilesOutside;
      log := log + [Run(i)];
      var plan := plans[i];
      status := status[i := Blocked];
      if plan.worktree.None? {
        return NotReady;
      }
      status := status[i := Running];
      if env.loop(i).LoopRaises? {
        return Raises;
      }
      if env.loop(i).LoopNotReady? {
        status := status[i := Blocked];
        return NotReady;
      }
      if env.requireOwned {
        var outside := FilesOutsideOwned(registry.sfx, env.changed(i), plan.owned);
        if outside.Fail? {
          return Raises;
        }
        if outside.value != [] {
          status := status[i := Blocked];
          return NotReady;
        }
      }
      status := status[i := StreamReady];
      return Ready;
    }

    /** One stream after the other; the first that is not ready ends it. */
    method RunSerial() returns (stop: Option<Outcome>)
      requires Valid() && NoMerges(log) && claimed == |plans|
      modifies this`status, this`log, this`actions, this`ticks, registry
      ensures Valid() && NoMerges(log) && (stop.None? ==> ticks == old(ticks) + |plans|)
      ensures old(OnlyRuns(log)) ==> OnlyRuns(log)
      ensures stop.None? <==> AllReady(registry.sfx, env, plans) &&
                              TicksWork(env, old(ticks), old(ticks) + |plans|, |plans|)
      ensures stop.Some? ==> stop.value.Raised? || stop.value.Stopped?
      ensures stop.None? ==> forall i :: 0 <= i < |plans| ==> status[i] == StreamReady
    {
      hide Held, Normalised, Named, Mine, Bounded, EndOf, TickWorks, NoMerges, OnlyRuns, Renewed, OthersAreOthers,
           Calm;
      ghost var t0 := ticks;
      for i := 0 to |plans|
        invariant old(OnlyRuns(log)) ==> OnlyRuns(log)
        invariant Valid() && NoMerges(log) && ticks == t0 + i && TicksWork(env, t0, ticks, |plans|)
        invariant forall j :: 0 <= j < i ==> EndOf(registry.sfx, env, plans[j], j).Ready? && status[j] == StreamReady
      {
        var end := RunOne(i);
        if end.Raises? {
          return Some(Raised);
        }
        var ok := Tick();
        if !ok {
          return Some(Raised);
        }
        if end.NotReady? {
          return Some(Stopped);
        }
      }
      return None;
    }

    /**
     * All streams at once, taken in the order in which they end. A tick that raises ends the collecting,
     * not the streams.
     */
    method RunConcurrent() returns (stop: Option<Outcome>)
      requires Valid() && NoMerges(log) && claimed == |plans| && EndsOnce(env.order, |plans|)
      modifies this`status, this`log, this`actions, this`ticks, registry
      ensures Valid() && NoMerges(log) && (stop.None? ==> ticks == old(ticks) + |plans|)
      ensures old(OnlyRuns(log)) ==> OnlyRuns(log)
      ensures stop.None? <==> AllReady(registry.sfx, env, plans) &&
                              TicksWork(env, old(ticks), old(ticks) + |plans|, |plans|)
      ensures stop.Some? ==> stop.value.Raised? || stop.value.Stopped?
      ensures stop.None? ==> forall i :: 0 <= i < |plans| ==> status[i] == StreamReady
    {
      hide Held, Normalised, Named, Mine, Bounded, EndOf, TickWorks, NoMerges, OnlyRuns, Renewed, OthersAreOthers,
           Calm;
      ghost var t0 := ticks;
      var order, raised := env.order, false;
      for k := 0 to |order|
        invariant Valid() && NoMerges(log)
        invariant old(OnlyRuns(log)) ==> OnlyRuns(log)
        invariant !raised ==> ticks == t0 + k && TicksWork(env, t0, ticks, |plans|)
        invariant raised ==> !TicksWork(env, t0, t0 + |plans|, |plans|)
        invariant forall j :: 0 <= j < k ==>
                    (status[order[j]] == StreamReady <==> EndOf(registry.sfx, env, plans[order[j]], order[j]).Ready?)
      {
        var end := RunOne(order[k]);
        if end.Raises? {
          status := status[order[k] := Blocked];
        }
        if !raised {
          var ok := Tick();
          raised := !ok;
        }
      }
      if raised {
        return Some(Raised);
      }
      forall i | 0 <= i < |plans|
        ensures status[i] == StreamReady <==> EndOf(registry.sfx, env, plans[i], i).Ready?
      {
        assert i in order;
      }
      if forall i :: 0 <= i < |plans| ==> status[i] == StreamReady {
        return None;
      }
      return Some(Stopped);
    }

    method PushAll() returns (end: Answer)
      requires Valid() && NoMerges(log)
      modifies this`status, this`log
      ensures Valid() && NoMerges(log) && (end == Works <==> PushesWork(env, plans))
      ensures end == Works ==> status == old(status) && AllPushed(env, plans, log, |log|)
    {
      hide Held, Normalised, Named, Mine, Bounded, NoMerges, Calm, OthersAreOthers;
      for i := 0 to |plans|
        invariant Valid() && NoMerges(log) && status == old(status)
        invariant forall j :: 0 <= j < i && plans[j].branch.Some? && plans[j].worktree.Some? ==>
                    env.pushed(j) == Works && Push(j) in log
      {
        if plans[i].branch.Some? && plans[i].worktree.Some? {
          PushLogged(log, Push(i));
          log := log + [Push(i)];
          if env.pushed(i) != Works {
            status := if env.pushed(i) == Refuses then status[i := Blocked] else status;
            return env.pushed(i);
          }
        }
      }
      return Works;
    }

    /** Merges stream after stream into the integration branch; stops at the first conflict. */
    method MergeAll() returns (end: Answer)
      requires Valid() && NoMerges(log) && claimed == |plans| && AllReady(registry.sfx, env, plans)
      requires if env.push then AllPushed(env, plans, log, |log|) else OnlyRuns(log)
      modifies this`status, this`log, registry
      ensures Valid() && (end == Works <==> MergesWork(env, plans))
      ensures end == Works ==> MergePhase(registry.sfx, env, me, start, plans, log, |plans|)
      ensures LogSafe(registry.sfx, env, me, start, plans, log) && PushesFirst(env, plans, log)
      ensures env.push ==> AllPushed(env, plans, log, |log|)
      ensures end == Works ==> forall i :: 0 <= i < |plans| ==>
                status[i] == if plans[i].branch.Some? then Merged else old(status[i])
    {
      hide Held, Normalised, Named, Mine, Bounded, AllReady, Calm, MergePhase, LogSafe, AllPushed, PushesFirst,
           OthersAreOthers, NoMerges, Untouched;
      NoMergesInOrder(env, plans, log);
      NothingMerged(registry.sfx, env, me, start, plans, log);
      for i := 0 to |plans|
        invariant Valid() && MergePhase(registry.sfx, env, me, start, plans, log, i)
        invariant PushesFirst(env, plans, log) && (env.push ==> AllPushed(env, plans, log, |log|))
        invariant forall j :: 0 <= j < i && plans[j].branch.Some? ==> env.merged(j) == Works
        invariant forall j :: 0 <= j < |plans| ==>
                    status[j] == if j < i && plans[j].branch.Some? then Merged else old(status[j])
      {
        if plans[i].branch.None? {
          NoBranchNoMerge(registry.sfx, env, me, start, plans, log, i);
        } else {
          OthersWhileHeld();
          var ok := env.merged(i) == Works;
          MergeLogged(registry.sfx, env, me, start, plans, log, i, ok, registry.leases);
          OneMoreInOrder(env, plans, log, Merge(i, ok, registry.leases));
          PushedStays(env, plans, log, |log|, Merge(i, ok, registry.leases));
          log := log + [Merge(i, ok, registry.leases)];
          if !ok {
            status := if env.merged(i) == Refuses then status[i := Blocked] else status;
            PhaseIsSafe(registry.sfx, env, me, start, plans, log, i);
            return env.merged(i);
          }
          status := status[i := Merged];
        }
      }
      PhaseIsSafe(registry.sfx, env, me, start, plans, log, |plans|);
      return Works;
    }

    lemma NothingReleasedYet()
      requires Valid()
      ensures Releasing(0)
    {
      hide Held, StillHeld, Normalised, Mine, Bounded, Named, Calm;
      HeldIsStillHeld(env, registry.leases, me, start, plans, claimed);
    }

    /** The release of stream `i`. */
    method ReleaseOne(i: nat)
      requires Releasing(i) && i < claimed
      modifies this`actions, registry
      ensures Releasing(i + 1)
    {
      hide Sees, Held, StillHeld, Apply, Normalised, Mine, Text.Trim, Bounded, DistinctStreams;
      Others(i);
      var looks, now := env.looks(actions), env.now(actions);
      actions := actions + 1;
      ghost var t := registry.leases;
      if env.releases(i) != Works {
        FailedReleaseStaysBounded(env, Mine(t, me), before, plans, i, claimed);
        FailedReleaseStillHeld(env, t, me, start, plans, i, claimed);
        return;
      }
      var s := Step(me, plans[i].name, Release, looks, now);
      var reply := Perform(registry, s);
      MineGrowsByClaims(registry.sfx, t, s, me);
      ReleaseStaysBounded(env, Mine(t, me), Mine(registry.leases, me), before, plans, i, claimed);
      if Calm(env, me, start, plans) {
        assert Sees(looks, me, start);
        ReleaseKeepsOthers(registry.sfx, env, t, s, start, plans, i, claimed);
      }
    }

    /** The `finally` block: tries to release every claimed lease; one that raises is logged and stays. */
    method ReleaseAll()
      requires Valid()
      modifies this`actions, registry
      ensures Releasing(claimed)
    {
      hide Valid, InOrder, Releasing;
      NothingReleasedYet();
      for i := 0 to claimed
        invariant Releasing(i)
      {
        ReleaseOne(i);
      }
    }

    /** The claims, the worktrees and the runs; `None` when every stream is ready. */
    method Prepare() returns (stop: Option<Outcome>)
      requires Valid() && claimed == 0 && log == [] && ticks == 0
      requires env.concurrent ==> EndsOnce(env.order, |plans|)
      modifies this`plans, this`status, this`claimed, this`log, this`actions, this`ticks, registry
      ensures Valid() && SameStreams(plans, old(plans)) && NoMerges(log) && OnlyRuns(log)
      ensures stop.None? ==> forall i :: 0 <= i < |plans| ==> status[i] == StreamReady
      ensures stop.None? <==> claimed == |plans| && !env.provision.Impossible? && AllReady(registry.sfx, env, plans) &&
                              TicksWork(env, 0, |plans| + 1, |plans|)
      ensures stop.None? ==> ticks == |plans| + 1
      ensures stop.Some? ==> stop.value.Raised? || stop.value.Stopped?
    {
      hide Held, Normalised, Named, Mine, Bounded, AllReady, EndOf, Calm, TickWorks;
      var end := ClaimAll();
      if end == Throws {
        return Some(Raised);
      }
      if end == Refuses {
        var out := FailBlocked();
        return Some(out);
      }
      var made := ProvisionAll();
      if !made {
        return Some(Raised);
      }
      if exists i :: 0 <= i < |plans| && plans[i].worktree.None? {
        NoWorktreeNotReady(registry.sfx, env, plans);
        var out := FailBlocked();
        return Some(out);
      }
      status := seq(|plans|, i => Running);
      var ok := Tick();
      if !ok {
        assert !TickWorks(env, 0, |plans|);
        return Some(Raised);
      }
      if env.concurrent {
        stop := RunConcurrent();
      } else {
        stop := RunSerial();
      }
      TicksJoin(env, 0, 1, |plans| + 1, |plans|);
      if stop == Some(Stopped) {
        var out := FailBlocked();
        stop := Some(out);
      }
    }

    /** What one step of the integration means for the run when it does not work. */
    method Fail(end: Answer) returns (out: Outcome)
      requires Valid() && end != Works
      modifies this`actions, this`ticks, registry
      ensures Valid() && (out.Stopped? || out.Raised?)
    {
      if end == Throws {
        return Raised;
      }
      out := FailBlocked();
    }

    /** After the merges: the push of the integration branch, the PR, the last tick and the saved handoff. */
    method Conclude() returns (out: Outcome)
      requires Valid() && claimed == |plans| && MergePhase(registry.sfx, env, me, start, plans, log, |plans|)
      requires PushesFirst(env, plans, log) && (env.push ==> AllPushed(env, plans, log, |log|))
      modifies this`log, this`actions, this`ticks, registry
      ensures Valid() && LogSafe(registry.sfx, env, me, start, plans, log) && PushesFirst(env, plans, log)
      ensures out.Finished? <==> ConclusionWorks(env) && TickWorks(env, old(ticks), |plans|)
      ensures out.Finished? ==> AllMerged(log, plans, |plans|) && Opened(log) == env.createPr
      ensures out.Finished? ==> out.terminal == if env.createPr then env.pr.value else PrReadyLocal
      ensures !out.Rejected?
    {
      hide Held, Normalised, Named, Mine, Bounded, Calm, MergePhase, LogSafe, AllMerged, TickWorks, OthersAreOthers,
           PushesFirst, AllPushed, Untouched, Renewed;
      PhaseIsSafe(registry.sfx, env, me, start, plans, log, |plans|);
      if env.push {
        LogOther(registry.sfx, env, me, start, plans, log, PushIntegration);
        OneMoreInOrder(env, plans, log, PushIntegration);
        PushedStays(env, plans, log, |log|, PushIntegration);
        log := log + [PushIntegration];
        if env.pushedAll != Works {
          out := Fail(env.pushedAll);
          return;
        }
        PhaseIsSafe(registry.sfx, env, me, start, plans, log, |plans|);
      }
      if env.createPr {
        OthersWhileHeld();
        LogOther(registry.sfx, env, me, start, plans, log, OpenPr(registry.leases));
        OneMoreInOrder(env, plans, log, OpenPr(registry.leases));
        log := log + [OpenPr(registry.leases)];
        if env.pr.None? {
          return Raised;
        }
      }
      var ok := Tick();
      if !ok {
        return Raised;
      }
      if env.saved != Works {
        out := Fail(env.saved);
        return;
      }
      return Finished(if env.createPr then env.pr.value else PrReadyLocal);
    }

    /** The pushes, the merges and the PR. */
    method Integrate() returns (out: Outcome)
      requires Valid() && NoMerges(log) && claimed == |plans| && AllReady(registry.sfx, env, plans)
      requires OnlyRuns(log)
      modifies this`status, this`log, this`actions, this`ticks, registry
      ensures Valid() && LogSafe(registry.sfx, env, me, start, plans, log) && PushesFirst(env, plans, log)
      ensures out.Finished? ==> forall i :: 0 <= i < |plans| ==>
                status[i] == if plans[i].branch.Some? then Merged else old(status[i])
      ensures out.Finished? <==> IntegrationWorks(env, plans) && TickWorks(env, old(ticks), |plans|)
      ensures out.Finished? ==> AllMerged(log, plans, |plans|) && Opened(log) == env.createPr
      ensures out.Finished? ==> out.terminal == if env.createPr then env.pr.value else PrReadyLocal
      ensures !out.Rejected?
    {
      hide Held, Normalised, Named, Mine, Bounded, AllReady, Calm, MergePhase, LogSafe, NoMerges, AllMerged,
           PushesWork, MergesWork, TickWorks, OthersAreOthers, ConclusionWorks, Opened, OnlyRuns, PushesFirst,
           AllPushed, Renewed;
      if env.push {
        var pushed := PushAll();
        if pushed != Works {
          NoMergesInOrder(env, plans, log);
          NothingMerged(registry.sfx, env, me, start, plans, log);
          PhaseIsSafe(registry.sfx, env, me, start, plans, log, 0);
          out := Fail(pushed);
          return;
        }
      }
      if env.integration != Works {
        NoMergesInOrder(env, plans, log);
        NothingMerged(registry.sfx, env, me, start, plans, log);
        PhaseIsSafe(registry.sfx, env, me, start, plans, log, 0);
        out := Fail(env.integration);
        return;
      }
      var merged := MergeAll();
      if merged != Works {
        out := Fail(merged);
        return;
      }
      out := Conclude();
    }

    /**
     * `run_parallel`. A merge only happens when every stream is ready, the PR only after all merges. On
     * every way out this process has no lease that it did not have before, but those whose release failed;
     * in calm times it has exactly these of the streams it claimed.
     */
    method RunParallel() returns (out: Outcome)
      requires Normalised(registry.leases) && OthersAreOthers(env, me)
      requires |status| == |plans| && claimed == 0 && log == [] && ticks == 0
      requires env.concurrent ==> EndsOnce(env.order, |plans|)
      modifies this, registry
      ensures out.Rejected? <==> !Accepted(registry.sfx, Specs(old(plans)))
      ensures out.Rejected? ==> log == [] && registry.leases == old(registry.leases)
      ensures SameStreams(plans, old(plans)) && claimed <= |plans| && Normalised(registry.leases)
      ensures Mine(registry.leases, me) <= old(Mine(registry.leases, me)) + Left(env, plans, claimed)
      ensures !out.Rejected? ==> Mine(registry.leases, me) !! GivenBack(env, plans, claimed)
      ensures Calm(env, me, start, plans) && !out.Rejected? ==> Left(env, plans, claimed) <= Mine(registry.leases, me)
      ensures out.Finished? <==> !out.Rejected? && claimed == |plans| && !env.provision.Impossible? &&
                                 AllReady(registry.sfx, env, plans) && IntegrationWorks(env, plans) &&
                                 TicksWork(env, 0, |plans| + 2, |plans|)
      ensures LogSafe(registry.sfx, env, me, start, plans, log) && PushesFirst(env, plans, log)
      ensures out.Finished? ==> AllMerged(log, plans, |plans|) && Opened(log) == env.createPr
      ensures out.Finished? ==> |status| == |plans| && forall i :: 0 <= i < |plans| ==>
                status[i] == if plans[i].branch.Some? then Merged else StreamReady
      ensures out.Finished? ==> out.terminal == if env.createPr then env.pr.value else PrReadyLocal
    {
      hide Held, StillHeld, Normalised, Named, Mine, AllReady, EndOf, Calm, Accepted, MergePhase, LogSafe, AllMerged,
           IntegrationWorks, TickWorks, Bounded, PushesFirst, Specs, OthersAreOthers, DistinctStreams;
      NoMergesInOrder(env, plans, log);
      NothingMerged(registry.sfx, env, me, start, plans, log);
      PhaseIsSafe(registry.sfx, env, me, start, plans, log, 0);
      var valid := ValidateStreamPlans(registry.sfx, Specs(plans));
      if valid.Fail? {
        return Rejected(valid.error);
      }
      before := Mine(registry.leases, me);
      NothingHeldYet(env, registry.leases, me, start, plans, before);
      var stop := Prepare();
      if stop.Some? {
        out := stop.value;
        NoMergesInOrder(env, plans, log);
        NothingMerged(registry.sfx, env, me, start, plans, log);
        PhaseIsSafe(registry.sfx, env, me, start, plans, log, 0);
      } else {
        out := Integrate();
      }
      TicksJoin(env, 0, |plans| + 1, |plans| + 2, |plans|);
      OneTick(env, |plans| + 1, |plans|);
      ReleaseAll();
      AllThroughRelease(env, registry.leases, me, start, plans, before, claimed);
    }
  }

  lemma NothingRenewed(env: Env, tick: nat, t: Table, plans: seq<Plan>, from: nat)
    ensures Renewed(env, tick, t, plans, 0, from)
  {
  }

  lemma SkipsOne(env: Env, tick: nat, t: Table, plans: seq<Plan>, n: nat, from: nat)
    requires n < |plans| && Renewed(env, tick, t, plans, n, from) && env.renewals(tick, n) != Works
    ensures Renewed(env, tick, t, plans, n + 1, from)
  {
    hide Text.Trim;
  }

  lemma TicksJoin(env: Env, a: nat, b: nat, c: nat, n: nat)
    requires a <= b <= c
    ensures TicksWork(env, a, c, n) <==> TicksWork(env, a, b, n) && TicksWork(env, b, c, n)
  {
    hide TickWorks;
  }

  lemma OneTick(env: Env, t: nat, n: nat)
    ensures TicksWork(env, t, t + 1, n) <==> TickWorks(env, t, n)
  {
    hide TickWorks;
  }

  lemma HeldIsStillHeld(env: Env, t: Table, me: int, start: Option<string>, plans: seq<Plan>, claimed: nat)
    requires claimed <= |plans|
    ensures Held(t, me, start, plans, claimed) <==> StillHeld(env, t, me, start, plans, 0, claimed)
  {
    hide HasLease;
  }

  lemma FailedReleaseStillHeld(env: Env, t: Table, me: int, start: Option<string>, plans: seq<Plan>,
                               n: nat, claimed: nat)
    requires n < claimed <= |plans| && env.releases(n) != Works
    ensures StillHeld(env, t, me, start, plans, n, claimed) ==> StillHeld(env, t, me, start, plans, n + 1, claimed)
  {
    hide HasLease;
  }

  lemma FewerStayBounded(env: Env, mine: set<string>, fewer: set<string>, before: set<string>, plans: seq<Plan>,
                         n: nat, claimed: nat)
    requires n <= claimed <= |plans| && Bounded(env, mine, before, plans, n, claimed) && fewer <= mine
    ensures Bounded(env, fewer, before, plans, n, claimed)
  {
    hide Names, Left, GivenBack;
  }

  lemma ClaimStaysBounded(env: Env, mine: set<string>, more: set<string>, before: set<string>, plans: seq<Plan>,
                          claimed: nat)
    requires claimed < |plans| && Bounded(env, mine, before, plans, 0, claimed)
    requires more <= mine + {Trim(plans[claimed].name)}
    ensures Bounded(env, more, before, plans, 0, claimed + 1)
  {
    var x := Trim(plans[claimed].name);
    hide Text.Trim;
    OneMoreName(plans, 0, claimed);
    assert GivenBack(env, plans, 0) == {};
    hide Names, Left, GivenBack;
    AddOne(mine, more, before, Names(plans, 0, claimed), Left(env, plans, 0), x);
  }

  lemma AddOne(mine: set<string>, more: set<string>, before: set<string>, names: set<string>, left: set<string>,
               x: string)
    requires mine <= before + names + left && more <= mine + {x}
    ensures more <= before + (names + {x}) + left
  {
  }

  lemma TakeOne(mine: set<string>, fewer: set<string>, before: set<string>, names: set<string>, left: set<string>,
                gone: set<string>, x: string)
    requires mine <= before + ({x} + names) + left && mine !! gone && fewer <= mine - {x}
    ensures fewer <= before + names + left && fewer !! gone + {x}
  {
  }

  lemma MoveOne(mine: set<string>, before: set<string>, names: set<string>, left: set<string>, x: string)
    requires mine <= before + ({x} + names) + left
    ensures mine <= before + names + (left + {x})
  {
  }

  lemma ReleaseStaysBounded(env: Env, mine: set<string>, fewer: set<string>, before: set<string>, plans: seq<Plan>,
                            n: nat, claimed: nat)
    requires n < claimed <= |plans| && env.releases(n) == Works && Bounded(env, mine, before, plans, n, claimed)
    requires fewer <= mine - {Trim(plans[n].name)}
    ensures Bounded(env, fewer, before, plans, n + 1, claimed)
  {
    hide Names, Left, GivenBack, Text.Trim;
    OneLessName(plans, n, claimed);
    OneMoreThrough(env, plans, n);
    var left, gone := Left(env, plans, n), GivenBack(env, plans, n);
    assert left + {} == left;
    TakeOne(mine, fewer, before, Names(plans, n + 1, claimed), left, gone, Trim(plans[n].name));
  }

  lemma FailedReleaseStaysBounded(env: Env, mine: set<string>, before: set<string>, plans: seq<Plan>,
                                  n: nat, claimed: nat)
    requires n < claimed <= |plans| && env.releases(n) != Works && Bounded(env, mine, before, plans, n, claimed)
    ensures Bounded(env, mine, before, plans, n + 1, claimed)
  {
    hide Names, Left, GivenBack, Text.Trim;
    OneLessName(plans, n, claimed);
    OneMoreThrough(env, plans, n);
    var gone := GivenBack(env, plans, n);
    assert gone + {} == gone;
    MoveOne(mine, before, Names(plans, n + 1, claimed), Left(env, plans, n), Trim(plans[n].name));
  }

  lemma OneMoreThrough(env: Env, plans: seq<Plan>, n: nat)
    requires n < |plans|
    ensures var name := {Trim(plans[n].name)};
            && Left(env, plans, n + 1) == Left(env, plans, n) + (if env.releases(n) != Works then name else {})
            && GivenBack(env, plans, n + 1) == GivenBack(env, plans, n) + if env.releases(n) == Works then name else {}
  {
    hide Text.Trim;
  }

  /** Where the releases leave the process. */
  lemma AllThroughRelease(env: Env, t: Table, me: int, start: Option<string>, plans: seq<Plan>, before: set<string>,
                          n: nat)
    requires n <= |plans| && Bounded(env, Mine(t, me), before, plans, n, n)
    ensures Mine(t, me) <= before + Left(env, plans, n) && Mine(t, me) !! GivenBack(env, plans, n)
    ensures StillHeld(env, t, me, start, plans, n, n) ==> Left(env, plans, n) <= Mine(t, me)
  {
    NoNamesLeft(plans, n);
    hide Names, GivenBack, Text.Trim;
  }

  lemma NoNamesLeft(plans: seq<Plan>, n: nat)
    requires n <= |plans|
    ensures Names(plans, n, n) == {}
  {
  }

  lemma OneMoreName(plans: seq<Plan>, lo: nat, hi: nat)
    requires lo <= hi < |plans|
    ensures Names(plans, lo, hi + 1) == Names(plans, lo, hi) + {Trim(plans[hi].name)}
  {
    hide Text.Trim;
  }

  lemma OneLessName(plans: seq<Plan>, lo: nat, hi: nat)
    requires lo < hi <= |plans|
    ensures Names(plans, lo, hi) == {Trim(plans[lo].name)} + Names(plans, lo + 1, hi)
  {
    hide Text.Trim;
  }

  lemma NothingHeldYet(env: Env, t: Table, me: int, start: Option<string>, plans: seq<Plan>, before: set<string>)
    requires before == Mine(t, me)
    ensures Held(t, me, start, plans, 0) && Named(plans, 0) && Bounded(env, before, before, plans, 0, 0)
  {
  }

  lemma SameNames(a: seq<Plan>, b: seq<Plan>, hi: nat)
    requires SameStreams(a, b) && hi <= |a|
    ensures Names(a, 0, hi) == Names(b, 0, hi)
  {
    hide Text.Trim;
  }

  lemma SameBounds(env: Env, mine: set<string>, before: set<string>, a: seq<Plan>, b: seq<Plan>, hi: nat)
    requires SameStreams(a, b) && hi <= |a| && Bounded(env, mine, before, a, 0, hi)
    ensures Bounded(env, mine, before, b, 0, hi)
  {
    SameNames(a, b, hi);
    hide Text.Trim, Names;
  }
}
