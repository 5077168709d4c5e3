/** The table of exclusive leases on path tokens (memory/stream_lease.py). */
module Leases {
  import opened Wrappers
  import opened Text
  import opened Paths

  // ---------------------------------------------------------------------------------------------
  // Records and liveness
  // ---------------------------------------------------------------------------------------------

  /** One lease. `pid` is `None` when the stored field is missing or not a number. */
  datatype Record = Record(owned: seq<string>, worktree: Option<string>, branch: Option<string>,
                           pid: Option<int>, starttime: Option<string>, claimedAt: int, expiresAt: int)

  /** A value of the `leases` object: JSON null, some other value that is no object, or a record. */
  datatype Entry = Null | Junk | Lease(rec: Record)

  type Table = map<string, Entry>

  /** What one look at the operating system shows: live PIDs, and the start times it can read. */
  datatype World = World(alive: set<int>, start: map<int, string>)

  predicate PidDead(w: World, pid: int) {
    pid <= 0 || pid !in w.alive
  }

  function StartTime(w: World, pid: int): Option<string> {
    if pid in w.start && w.start[pid] != "" then Some(w.start[pid]) else None
  }

  /** `_lease_pid_dead`: the entry may be taken over. No clock is consulted. */
  predicate Dead(w: World, e: Entry) {
    match e
    case Lease(r) =>
      (match r.pid
       case None => true
       case Some(pid) =>
         PidDead(w, pid) ||
         (match r.starttime
          case None => false
          case Some(recorded) =>
            recorded != "" && StartTime(w, pid).Some? && StartTime(w, pid).value != recorded))
    case _ => true
  }

  // ---------------------------------------------------------------------------------------------
  // The three operations on values
  // ---------------------------------------------------------------------------------------------

  datatype Op =
    | Claim(paths: seq<string>, worktree: Option<string>, branch: Option<string>, ttl: int)
    | Renew(ttl: int)
    | Release

  /** One claim looks at processes four times: for conflicts, the holder, the clean-up, the stamp. */
  datatype Looks = Looks(conflict: World, holder: World, drop: World, stamp: World)

  /** One operation by process `me` on stream `name`, run under the registry lock. */
  datatype Step = Step(me: int, name: string, op: Op, looks: Looks, now: int)

  /** `PathsOverlap` also stands for a blank stored token met while the live leases are compared. */
  datatype Refusal = BlankName | BadPaths | PathsOverlap | HeldByLivePid | BlankStored | NoLease | NoLiveLease

  datatype Reply = Refused(why: Refusal) | Granted(rec: Record) | Released(removed: bool)

  /** `_norm_paths`: every token normalised, none blank, at least one. */
  function NormPaths(paths: seq<string>): (r: Option<seq<string>>)
    ensures r.Some? <==> paths != [] && NoBlank(paths)
    ensures r.Some? ==> |r.value| == |paths| &&
                        forall i :: 0 <= i < |paths| ==> NormOwned(paths[i]) == Some(r.value[i])
  {
    if paths != [] && NoBlank(paths) then
      Some(seq(|paths|, i requires 0 <= i < |paths| => NormOwned(paths[i]).value))
    else None
  }

  predicate ConflictsWith(sfx: HasSuffix, w: World, t: Table, name: string, paths: seq<string>, other: string) {
    && other in t && other != name && t[other].Lease? && !Dead(w, t[other])
    && !ListsApart(sfx, paths, t[other].rec.owned)
  }

  predicate HeldByOther(w: World, t: Table, name: string, me: int) {
    name in t && t[name].Lease? && !Dead(w, t[name]) && t[name].rec.pid != Some(me)
  }

  /** What `_drop_dead_overlapping` keeps among the entries of other streams. */
  predicate Kept(sfx: HasSuffix, w: World, e: Entry, paths: seq<string>) {
    e.Lease? && (!Dead(w, e) || ListsApart(sfx, paths, e.rec.owned))
  }

  function AfterDrop(sfx: HasSuffix, w: World, t: Table, name: string, paths: seq<string>): Table {
    map n | n in t && (n == name || Kept(sfx, w, t[n], paths)) :: t[n]
  }

  /** The clean-up comes upon a dead record with a blank token before it finds a clash, and raises. */
  predicate DropRaisesOn(sfx: HasSuffix, w: World, t: Table, name: string, paths: seq<string>, other: string) {
    && other in t && other != name && t[other].Lease? && Dead(w, t[other])
    && Compare(sfx, paths, t[other].rec.owned).BlankToken?
  }

  ghost predicate DropRaises(sfx: HasSuffix, w: World, t: Table, name: string, paths: seq<string>) {
    exists other :: DropRaisesOn(sfx, w, t, name, paths, other)
  }

  function ClaimRecord(t: Table, s: Step, paths: seq<string>): Record
    requires s.op.Claim?
  {
    var expiry := s.now + s.op.ttl;
    if s.name in t && t[s.name].Lease? && !Dead(s.looks.holder, t[s.name]) then
      var held := t[s.name].rec;
      var start := StartTime(s.looks.stamp, s.me);
      Record(paths,
             if s.op.worktree.Some? then s.op.worktree else held.worktree,
             if s.op.branch.Some? then s.op.branch else held.branch,
             Some(s.me), if start.Some? then start else held.starttime, held.claimedAt, expiry)
    else
      Record(paths, s.op.worktree, s.op.branch, Some(s.me), StartTime(s.looks.stamp, s.me), s.now, expiry)
  }

  ghost function ClaimRefusal(sfx: HasSuffix, t: Table, s: Step): Option<Refusal>
    requires s.op.Claim?
  {
    if Trim(s.name) == "" then Some(BlankName) else
    match NormPaths(s.op.paths)
    case None => Some(BadPaths)
    case Some(paths) =>
      if exists other :: ConflictsWith(sfx, s.looks.conflict, t, Trim(s.name), paths, other) then
        Some(PathsOverlap)
      else if HeldByOther(s.looks.holder, t, Trim(s.name), s.me) then Some(HeldByLivePid)
      else if DropRaises(sfx, s.looks.drop, t, Trim(s.name), paths) then Some(BlankStored)
      else None
  }

  /** The meaning of one operation: the table it leaves and the reply. */
  ghost function Apply(sfx: HasSuffix, t: Table, s: Step): (Table, Reply) {
    var name := Trim(s.name);
    var named := s.(name := name);
    match s.op
    case Claim(_, _, _, _) =>
      (match ClaimRefusal(sfx, t, s)
       case Some(why) => (t, Refused(why))
       case None =>
         var paths := NormPaths(s.op.paths).value;
         var rec := ClaimRecord(t, named, paths);
         (AfterDrop(sfx, s.looks.drop, t, name, paths)[name := Lease(rec)], Granted(rec)))
    case Renew(ttl) =>
      if name == "" then (t, Refused(BlankName))
      else if name !in t || !t[name].Lease? then (t, Refused(NoLease))
      else if Dead(s.looks.holder, t[name]) then (t, Refused(NoLiveLease))
      else if t[name].rec.pid != Some(s.me) then (t, Refused(HeldByLivePid))
      else
        var rec := t[name].rec.(expiresAt := s.now + ttl);
        (t[name := Lease(rec)], Granted(rec))
    case Release =>
      if name == "" then (t, Refused(BlankName))
      else if name !in t || t[name].Null? then (t, Released(false))
      else if HeldByOther(s.looks.holder, t, name, s.me) then (t, Refused(HeldByLivePid))
      else (t - {name}, Released(true))
  }

  // ---------------------------------------------------------------------------------------------
  // The registry itself
  // ---------------------------------------------------------------------------------------------

  class Registry {
    const sfx: HasSuffix
    var leases: Table

    constructor (sfx: HasSuffix)
      ensures this.sfx == sfx && leases == map[]
    {
      this.sfx := sfx;
      leases := map[];
    }

    /** The first loop of `claim`: some live lease of another stream that is not apart from `paths`. */
    method FindConflict(w: World, name: string, paths: seq<string>) returns (found: Option<string>)
      ensures found.None? ==> forall other :: !ConflictsWith(sfx, w, leases, name, paths, other)
      ensures found.Some? ==> ConflictsWith(sfx, w, leases, name, paths, found.value)
    {
      hide ListsApart, Dead;
      var todo := leases.Keys;
      while todo != {}
        invariant todo <= leases.Keys
        invariant forall other :: other in leases && other !in todo ==>
                    !ConflictsWith(sfx, w, leases, name, paths, other)
        decreases |todo|
      {
        var other :| other in todo;
        todo := todo - {other};
        var e := leases[other];
        if other != name && e.Lease? && !Dead(w, e) {
          var pair := OverlapPair(sfx, paths, e.rec.owned);
          if !pair.Apart? {
            return Some(other);
          }
        }
      }
      return None;
    }

    /** `_drop_dead_overlapping` on a copy of the table; `None` when a blank stored token raises. */
    method DropDeadOverlapping(w: World, name: string, paths: seq<string>) returns (data: Option<Table>)
      ensures data.Some? ==> data.value == AfterDrop(sfx, w, leases, name, paths)
      ensures data.None? <==> DropRaises(sfx, w, leases, name, paths)
    {
      hide ListsApart, Dead, NoBlank, Compare;
      var left := leases;
      var todo := leases.Keys;
      while todo != {}
        invariant todo <= leases.Keys
        invariant forall n :: n in left <==>
                    n in leases && (n in todo || n == name || Kept(sfx, w, leases[n], paths))
        invariant forall n :: n in left ==> left[n] == leases[n]
        invariant forall n :: n in leases && n !in todo ==> !DropRaisesOn(sfx, w, leases, name, paths, n)
        decreases |todo|
      {
        var other :| other in todo;
        todo := todo - {other};
        if other != name {
          var e := leases[other];
          if !e.Lease? {
            left := left - {other};
          } else if Dead(w, e) {
            var pair := OverlapPair(sfx, paths, e.rec.owned);
            if pair.BlankToken? {
              assert DropRaisesOn(sfx, w, leases, name, paths, other);
              return None;
            }
            if pair.Overlap? {
              left := left - {other};
            }
          }
        }
      }
      assert left == AfterDrop(sfx, w, leases, name, paths);
      return Some(left);
    }

    method Claim(me: int, rawName: string, owned: seq<string>, worktree: Option<string>, branch: Option<string>,
                 ttl: int, looks: Looks, now: int) returns (reply: Reply)
      modifies this
      ensures (leases, reply) ==
              old(Apply(sfx, leases, Step(me, rawName, Op.Claim(owned, worktree, branch, ttl), looks, now)))
    {
      hide ListsApart, Dead, Kept, Text.Trim, NormPaths, DropRaises;
      var name := Trim(rawName);
      if name == "" {
        return Refused(BlankName);
      }
      var normed := NormPaths(owned);
      if normed.None? {
        return Refused(BadPaths);
      }
      var paths := normed.value;
      ghost var step := Step(me, rawName, Op.Claim(owned, worktree, branch, ttl), looks, now);
      var conflict := FindConflict(looks.conflict, name, paths);
      if conflict.Some? {
        assert ClaimRefusal(sfx, leases, step) == Some(PathsOverlap);
        return Refused(PathsOverlap);
      }
      var start := StartTime(looks.stamp, me);
      var rec;
      if name in leases && leases[name].Lease? && !Dead(looks.holder, leases[name]) {
        var existing := leases[name].rec;
        if existing.pid != Some(me) {
          return Refused(HeldByLivePid);
        }
        rec := existing.(owned := paths, pid := Some(me), expiresAt := now + ttl);
        if start.Some? { rec := rec.(starttime := start); }
        if worktree.Some? { rec := rec.(worktree := worktree); }
        if branch.Some? { rec := rec.(branch := branch); }
      } else {
        rec := Record(paths, worktree, branch, Some(me), start, now, now + ttl);
      }
      assert rec == ClaimRecord(leases, step.(name := name), paths);
      var data := DropDeadOverlapping(looks.drop, name, paths);
      if data.None? {
        return Refused(BlankStored);
      }
      leases := data.value[name := Lease(rec)];
      return Granted(rec);
    }

    method Renew(me: int, rawName: string, ttl: int, looks: Looks, now: int) returns (reply: Reply)
      modifies this
      ensures (leases, reply) == old(Apply(sfx, leases, Step(me, rawName, Op.Renew(ttl), looks, now)))
    {
      var name := Trim(rawName);
      if name == "" {
        return Refused(BlankName);
      }
      if name !in leases || !leases[name].Lease? {
        return Refused(NoLease);
      }
      if Dead(looks.holder, leases[name]) {
        return Refused(NoLiveLease);
      }
      var rec := leases[name].rec;
      if rec.pid != Some(me) {
        return Refused(HeldByLivePid);
      }
      rec := rec.(pid := Some(me), expiresAt := now + ttl);
      leases := leases[name := Lease(rec)];
      return Granted(rec);
    }

    method Release(me: int, rawName: string, looks: Looks) returns (reply: Reply)
      modifies this
      ensures forall now :: (leases, reply) == old(Apply(sfx, leases, Step(me, rawName, Op.Release, looks, now)))
    {
      var name := Trim(rawName);
      if name == "" {
        return Refused(BlankName);
      }
      if name !in leases || leases[name].Null? {
        return Released(false);
      }
      if !Dead(looks.holder, leases[name]) && leases[name].rec.pid != Some(me) {
        return Refused(HeldByLivePid);
      }
      leases := leases - {name};
      return Released(true);
    }
  }

  // ---------------------------------------------------------------------------------------------
  // When an operation goes through
  // ---------------------------------------------------------------------------------------------

  /**
   * The owner of a record is gone: it names no positive PID, or one that is not alive, or one that has been
   * given to another process, as a recorded start time and a readable one that differ show.
   */
  predicate OwnerGone(w: World, r: Record) {
    || r.pid.None? || r.pid.value <= 0 || r.pid.value !in w.alive
    || (r.starttime.Some? && r.starttime.value != "" && r.pid.value in w.start
        && w.start[r.pid.value] != "" && w.start[r.pid.value] != r.starttime.value)
  }

  /** The other way round: a live PID with no start time recorded, none readable, or the same one. */
  lemma OwnerIsHereIff(w: World, r: Record)
    ensures !OwnerGone(w, r) <==>
              && r.pid.Some? && r.pid.value > 0 && r.pid.value in w.alive
              && (r.starttime == None || r.starttime == Some("")
                  || StartTime(w, r.pid.value) == None || StartTime(w, r.pid.value) == r.starttime)
  {
  }

  /** An entry may be taken over exactly when it is no record or its owner is gone. */
  lemma DeadIff(w: World, e: Entry)
    ensures Dead(w, e) <==> !e.Lease? || OwnerGone(w, e.rec)
  {
  }

  lemma DeadMeansGone()
    ensures forall w, e :: Dead(w, e) <==> !e.Lease? || OwnerGone(w, e.rec)
  {
    forall w, e
      ensures Dead(w, e) <==> !e.Lease? || OwnerGone(w, e.rec)
    {
      DeadIff(w, e);
    }
  }

  /** The stream has a record, and its owner is there. */
  predicate OwnerAt(w: World, t: Table, name: string) {
    name in t && t[name].Lease? && !OwnerGone(w, t[name].rec)
  }

  /** A record of another stream overlaps the paths, and its owner is there. */
  predicate BlockedBy(sfx: HasSuffix, w: World, t: Table, name: string, paths: seq<string>, other: string) {
    other != name && OwnerAt(w, t, other) && !ListsApart(sfx, paths, t[other].rec.owned)
  }

  /**
   * A claim is granted exactly when name and paths are usable, no overlapping record of another stream has
   * its owner there, and neither has the record of this stream, unless the claimant is the owner. Then the
   * records that stay are those apart from the paths and those whose owner is there.
   */
  lemma ClaimIsGrantedIff(sfx: HasSuffix, t: Table, s: Step)
    requires Normalised(t) && s.op.Claim?
    ensures var name, paths := Trim(s.name), NormPaths(s.op.paths); var (t', reply) := Apply(sfx, t, s);
            && (reply.Granted? <==>
                  && name != "" && paths.Some?
                  && (forall other :: !BlockedBy(sfx, s.looks.conflict, t, name, paths.value, other))
                  && (OwnerAt(s.looks.holder, t, name) ==> t[name].rec.pid == Some(s.me)))
            && (reply.Granted? ==>
                  && name in t' && t'[name] == Lease(reply.rec)
                  && forall n :: n != name ==>
                       (n in t' <==>
                          && n in t && t[n].Lease?
                          && (!OwnerGone(s.looks.drop, t[n].rec) || ListsApart(sfx, paths.value, t[n].rec.owned)))
                       && (n in t' ==> t'[n] == t[n]))
            && (!reply.Granted? ==> t' == t && reply.Refused?)
  {
    DeadMeansGone();
    hide ListsApart, Dead, NormPaths, Text.Trim, DropRaises, OwnerGone, ClaimRecord;
    if NormPaths(s.op.paths).Some? {
      var paths := NormPaths(s.op.paths).value;
      NormedPathsAreStored(s.op.paths);
      NormalisedDropsQuietly(sfx, t, s, paths);
      forall other
        ensures BlockedBy(sfx, s.looks.conflict, t, Trim(s.name), paths, other) <==>
                ConflictsWith(sfx, s.looks.conflict, t, Trim(s.name), paths, other)
      {
      }
    }
  }

  /** Why a claim is refused: in this order, the name, the paths, another stream, another owner of this one. */
  lemma ClaimRefusals(sfx: HasSuffix, t: Table, s: Step)
    requires Normalised(t) && s.op.Claim? && !Apply(sfx, t, s).1.Granted?
    ensures var name, paths := Trim(s.name), NormPaths(s.op.paths);
            Apply(sfx, t, s).1 == Refused(
              if name == "" then BlankName
              else if paths.None? then BadPaths
              else if exists other :: BlockedBy(sfx, s.looks.conflict, t, name, paths.value, other) then PathsOverlap
              else HeldByLivePid)
  {
    DeadMeansGone();
    hide ListsApart, Dead, NormPaths, Text.Trim, DropRaises, OwnerGone, ClaimRecord;
    if NormPaths(s.op.paths).Some? {
      var paths := NormPaths(s.op.paths).value;
      NormedPathsAreStored(s.op.paths);
      NormalisedDropsQuietly(sfx, t, s, paths);
      forall other
        ensures BlockedBy(sfx, s.looks.conflict, t, Trim(s.name), paths, other) <==>
                ConflictsWith(sfx, s.looks.conflict, t, Trim(s.name), paths, other)
      {
      }
    }
  }

  /** The record of a granted claim: the claimant's, with what a record it already had keeps. */
  lemma GrantedRecord(sfx: HasSuffix, t: Table, s: Step)
    requires s.op.Claim? && Apply(sfx, t, s).1.Granted?
    ensures var name, rec := Trim(s.name), Apply(sfx, t, s).1.rec;
            var start := StartTime(s.looks.stamp, s.me);
            && NormPaths(s.op.paths) == Some(rec.owned) && rec.pid == Some(s.me)
            && rec.expiresAt == s.now + s.op.ttl
            && (start.Some? ==> rec.starttime == start)
            && (s.op.worktree.Some? ==> rec.worktree == s.op.worktree)
            && (s.op.branch.Some? ==> rec.branch == s.op.branch)
            && (if OwnerAt(s.looks.holder, t, name) then
                  var held := t[name].rec;
                  && rec.claimedAt == held.claimedAt && (start.None? ==> rec.starttime == held.starttime)
                  && (s.op.worktree.None? ==> rec.worktree == held.worktree)
                  && (s.op.branch.None? ==> rec.branch == held.branch)
                else
                  && rec.claimedAt == s.now && rec.starttime == start
                  && rec.worktree == s.op.worktree && rec.branch == s.op.branch)
  {
    DeadMeansGone();
    hide ListsApart, Dead, NormPaths, Text.Trim, DropRaises, OwnerGone, ConflictsWith;
  }

  /** A renewal goes through exactly for an owner that is there, and changes the expiry only. */
  lemma RenewGoesThroughIff(sfx: HasSuffix, t: Table, s: Step)
    requires s.op.Renew?
    ensures var name := Trim(s.name); var (t', reply) := Apply(sfx, t, s);
            && (reply.Granted? <==>
                  name != "" && OwnerAt(s.looks.holder, t, name) && t[name].rec.pid == Some(s.me))
            && (if reply.Granted? then
                  reply.rec == t[name].rec.(expiresAt := s.now + s.op.ttl) && t' == t[name := Lease(reply.rec)]
                else
                  t' == t && reply == Refused(
                    if name == "" then BlankName
                    else if name !in t || !t[name].Lease? then NoLease
                    else if OwnerAt(s.looks.holder, t, name) then HeldByLivePid else NoLiveLease))
  {
    DeadMeansGone();
    hide Dead, Text.Trim, OwnerGone;
  }

  /** A release removes the entry unless another owner is there. */
  lemma ReleaseGoesThroughIff(sfx: HasSuffix, t: Table, s: Step)
    requires s.op.Release?
    ensures var name := Trim(s.name); var (t', reply) := Apply(sfx, t, s);
            var foreign := OwnerAt(s.looks.holder, t, name) && t[name].rec.pid != Some(s.me);
            && (reply == Released(true) <==> name != "" && name in t && !t[name].Null? && !foreign)
            && (reply == Released(false) <==> name != "" && (name !in t || t[name].Null?))
            && (reply == Refused(HeldByLivePid) <==> name != "" && foreign)
            && (reply == Refused(BlankName) <==> name == "")
            && t' == if reply == Released(true) then t - {name} else t
  {
    DeadMeansGone();
    hide Dead, Text.Trim, OwnerGone;
  }

  // ---------------------------------------------------------------------------------------------
  // What every step keeps
  // ---------------------------------------------------------------------------------------------

  /** Every stored token is in the normalised form that the overlap test compares. */
  predicate Normalised(t: Table) {
    forall n, i :: n in t && t[n].Lease? && 0 <= i < |t[n].rec.owned| ==>
      NormOwned(t[n].rec.owned[i]) == Some(t[n].rec.owned[i])
  }

  lemma NormedPathsAreStored(paths: seq<string>)
    requires NormPaths(paths).Some?
    ensures var p := NormPaths(paths).value;
            NoBlank(p) && forall i :: 0 <= i < |p| ==> NormOwned(p[i]) == Some(p[i])
  {
    var p := NormPaths(paths).value;
    forall i | 0 <= i < |p|
      ensures NormOwned(p[i]) == Some(p[i])
    {
      NormOwnedIdempotent(paths[i]);
    }
  }

  /** The records of two different streams never overlap, whether their owners live or not. */
  predicate Disjoint(sfx: HasSuffix, t: Table) {
    forall m, n :: m in t && n in t && m != n && t[m].Lease? && t[n].Lease? ==>
      ListsApart(sfx, t[m].rec.owned, t[n].rec.owned)
  }

  /** A record that looked dead when conflicts were sought looks alive when the dead are dropped. */
  ghost predicate Revived(sfx: HasSuffix, t: Table, s: Step) {
    s.op.Claim? && NormPaths(s.op.paths).Some? &&
    exists n :: n in t && n != Trim(s.name) && t[n].Lease? &&
                OwnerGone(s.looks.conflict, t[n].rec) && !OwnerGone(s.looks.drop, t[n].rec) &&
                !ListsApart(sfx, NormPaths(s.op.paths).value, t[n].rec.owned)
  }

  lemma StepKeepsNormalised(sfx: HasSuffix, t: Table, s: Step)
    requires Normalised(t)
    ensures Normalised(Apply(sfx, t, s).0)
  {
    hide ListsApart, Dead, NormOwned, Text.Trim, DropRaises;
    if s.op.Claim? && NormPaths(s.op.paths).Some? {
      NormedPathsAreStored(s.op.paths);
    }
  }

  /** A step keeps the records pairwise disjoint exactly when it revives no overlapping record. */
  lemma StepKeepsDisjointIff(sfx: HasSuffix, t: Table, s: Step)
    requires Disjoint(sfx, t)
    ensures Disjoint(sfx, Apply(sfx, t, s).0) <==> !Apply(sfx, t, s).1.Granted? || !Revived(sfx, t, s)
  {
    DeadMeansGone();
    hide ListsApart, Dead, NormPaths, Text.Trim, DropRaises, OwnerGone;
    var t', reply := Apply(sfx, t, s).0, Apply(sfx, t, s).1;
    if s.op.Claim? && reply.Granted? {
      var name, paths := Trim(s.name), NormPaths(s.op.paths).value;
      if Revived(sfx, t, s) {
        var n :| n in t && n != name && t[n].Lease? && OwnerGone(s.looks.conflict, t[n].rec) &&
                 !OwnerGone(s.looks.drop, t[n].rec) && !ListsApart(sfx, paths, t[n].rec.owned);
        assert n in t' && name in t';
      } else {
        forall m, n | m in t' && n in t' && m != n && t'[m].Lease? && t'[n].Lease?
          ensures ListsApart(sfx, t'[m].rec.owned, t'[n].rec.owned)
        {
          var other := if m == name then n else m;
          assert m != name && n != name ==> ListsApart(sfx, t[m].rec.owned, t[n].rec.owned);
          if m == name || n == name {
            assert !ConflictsWith(sfx, s.looks.conflict, t, name, paths, other);
            ClashSymmetric(sfx, paths, t[other].rec.owned);
          }
        }
      }
    }
  }

  // ---- a record that revives ----

  function ClaimOf(me: int, name: string, token: string, looks: Looks): Step {
    Step(me, name, Claim([token], None, None, 0), looks, 0)
  }

  /** Who is alive at each of the looks of a claim; no start time can be read. */
  function Watching(conflict: set<int>, later: set<int>): Looks {
    var w := World(later, map[]);
    Looks(World(conflict, map[]), w, w, w)
  }

  /** A claim of a usable token on a table without a conflict is granted. */
  lemma PlainClaim(sfx: HasSuffix, t: Table, s: Step, token: string)
    requires s.op == Claim([token], None, None, 0) && s.now == 0 && NormOwned(token) == Some(token)
    requires Trim(s.name) == s.name != "" && s.name !in t && Normalised(t)
    requires forall other :: !ConflictsWith(sfx, s.looks.conflict, t, s.name, [token], other)
    ensures Apply(sfx, t, s).1.Granted? && s.name in Apply(sfx, t, s).0
    ensures Apply(sfx, t, s).0[s.name] ==
            Lease(Record([token], None, None, Some(s.me), StartTime(s.looks.stamp, s.me), 0, 0))
    ensures forall n :: n in t && Kept(sfx, s.looks.drop, t[n], [token]) ==>
              n in Apply(sfx, t, s).0 && Apply(sfx, t, s).0[n] == t[n]
  {
    hide NormOwned, Text.Trim, Dead, Kept, Normalised, ConflictsWith;
    assert NormPaths([token]).value == [token];
    assert NoBlank([token]);
    NormalisedDropsQuietly(sfx, t, s, [token]);
    hide NormPaths, DropRaises, AfterDrop;
    assert s.(name := Trim(s.name)) == s;
    var rec := ClaimRecord(t, s, [token]);
    assert Apply(sfx, t, s).0 == AfterDrop(sfx, s.looks.drop, t, s.name, [token])[s.name := Lease(rec)];
    KeptStays(sfx, s.looks.drop, t, s.name, [token]);
  }

  lemma KeptStays(sfx: HasSuffix, w: World, t: Table, name: string, paths: seq<string>)
    requires name !in t
    ensures var left := AfterDrop(sfx, w, t, name, paths);
            name !in left && forall n :: n in t && Kept(sfx, w, t[n], paths) ==> n in left && left[n] == t[n]
  {
    hide Kept;
  }

  /**
   * The excluded case occurs: process 1 has claimed a token and looks dead when process 2 seeks conflicts
   * and alive when it drops the dead, as under a reused PID. Both records stay, with the same token.
   */
  lemma RevivalBreaksDisjointness(sfx: HasSuffix, token: string) returns (steps: seq<Step>)
    requires NormOwned(token) == Some(token)
    ensures |steps| == 2 && Disjoint(sfx, Run(sfx, map[], steps[..1]))
    ensures Apply(sfx, Run(sfx, map[], steps[..1]), steps[1]).1.Granted?
    ensures Revived(sfx, Run(sfx, map[], steps[..1]), steps[1])
    ensures !Disjoint(sfx, Run(sfx, map[], steps))
  {
    var first := ClaimOf(1, "a", token, Watching({1, 2}, {1, 2}));
    var second := ClaimOf(2, "b", token, Watching({2}, {1, 2}));
    steps := [first, second];
    TwoSteps(sfx, first, second);
    hide *;
    FirstClaim(sfx, token);
    SecondClaim(sfx, token, Apply(sfx, map[], first).0);
  }

  function Sole(token: string): Table {
    map["a" := Lease(Record([token], None, None, Some(1), None, 0, 0))]
  }

  lemma FirstClaim(sfx: HasSuffix, token: string)
    requires NormOwned(token) == Some(token)
    ensures Apply(sfx, map[], ClaimOf(1, "a", token, Watching({1, 2}, {1, 2}))).0 == Sole(token)
  {
    var s := ClaimOf(1, "a", token, Watching({1, 2}, {1, 2}));
    ShortNames();
    hide NormOwned, Text.Trim, Apply;
    PlainClaim(sfx, map[], s, token);
    OnlyClaim(sfx, s, token);
  }

  lemma SecondClaim(sfx: HasSuffix, token: string, t: Table)
    requires NormOwned(token) == Some(token) && t == Sole(token)
    ensures var s := ClaimOf(2, "b", token, Watching({2}, {1, 2}));
            Disjoint(sfx, t) && Apply(sfx, t, s).1.Granted? && Revived(sfx, t, s) && !Disjoint(sfx, Apply(sfx, t, s).0)
  {
    var s := ClaimOf(2, "b", token, Watching({2}, {1, 2}));
    hide NormOwned, Apply, Revived, Disjoint, Normalised;
    SoleIsNormalised(token);
    assert Dead(s.looks.conflict, t["a"]) && !Dead(s.looks.drop, t["a"]);
    assert s.op == Claim([token], None, None, 0) && s.now == 0 && s.name == "b";
    hide *;
    ShortNames();
    ClaimOverRevived(sfx, t, s, token, "a");
  }

  lemma SoleIsNormalised(token: string)
    requires NormOwned(token) == Some(token)
    ensures Normalised(Sole(token)) && Sole(token).Keys == {"a"} && Sole(token)["a"].Lease?
    ensures Sole(token)["a"].rec.owned == [token]
  {
    hide NormOwned;
  }

  lemma ClaimOverRevived(sfx: HasSuffix, t: Table, s: Step, token: string, held: string)
    requires s.op == Claim([token], None, None, 0) && s.now == 0 && NormOwned(token) == Some(token)
    requires Trim(s.name) == s.name != "" && s.name != held
    requires Normalised(t) && t.Keys == {held} && t[held].Lease? && t[held].rec.owned == [token]
    requires Dead(s.looks.conflict, t[held]) && !Dead(s.looks.drop, t[held])
    ensures Disjoint(sfx, t) && Apply(sfx, t, s).1.Granted? && Revived(sfx, t, s) && !Disjoint(sfx, Apply(sfx, t, s).0)
  {
    hide *;
    SelfClash(sfx, token);
    OneRecordIsDisjoint(sfx, t, held);
    DeadNeverConflicts(sfx, t, s, token, held);
    PlainClaim(sfx, t, s, token);
    OverlapBreaksDisjointness(sfx, Apply(sfx, t, s).0, held, s.name);
  }

  lemma OneRecordIsDisjoint(sfx: HasSuffix, t: Table, n: string)
    requires t.Keys == {n}
    ensures Disjoint(sfx, t)
  {
  }

  lemma DeadNeverConflicts(sfx: HasSuffix, t: Table, s: Step, token: string, n: string)
    requires s.op == Claim([token], None, None, 0) && NormOwned(token) == Some(token) && Trim(s.name) == s.name != n
    requires t.Keys == {n} && t[n].Lease? && t[n].rec.owned == [token] && !ListsApart(sfx, [token], [token])
    requires Dead(s.looks.conflict, t[n]) && !Dead(s.looks.drop, t[n])
    ensures forall other :: !ConflictsWith(sfx, s.looks.conflict, t, s.name, [token], other)
    ensures Kept(sfx, s.looks.drop, t[n], [token]) && Revived(sfx, t, s)
  {
    DeadMeansGone();
    hide NormOwned, Text.Trim, ListsApart, Dead;
    assert NormPaths([token]).value == [token];
  }

  lemma OverlapBreaksDisjointness(sfx: HasSuffix, t: Table, m: string, n: string)
    requires m in t && n in t && m != n && t[m].Lease? && t[n].Lease?
    requires !ListsApart(sfx, t[m].rec.owned, t[n].rec.owned)
    ensures !Disjoint(sfx, t)
  {
    hide ListsApart;
  }

  lemma ShortNames()
    ensures Trim("a") == "a" && Trim("b") == "b" && "a" != "b"
  {
    assert !IsSpace("a"[0]) && !IsSpace("b"[0]);
    TrimIsTrimmed("a");
    TrimIsTrimmed("b");
  }

  lemma OnlyClaim(sfx: HasSuffix, s: Step, token: string)
    requires s.op.Claim? && Apply(sfx, map[], s).1.Granted?
    ensures Apply(sfx, map[], s).0.Keys == {Trim(s.name)}
  {
    hide Text.Trim, NormPaths, DropRaises, Kept;
  }

  lemma SelfClash(sfx: HasSuffix, token: string)
    requires NormOwned(token) == Some(token)
    ensures !ListsApart(sfx, [token], [token])
  {
    hide NormOwned, Covers;
    CoversItself(sfx, token);
    assert !TokenPairApart(sfx, [token][0], [token][0]);
  }

  lemma TwoSteps(sfx: HasSuffix, first: Step, second: Step)
    ensures [first, second][..1] == [first]
    ensures Run(sfx, map[], [first]) == Apply(sfx, map[], first).0
    ensures Run(sfx, map[], [first, second]) == Apply(sfx, Apply(sfx, map[], first).0, second).0
  {
    hide Apply;
    assert [first][1..] == [] && [first, second][1..] == [second] && [second][1..] == [];
    var t1 := Apply(sfx, map[], first).0;
    assert Run(sfx, t1, []) == t1 && Run(sfx, t1, [second]) == Run(sfx, Apply(sfx, t1, second).0, []);
  }

  ghost function Run(sfx: HasSuffix, t: Table, steps: seq<Step>): Table
    decreases |steps|
  {
    if steps == [] then t else Run(sfx, Apply(sfx, t, steps[0]).0, steps[1..])
  }

  /** No claim of the run sees a dead record come back to life between its two looks. */
  ghost predicate Steady(sfx: HasSuffix, t: Table, steps: seq<Step>)
    decreases |steps|
  {
    steps != [] ==> !Revived(sfx, t, steps[0]) && Steady(sfx, Apply(sfx, t, steps[0]).0, steps[1..])
  }

  /** Over every run of every process, all records stay pairwise disjoint and normalised. */
  lemma {:induction false} RunKeepsDisjoint(sfx: HasSuffix, t: Table, steps: seq<Step>)
    requires Disjoint(sfx, t) && Normalised(t) && Steady(sfx, t, steps)
    ensures Disjoint(sfx, Run(sfx, t, steps)) && Normalised(Run(sfx, t, steps))
    decreases |steps|
  {
    hide Disjoint, Normalised, Apply, Revived;
    if steps != [] {
      StepKeepsDisjointIff(sfx, t, steps[0]);
      StepKeepsNormalised(sfx, t, steps[0]);
      RunKeepsDisjoint(sfx, Apply(sfx, t, steps[0]).0, steps[1..]);
    }
  }

  /** Hence, from the empty table on, no path is ever held by two leases of sound tokens. */
  lemma NoPathInTwoLeases(sfx: HasSuffix, steps: seq<Step>, m: string, n: string, path: string)
    requires Steady(sfx, map[], steps)
    requires var t := Run(sfx, map[], steps);
             m in t && n in t && m != n && t[m].Lease? && t[n].Lease? &&
             SafeTokens(t[m].rec.owned) && SafeTokens(t[n].rec.owned)
    ensures var t := Run(sfx, map[], steps);
            !(OwnedBy(sfx, RelOf(path), t[m].rec.owned) == Ok(true) &&
              OwnedBy(sfx, RelOf(path), t[n].rec.owned) == Ok(true))
  {
    hide Run, Steady, ListsApart, OwnedBy, SafeTokens, RelOf;
    RunKeepsDisjoint(sfx, map[], steps);
    var t := Run(sfx, map[], steps);
    RelOfIsNormal(path);
    ApartListsShareNoPath(sfx, t[m].rec.owned, t[n].rec.owned, RelOf(path));
  }

  // ---------------------------------------------------------------------------------------------
  // Whose lease a step can touch
  // ---------------------------------------------------------------------------------------------

  /** The record belongs to a process other than `me`, which is there whenever the step looks. */
  predicate LiveForeign(e: Entry, me: int, looks: Looks) {
    && e.Lease? && e.rec.pid != Some(me)
    && !OwnerGone(looks.conflict, e.rec) && !OwnerGone(looks.holder, e.rec) && !OwnerGone(looks.drop, e.rec)
  }

  /** No step removes or changes the lease of another live process. */
  lemma LiveForeignLeaseIsKept(sfx: HasSuffix, t: Table, s: Step, n: string)
    requires n in t && LiveForeign(t[n], s.me, s.looks)
    ensures n in Apply(sfx, t, s).0 && Apply(sfx, t, s).0[n] == t[n]
  {
    DeadMeansGone();
    hide ListsApart, Dead, NormPaths, Text.Trim, DropRaises, OwnerGone;
  }

  lemma {:induction false} LiveForeignLeaseIsKeptOverRuns(sfx: HasSuffix, t: Table, steps: seq<Step>, n: string)
    requires n in t
    requires forall i :: 0 <= i < |steps| ==> LiveForeign(t[n], steps[i].me, steps[i].looks)
    ensures n in Run(sfx, t, steps) && Run(sfx, t, steps)[n] == t[n]
    decreases |steps|
  {
    hide Apply, LiveForeign;
    if steps != [] {
      LiveForeignLeaseIsKept(sfx, t, steps[0], n);
      LiveForeignLeaseIsKeptOverRuns(sfx, Apply(sfx, t, steps[0]).0, steps[1..], n);
    }
  }

  /** A refused operation leaves the table as it was. */
  lemma RefusalChangesNothing(sfx: HasSuffix, t: Table, s: Step)
    ensures Apply(sfx, t, s).1.Refused? ==> Apply(sfx, t, s).0 == t
  {
    hide ListsApart, Dead, NormPaths, Text.Trim, DropRaises;
  }

  /**
   * Crash recovery: in a disjoint table the paths of a stream whose owner has died can be claimed
   * by any process under a fresh name, and the dead record goes.
   */
  lemma DeadOwnersAreRecovered(sfx: HasSuffix, t: Table, s: Step, gone: string)
    requires Disjoint(sfx, t) && Normalised(t)
    requires s.op.Claim? && Trim(s.name) != "" && Trim(s.name) !in t
    requires gone in t && t[gone].Lease? && t[gone].rec.owned != [] && s.op.paths == t[gone].rec.owned
    requires OwnerGone(s.looks.conflict, t[gone].rec) && OwnerGone(s.looks.drop, t[gone].rec)
    ensures Apply(sfx, t, s).1.Granted?
    ensures gone !in Apply(sfx, t, s).0
    ensures Apply(sfx, t, s).0[Trim(s.name)].rec.owned == t[gone].rec.owned
  {
    DeadMeansGone();
    hide Dead, Text.Trim, NormOwned, Covers;
    var owned := t[gone].rec.owned;
    NormalisedDropsQuietly(sfx, t, s, owned);
    assert NormPaths(owned) == Some(owned) by {
      assert NormPaths(owned).value == owned;
    }
    hide NormPaths;
    assert !ListsApart(sfx, owned, owned) by {
      CoversItself(sfx, owned[0]);
      assert !TokenPairApart(sfx, owned[0], owned[0]);
    }
    hide ListsApart;
    forall other
      ensures !ConflictsWith(sfx, s.looks.conflict, t, Trim(s.name), owned, other)
    {
    }
  }

  /** On a normalised table the clean-up never raises. */
  lemma NormalisedDropsQuietly(sfx: HasSuffix, t: Table, s: Step, paths: seq<string>)
    requires Normalised(t) && NoBlank(paths)
    ensures !DropRaises(sfx, s.looks.drop, t, Trim(s.name), paths)
  {
    hide Dead, Text.Trim, NormOwned, Compare;
    forall other
      ensures !DropRaisesOn(sfx, s.looks.drop, t, Trim(s.name), paths, other)
    {
      if other in t && t[other].Lease? {
        CompareMeaning(sfx, paths, t[other].rec.owned);
      }
    }
  }

  lemma CoversItself(sfx: HasSuffix, token: string)
    ensures Covers(sfx, token, token)
  {
  }

  // ---------------------------------------------------------------------------------------------
  // The expiry time decides nothing
  // ---------------------------------------------------------------------------------------------

  function Timeless(e: Entry): Entry {
    match e
    case Lease(r) => Lease(r.(claimedAt := 0, expiresAt := 0))
    case _ => e
  }

  function TimelessTable(t: Table): Table {
    map n | n in t :: Timeless(t[n])
  }

  function TimelessReply(r: Reply): Reply {
    match r
    case Granted(rec) => Granted(rec.(claimedAt := 0, expiresAt := 0))
    case _ => r
  }

  /** The same step with another clock and another time to live. */
  predicate SameButClock(s: Step, s': Step) {
    && s'.me == s.me && s'.name == s.name && s'.looks == s.looks
    && match s.op
       case Claim(p, w, b, _) => s'.op.Claim? && s'.op.paths == p && s'.op.worktree == w && s'.op.branch == b
       case Renew(_) => s'.op.Renew?
       case Release => s'.op.Release?
  }

  lemma TimelessDead(w: World, e: Entry)
    ensures Dead(w, Timeless(e)) == Dead(w, e)
  {
  }

  lemma TimelessLookup(t: Table, t': Table, n: string)
    requires TimelessTable(t) == TimelessTable(t')
    ensures n in t <==> n in t'
    ensures n in t ==> Timeless(t[n]) == Timeless(t'[n])
  {
    assert n in t <==> n in TimelessTable(t);
    assert n in t' <==> n in TimelessTable(t');
    if n in t {
      assert TimelessTable(t)[n] == TimelessTable(t')[n];
    }
  }

  /** Two tables with the same entries up to times, seen entry by entry. */
  ghost predicate Alike(t: Table, t': Table) {
    && t.Keys == t'.Keys
    && forall n :: n in t ==> Timeless(t[n]) == Timeless(t'[n])
  }

  lemma AlikeEntries(e: Entry, e': Entry)
    requires Timeless(e) == Timeless(e')
    ensures e.Lease? == e'.Lease? && e.Null? == e'.Null?
    ensures e.Lease? ==> e'.rec.(claimedAt := 0, expiresAt := 0) == e.rec.(claimedAt := 0, expiresAt := 0)
    ensures forall w :: Dead(w, e) == Dead(w, e')
  {
    forall w
      ensures Dead(w, e) == Dead(w, e')
    {
      TimelessDead(w, e);
      TimelessDead(w, e');
    }
  }

  lemma ConflictIgnoresTimes(sfx: HasSuffix, w: World, t: Table, t': Table, name: string, paths: seq<string>,
                             other: string)
    requires Alike(t, t')
    ensures ConflictsWith(sfx, w, t, name, paths, other) <==> ConflictsWith(sfx, w, t', name, paths, other)
  {
    hide ListsApart, Dead;
    if other in t {
      AlikeEntries(t[other], t'[other]);
    }
  }

  lemma HolderIgnoresTimes(w: World, t: Table, t': Table, name: string, me: int)
    requires Alike(t, t')
    ensures HeldByOther(w, t, name, me) <==> HeldByOther(w, t', name, me)
  {
    hide Dead;
    if name in t {
      AlikeEntries(t[name], t'[name]);
    }
  }

  lemma KeptIgnoresTimes(sfx: HasSuffix, w: World, e: Entry, e': Entry, paths: seq<string>)
    requires Timeless(e) == Timeless(e')
    ensures Kept(sfx, w, e, paths) <==> Kept(sfx, w, e', paths)
  {
    hide ListsApart, Dead;
    AlikeEntries(e, e');
  }

  lemma DropIgnoresTimes(sfx: HasSuffix, w: World, t: Table, t': Table, name: string, paths: seq<string>)
    requires Alike(t, t')
    ensures Alike(AfterDrop(sfx, w, t, name, paths), AfterDrop(sfx, w, t', name, paths))
  {
    hide Kept, Timeless;
    forall n | n in t
      ensures Kept(sfx, w, t[n], paths) <==> Kept(sfx, w, t'[n], paths)
    {
      KeptIgnoresTimes(sfx, w, t[n], t'[n], paths);
    }
  }

  lemma RecordIgnoresTimes(t: Table, t': Table, s: Step, s': Step, paths: seq<string>)
    requires Alike(t, t') && SameButClock(s, s') && s.op.Claim?
    ensures Timeless(Lease(ClaimRecord(t, s, paths))) == Timeless(Lease(ClaimRecord(t', s', paths)))
  {
    hide Dead;
    if s.name in t {
      AlikeEntries(t[s.name], t'[s.name]);
    }
  }

  lemma RefusalIgnoresTimes(sfx: HasSuffix, t: Table, t': Table, s: Step, s': Step)
    requires Alike(t, t') && SameButClock(s, s') && s.op.Claim?
    ensures ClaimRefusal(sfx, t, s) == ClaimRefusal(sfx, t', s')
  {
    hide ConflictsWith, HeldByOther, NormPaths, Text.Trim, Alike, DropRaises;
    var name := Trim(s.name);
    if NormPaths(s.op.paths).Some? {
      var paths := NormPaths(s.op.paths).value;
      forall other
        ensures ConflictsWith(sfx, s.looks.conflict, t, name, paths, other) <==>
                ConflictsWith(sfx, s.looks.conflict, t', name, paths, other)
      {
        ConflictIgnoresTimes(sfx, s.looks.conflict, t, t', name, paths, other);
      }
    }
    HolderIgnoresTimes(s.looks.holder, t, t', name, s.me);
    if NormPaths(s.op.paths).Some? {
      DropRaisesIgnoresTimes(sfx, s.looks.drop, t, t', name, NormPaths(s.op.paths).value);
    }
  }

  lemma DropRaisesIgnoresTimes(sfx: HasSuffix, w: World, t: Table, t': Table, name: string, paths: seq<string>)
    requires Alike(t, t')
    ensures DropRaises(sfx, w, t, name, paths) <==> DropRaises(sfx, w, t', name, paths)
  {
    hide Dead, Compare;
    forall other
      ensures DropRaisesOn(sfx, w, t, name, paths, other) <==> DropRaisesOn(sfx, w, t', name, paths, other)
    {
      if other in t {
        AlikeEntries(t[other], t'[other]);
      }
    }
  }

  lemma ClaimIgnoresTimes(sfx: HasSuffix, t: Table, t': Table, s: Step, s': Step)
    requires Alike(t, t') && SameButClock(s, s') && s.op.Claim?
    ensures Alike(Apply(sfx, t, s).0, Apply(sfx, t', s').0)
    ensures TimelessReply(Apply(sfx, t, s).1) == TimelessReply(Apply(sfx, t', s').1)
  {
    hide AfterDrop, ClaimRecord, ConflictsWith, HeldByOther, NormPaths, Text.Trim, Dead;
    RefusalIgnoresTimes(sfx, t, t', s, s');
    if ClaimRefusal(sfx, t, s).None? {
      var name, paths := Trim(s.name), NormPaths(s.op.paths).value;
      DropIgnoresTimes(sfx, s.looks.drop, t, t', name, paths);
      var r, r' := ClaimRecord(t, s.(name := name), paths), ClaimRecord(t', s'.(name := name), paths);
      RecordIgnoresTimes(t, t', s.(name := name), s'.(name := name), paths);
      assert r.(claimedAt := 0, expiresAt := 0) == r'.(claimedAt := 0, expiresAt := 0);
      AlikeUpdate(AfterDrop(sfx, s.looks.drop, t, name, paths), AfterDrop(sfx, s.looks.drop, t', name, paths),
                  name, r, r');
    }
    hide ClaimRefusal, Alike, Timeless;
  }

  lemma AlikeUpdate(t: Table, t': Table, name: string, r: Record, r': Record)
    requires Alike(t, t') && Timeless(Lease(r)) == Timeless(Lease(r'))
    ensures Alike(t[name := Lease(r)], t'[name := Lease(r')])
  {
    hide Timeless;
  }

  lemma RenewAndReleaseIgnoreTimes(sfx: HasSuffix, t: Table, t': Table, s: Step, s': Step)
    requires Alike(t, t') && SameButClock(s, s') && !s.op.Claim?
    ensures Alike(Apply(sfx, t, s).0, Apply(sfx, t', s').0)
    ensures TimelessReply(Apply(sfx, t, s).1) == TimelessReply(Apply(sfx, t', s').1)
  {
    hide Dead, Text.Trim;
    var name := Trim(s.name);
    if name in t {
      AlikeEntries(t[name], t'[name]);
    }
  }

  /** Two tables that differ in times only answer every step alike, whatever the clocks say. */
  lemma TimesDecideNothing(sfx: HasSuffix, t: Table, t': Table, s: Step, s': Step)
    requires TimelessTable(t) == TimelessTable(t') && SameButClock(s, s')
    ensures TimelessTable(Apply(sfx, t, s).0) == TimelessTable(Apply(sfx, t', s').0)
    ensures TimelessReply(Apply(sfx, t, s).1) == TimelessReply(Apply(sfx, t', s').1)
  {
    AlikeIffTimelessEqual(t, t');
    AlikeIffTimelessEqual(Apply(sfx, t, s).0, Apply(sfx, t', s').0);
    hide Apply, TimelessTable, Alike;
    if s.op.Claim? {
      ClaimIgnoresTimes(sfx, t, t', s, s');
    } else {
      RenewAndReleaseIgnoreTimes(sfx, t, t', s, s');
    }
  }

  lemma AlikeIffTimelessEqual(t: Table, t': Table)
    ensures Alike(t, t') <==> TimelessTable(t) == TimelessTable(t')
  {
    hide Timeless;
    if TimelessTable(t) == TimelessTable(t') {
      forall n
        ensures n in t <==> n in t'
        ensures n in t ==> Timeless(t[n]) == Timeless(t'[n])
      {
        TimelessLookup(t, t', n);
      }
    }
  }

  /** What the steps of a run are answered, in order. */
  ghost function Replies(sfx: HasSuffix, t: Table, steps: seq<Step>): (r: seq<Reply>)
    ensures |r| == |steps|
    decreases |steps|
  {
    if steps == [] then [] else [Apply(sfx, t, steps[0]).1] + Replies(sfx, Apply(sfx, t, steps[0]).0, steps[1..])
  }

  /** Whole runs with different clocks give the same answers step by step and leave the same table. */
  lemma {:induction false} TimesDecideNothingOverRuns(sfx: HasSuffix, t: Table, t': Table,
                                                      steps: seq<Step>, steps': seq<Step>)
    requires TimelessTable(t) == TimelessTable(t') && |steps| == |steps'|
    requires forall i :: 0 <= i < |steps| ==> SameButClock(steps[i], steps'[i])
    ensures TimelessTable(Run(sfx, t, steps)) == TimelessTable(Run(sfx, t', steps'))
    ensures forall i :: 0 <= i < |steps| ==>
              TimelessReply(Replies(sfx, t, steps)[i]) == TimelessReply(Replies(sfx, t', steps')[i])
    decreases |steps|
  {
    hide Apply, TimelessTable, SameButClock, TimelessReply;
    if steps != [] {
      TimesDecideNothing(sfx, t, t', steps[0], steps'[0]);
      TimesDecideNothingOverRuns(sfx, Apply(sfx, t, steps[0]).0, Apply(sfx, t', steps'[0]).0, steps[1..], steps'[1..]);
    }
  }
}
