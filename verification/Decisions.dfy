/** Decisions under the lease: containers with their own copies of the store, each syncing
    down, checking, resolving and syncing up inside its lease, all interleaved key by key. */
module Decisions {
  import opened Domain
  import Lease

  type Key = nat

  const SNAPSHOT_KEY: Key := 0

  /** A stored object of the run: its snapshot, with the decision it awaits, or any other. */
  datatype File = Snapshot(pending: Option<Id>) | Other(bytes: nat)

  /** Where a container is in `submit_decision`. */
  datatype Block = Outside | Down(todo: set<Key>) | Up(todo: set<Key>) | Finished

  datatype Service = Service(
    lease: Lease.World,
    bucket: map<Key, File>,
    caches: map<Id, map<Key, File>>,
    blocks: map<Id, Block>,
    issued: set<Id>,
    resolved: seq<Id>)

  datatype Step =
    | LeaseStep(step: Lease.Step)
    | Enter(container: Id)
    | Fetch(container: Id, key: Key)
    | Refuse(container: Id)
    | Resolve(container: Id, changes: map<Key, File>)
    | Put(container: Id, key: Key)
    | Finish(container: Id)

  function BlockOf(s: Service, p: Id): Block { if p in s.blocks then s.blocks[p] else Outside }

  function CacheOf(s: Service, p: Id): map<Key, File> { if p in s.caches then s.caches[p] else map[] }

  function WithBlock(s: Service, p: Id, block: Block): Service { s.(blocks := s.blocks[p := block]) }

  /** The assumptions of the theorem, as limits on what may happen: a lease does not expire
      inside its block, it is released only at the end of the block, and a container does not
      die between resolving and the end of its upload. */
  ghost predicate Assumed(s: Service, step: Lease.Step) {
    match step
    case Tick(seconds) => forall p :: BlockOf(s, p) != Outside ==>
        Lease.PhaseOf(s.lease, p).Holding? && s.lease.now + seconds <= Lease.PhaseOf(s.lease, p).body.expiresAt
    case Release(p) => BlockOf(s, p) == Finished
    case Die(p) => !BlockOf(s, p).Up?
    case _ => true
  }

  predicate LeavesBlock(step: Lease.Step) { step.Release? || step.Die? }

  /** The run after a resolution awaits nothing, or a decision never issued before. */
  predicate FreshOutcome(s: Service, changes: map<Key, File>) {
    && SNAPSHOT_KEY in changes && changes[SNAPSHOT_KEY].Snapshot?
    && (changes[SNAPSHOT_KEY].pending.Some? ==> changes[SNAPSHOT_KEY].pending.value !in s.issued)
  }

  predicate Awaiting(files: map<Key, File>) {
    SNAPSHOT_KEY in files && files[SNAPSHOT_KEY].Snapshot? && files[SNAPSHOT_KEY].pending.Some?
  }

  /** One step; one that is not enabled changes nothing. */
  ghost function Take(s: Service, ttl: nat, step: Step): Service {
    match step
    case LeaseStep(l) =>
      if !Assumed(s, l) then s
      else
        var after := s.(lease := Lease.Take(s.lease, ttl, l));
        if LeavesBlock(l) then WithBlock(after, l.process, Outside) else after
    case Enter(p) =>
      if BlockOf(s, p) == Outside && Lease.HoldsNow(s.lease, p) then WithBlock(s, p, Down(s.bucket.Keys)) else s
    case Fetch(p, key) =>
      if BlockOf(s, p).Down? && key in BlockOf(s, p).todo && key in s.bucket
      then WithBlock(s, p, Down(BlockOf(s, p).todo - {key})).(caches := s.caches[p := CacheOf(s,
        p)[key := s.bucket[key]]])
      else s
    case Refuse(p) =>
      if BlockOf(s, p) == Down({}) && !Awaiting(CacheOf(s, p)) then WithBlock(s, p, Finished) else s
    case Resolve(p, changes) =>
      if BlockOf(s, p) == Down({}) && Awaiting(CacheOf(s, p)) && FreshOutcome(s, changes)
      then
        var decision := CacheOf(s, p)[SNAPSHOT_KEY].pending.value;
        var files := CacheOf(s, p) + changes;
        WithBlock(s, p, Up(files.Keys)).(
          caches := s.caches[p := files], resolved := s.resolved + [decision],
          issued := s.issued + (if files[SNAPSHOT_KEY].pending.Some? then {files[SNAPSHOT_KEY].pending.value} else {}))
      else s
    case Put(p, key) =>
      if BlockOf(s, p).Up? && key in BlockOf(s, p).todo && key in CacheOf(s, p)
      then WithBlock(s, p, Up(BlockOf(s, p).todo - {key})).(bucket := s.bucket[key := CacheOf(s, p)[key]])
      else s
    case Finish(p) =>
      if BlockOf(s, p) == Up({}) then WithBlock(s, p, Finished) else s
  }

  predicate NoDuplicates(ids: seq<Id>) { forall i, j :: 0 <= i < j < |ids| ==> ids[i] != ids[j] }

  predicate Undecided(s: Service, file: File) {
    file.Snapshot? && (file.pending.Some? ==> file.pending.value in s.issued && file.pending.value !in s.resolved)
  }

  predicate Inside(s: Service, p: Id) { BlockOf(s, p) != Outside }

  predicate DownOk(s: Service, p: Id) {
    BlockOf(s, p).Down? ==>
      forall key :: key in s.bucket && key !in BlockOf(s, p).todo ==>
        key in CacheOf(s, p) && CacheOf(s, p)[key] == s.bucket[key]
  }

  predicate UpOk(s: Service, p: Id) {
    BlockOf(s, p).Up? ==>
      && SNAPSHOT_KEY in CacheOf(s, p) && Undecided(s, CacheOf(s, p)[SNAPSHOT_KEY])
      && (SNAPSHOT_KEY !in BlockOf(s, p).todo ==>
        SNAPSHOT_KEY in s.bucket && s.bucket[SNAPSHOT_KEY] == CacheOf(s, p)[SNAPSHOT_KEY])
  }

  ghost predicate Inv(s: Service) {
    && Lease.Inv(s.lease)
    && (forall p :: Inside(s, p) ==> Lease.HoldsNow(s.lease, p))
    && SNAPSHOT_KEY in s.bucket
    && NoDuplicates(s.resolved) && (forall id :: id in s.resolved ==> id in s.issued)
    && ((forall p :: !BlockOf(s, p).Up?) ==> Undecided(s, s.bucket[SNAPSHOT_KEY]))
    && (forall p :: DownOk(s, p) && UpOk(s, p))
  }

  /** Only one container is inside its block. */
  lemma OneInside(s: Service, p: Id, q: Id)
    requires Inv(s) && Inside(s, p) && Inside(s, q)
    ensures p == q
  {
    assert Lease.HoldsNow(s.lease, p) && Lease.HoldsNow(s.lease, q);
    assert Lease.Engaged(s.lease, p) && Lease.Engaged(s.lease, q);
  }

  lemma LeaseStepKeeps(s: Service, ttl: nat, l: Lease.Step)
    requires Inv(s)
    ensures Inv(Take(s, ttl, LeaseStep(l)))
  {
    var after := Take(s, ttl, LeaseStep(l));
    Lease.StepKeeps(s.lease, ttl, l);
    if Assumed(s, l) {
      forall p | Inside(after, p) ensures Lease.HoldsNow(after.lease, p) {
        assert Inside(s, p);
      }
      forall p ensures BlockOf(after, p) == BlockOf(s, p) || (!BlockOf(s, p).Up? && BlockOf(after, p) == Outside) {}
      forall p ensures DownOk(after, p) && UpOk(after, p) {
        assert DownOk(s, p) && UpOk(s, p);
      }
      if forall p :: !BlockOf(after, p).Up? {
        forall p ensures !BlockOf(s, p).Up? {
          assert !BlockOf(after, p).Up?;
        }
      }
    }
  }

  lemma OthersOutside(s: Service, p: Id)
    requires Inv(s) && Inside(s, p)
    ensures forall q :: q != p ==> BlockOf(s, q) == Outside
  {
    forall q | q != p ensures BlockOf(s, q) == Outside {
      if Inside(s, q) {
        OneInside(s, p, q);
      }
    }
  }

  lemma BlockStepKeeps(s: Service, ttl: nat, step: Step)
    requires Inv(s) && !step.LeaseStep? && !step.Enter?
    ensures Inv(Take(s, ttl, step))
  {
    var p, after := step.container, Take(s, ttl, step);
    if after != s {
      assert Inside(s, p);
      OthersOutside(s, p);
      assert DownOk(s, p) && UpOk(s, p);
      forall q ensures q != p ==> BlockOf(after, q) == BlockOf(s, q) == Outside {
        assert q != p ==> BlockOf(after, q) == BlockOf(s, q);
      }
      assert Inside(after, p);
      if !BlockOf(s, p).Up? {
        assert forall q :: !BlockOf(s, q).Up?;
      }
      forall q ensures DownOk(after, q) && UpOk(after, q) {
        assert DownOk(s, q) && UpOk(s, q);
      }
      assert (forall q :: !BlockOf(after, q).Up?) ==> !BlockOf(after, p).Up?;
    }
  }

  lemma EnterKeeps(s: Service, ttl: nat, p: Id)
    requires Inv(s)
    ensures Inv(Take(s, ttl, Enter(p)))
  {
    var after := Take(s, ttl, Enter(p));
    forall q ensures BlockOf(after, q) == BlockOf(s, q) || (q == p && BlockOf(after, q).Down?) {}
    forall q | Inside(after, q) ensures Lease.HoldsNow(after.lease, q) {
      assert Inside(s, q) ==> Lease.HoldsNow(s.lease, q);
    }
    forall q ensures DownOk(after, q) && UpOk(after, q) {
      assert DownOk(s, q) && UpOk(s, q);
    }
    if forall q :: !BlockOf(after, q).Up? {
      forall q ensures !BlockOf(s, q).Up? {
        assert !BlockOf(after, q).Up?;
      }
    }
  }

  ghost function Run(s: Service, ttl: nat, steps: seq<Step>): Service
    decreases |steps|
  {
    if steps == [] then s else Run(Take(s, ttl, steps[0]), ttl, steps[1..])
  }

  lemma {:induction false} RunKeeps(s: Service, ttl: nat, steps: seq<Step>)
    requires Inv(s)
    ensures Inv(Run(s, ttl, steps))
    decreases |steps|
  {
    if steps != [] {
      match steps[0] {
        case LeaseStep(l) => LeaseStepKeeps(s, ttl, l);
        case Enter(p) => EnterKeeps(s, ttl, p);
        case _ => BlockStepKeeps(s, ttl, steps[0]);
      }
      RunKeeps(Take(s, ttl, steps[0]), ttl, steps[1..]);
    }
  }

  /** The bucket holds a run that awaits a decision; every container may start from any cache,
      however old. */
  predicate Initial(s: Service) {
    && s.lease == Lease.Start() && s.blocks == map[] && s.resolved == []
    && SNAPSHOT_KEY in s.bucket && s.bucket[SNAPSHOT_KEY].Snapshot?
    && (s.bucket[SNAPSHOT_KEY].pending.Some? ==> s.bucket[SNAPSHOT_KEY].pending.value in s.issued)
  }

  /** Single winner: on every interleaving of any number of containers, whatever is in their
      caches, no decision is resolved twice. */
  lemma {:induction false} NoDecisionResolvedTwice(s: Service, ttl: nat, steps: seq<Step>)
    requires Initial(s)
    ensures NoDuplicates(Run(s, ttl, steps).resolved)
  {
    assert Inv(s);
    RunKeeps(s, ttl, steps);
  }
}
