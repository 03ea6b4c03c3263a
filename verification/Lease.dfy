/** The per-run lease over one lock object with conditional writes: any number of processes,
    one clock, every step of every process interleaved. Bodies carry a fresh token, so the
    entity tag of a body is modelled by the body itself. */
module Lease {
  import opened Domain

  datatype Body = Body(owner: Id, expiresAt: int)

  /** Where a process is in `_acquire` and `hold`. */
  datatype Phase =
    | Idle
    | Creating(body: Body)
    | Reading(body: Body)
    | Comparing(body: Body, seen: Body)
    | Recreating(body: Body)
    | TakingOver(body: Body, seen: Body)
    | Holding(body: Body)

  datatype World = World(now: int, lock: Option<Body>, phases: map<Id, Phase>, tokens: set<Id>)

  datatype Step =
    | Tick(seconds: nat)
    | Begin(process: Id, token: Id)
    | Create(process: Id)
    | Read(process: Id)
    | Compare(process: Id)
    | Recreate(process: Id)
    | TakeOver(process: Id)
    | Release(process: Id)
    | Die(process: Id)

  function PhaseOf(w: World, p: Id): Phase { if p in w.phases then w.phases[p] else Idle }

  function With(w: World, p: Id, phase: Phase): World { w.(phases := w.phases[p := phase]) }

  /** One step; a step that is not enabled changes nothing. */
  function Take(w: World, ttl: nat, step: Step): World {
    match step
    case Tick(seconds) => w.(now := w.now + seconds)
    case Begin(p, token) =>
      if PhaseOf(w, p) == Idle && token !in w.tokens
      then With(w, p, Creating(Body(token, w.now + ttl))).(tokens := w.tokens + {token}) else w
    case Create(p) =>
      (match PhaseOf(w, p)
       case Creating(body) =>
         if w.lock.None? then With(w, p, Holding(body)).(lock := Some(body)) else With(w, p, Reading(body))
       case _ => w)
    case Read(p) =>
      (match PhaseOf(w, p)
       case Reading(body) =>
         if w.lock.None? then With(w, p, Recreating(body)) else With(w, p, Comparing(body, w.lock.value))
       case _ => w)
    case Compare(p) =>
      (match PhaseOf(w, p)
       case Comparing(body, seen) =>
         if w.now <= seen.expiresAt then With(w, p, Idle) else With(w, p, TakingOver(body, seen))
       case _ => w)
    case Recreate(p) =>
      (match PhaseOf(w, p)
       case Recreating(body) =>
         if w.lock.None? then With(w, p, Holding(body)).(lock := Some(body)) else With(w, p, Idle)
       case _ => w)
    case TakeOver(p) =>
      (match PhaseOf(w, p)
       case TakingOver(body, seen) =>
         if w.lock == Some(seen) then With(w, p, Holding(body)).(lock := Some(body)) else With(w, p, Idle)
       case _ => w)
    case Release(p) =>
      (match PhaseOf(w, p)
       case Holding(body) =>
         With(w, p, Idle).(lock := if w.lock == Some(body) then None else w.lock)
       case _ => w)
    case Die(p) => With(w, p, Idle)
  }

  predicate HoldsNow(w: World, p: Id) {
    PhaseOf(w, p).Holding? && w.now <= PhaseOf(w, p).body.expiresAt
  }

  predicate Engaged(w: World, p: Id) { PhaseOf(w, p) != Idle }

  /** Tokens are never shared; a process that has not put its body down has not put it down;
      one that takes over saw an expired lease; and an unexpired holder owns the lock. */
  ghost predicate Inv(w: World) {
    && (forall p :: Engaged(w, p) ==> PhaseOf(w, p).body.owner in w.tokens)
    && (forall p, q :: Engaged(w, p) && Engaged(w, q) && PhaseOf(w, p).body.owner == PhaseOf(w, q).body.owner ==>
      p == q)
    && (w.lock.Some? ==> w.lock.value.owner in w.tokens)
    && (forall p :: Engaged(w, p) && !PhaseOf(w, p).Holding? && w.lock.Some? ==>
      w.lock.value.owner != PhaseOf(w, p).body.owner)
    && (forall p :: PhaseOf(w, p).TakingOver? ==> PhaseOf(w, p).seen.expiresAt < w.now)
    && (forall p :: HoldsNow(w, p) ==> w.lock == Some(PhaseOf(w, p).body))
  }

  lemma StepKeeps(w: World, ttl: nat, step: Step)
    requires Inv(w)
    ensures Inv(Take(w, ttl, step))
  {
    var after := Take(w, ttl, step);
    forall p ensures PhaseOf(after, p) == PhaseOf(w, p) || (!step.Tick? && step.process == p) {}
    forall p | Engaged(after, p) ensures PhaseOf(after, p).body.owner in after.tokens {
      assert Engaged(w, p) ==> PhaseOf(w, p).body.owner in w.tokens;
    }
    forall p | HoldsNow(after, p) ensures after.lock == Some(PhaseOf(after, p).body) {
      assert HoldsNow(w, p) ==> w.lock == Some(PhaseOf(w, p).body);
    }
  }

  function Run(w: World, ttl: nat, steps: seq<Step>): World
    decreases |steps|
  {
    if steps == [] then w else Run(Take(w, ttl, steps[0]), ttl, steps[1..])
  }

  function Start(): World { World(0, None, map[], {}) }

  lemma {:induction false} RunKeeps(w: World, ttl: nat, steps: seq<Step>)
    requires Inv(w)
    ensures Inv(Run(w, ttl, steps))
    decreases |steps|
  {
    if steps != [] {
      StepKeeps(w, ttl, steps[0]);
      RunKeeps(Take(w, ttl, steps[0]), ttl, steps[1..]);
    }
  }

  /** Mutual exclusion: on every interleaving, at most one process holds an unexpired lease. */
  lemma {:induction false} AtMostOneHolder(ttl: nat, steps: seq<Step>, p: Id, q: Id)
    requires HoldsNow(Run(Start(), ttl, steps), p) && HoldsNow(Run(Start(), ttl, steps), q)
    ensures p == q
  {
    RunKeeps(Start(), ttl, steps);
    var w := Run(Start(), ttl, steps);
    assert w.lock == Some(PhaseOf(w, p).body) && w.lock == Some(PhaseOf(w, q).body);
    assert Engaged(w, p) && Engaged(w, q);
  }

  /** A release, however late, removes no lock but its own: another holder keeps its lease. */
  lemma {:induction false} LateReleaseIsHarmless(ttl: nat, steps: seq<Step>, p: Id, q: Id)
    requires p != q && HoldsNow(Run(Start(), ttl, steps), q)
    ensures var w := Run(Start(), ttl, steps);
            Take(w, ttl, Release(p)).lock == w.lock && HoldsNow(Take(w, ttl, Release(p)), q)
  {
    RunKeeps(Start(), ttl, steps);
    var w := Run(Start(), ttl, steps);
    assert w.lock == Some(PhaseOf(w, q).body);
    assert Engaged(w, q) && (PhaseOf(w, p).Holding? ==> Engaged(w, p));
  }

  lemma {:induction false} RunTwice(w: World, ttl: nat, first: seq<Step>, second: seq<Step>)
    ensures Run(w, ttl, first + second) == Run(Run(w, ttl, first), ttl, second)
    decreases |first|
  {
    if first == [] {
      assert first + second == second;
    } else {
      assert (first + second)[1..] == first[1..] + second;
      RunTwice(Take(w, ttl, first[0]), ttl, first[1..], second);
    }
  }

  lemma {:induction false} OneStep(w: World, ttl: nat, step: Step)
    ensures Run(w, ttl, [step]) == Take(w, ttl, step)
  {
    assert [step][1..] == [];
  }

  /** What a lone process does to take over an expired lease. */
  function TakeoverSteps(p: Id, token: Id): seq<Step> {
    [Begin(p, token)] + ([Create(p)] + ([Read(p)] + ([Compare(p)] + [TakeOver(p)])))
  }

  /** A holder that died blocks nobody past its expiry: one process alone takes the lease
      over. */
  lemma {:induction false} StaleLeaseIsTakenOver(w: World, ttl: nat, p: Id, token: Id)
    requires w.lock.Some? && w.lock.value.expiresAt < w.now
    requires PhaseOf(w, p) == Idle && token !in w.tokens
    ensures var after := Run(w, ttl, TakeoverSteps(p, token));
            HoldsNow(after, p) && forall q :: q != p ==> PhaseOf(after, q) == PhaseOf(w, q)
    ensures Run(w, ttl, TakeoverSteps(p, token)).now == w.now
  {
    var w1 := Take(w, ttl, Begin(p, token));
    var w2 := Take(w1, ttl, Create(p));
    var w3 := Take(w2, ttl, Read(p));
    var w4 := Take(w3, ttl, Compare(p));
    OneStep(w, ttl, Begin(p, token));
    OneStep(w1, ttl, Create(p));
    OneStep(w2, ttl, Read(p));
    OneStep(w3, ttl, Compare(p));
    OneStep(w4, ttl, TakeOver(p));
    RunTwice(w, ttl, [Begin(p, token)], [Create(p)] + ([Read(p)] + ([Compare(p)] + [TakeOver(p)])));
    RunTwice(w1, ttl, [Create(p)], [Read(p)] + ([Compare(p)] + [TakeOver(p)]));
    RunTwice(w2, ttl, [Read(p)], [Compare(p)] + [TakeOver(p)]);
    RunTwice(w3, ttl, [Compare(p)], [TakeOver(p)]);
  }

  /** Expiry matters, and a run shows it: a process still inside its block past its expiry
      coexists with the one that took over. */
  lemma ExpiredHolderCoexists(ttl: nat, p: Id, q: Id)
    requires p != q
    ensures exists steps :: var w := Run(Start(), ttl, steps);
              PhaseOf(w, p).Holding? && !HoldsNow(w, p) && HoldsNow(w, q)
  {
    var w1 := Take(Start(), ttl, Begin(p, 0));
    var w2 := Take(w1, ttl, Create(p));
    var w3 := Take(w2, ttl, Tick(ttl + 1));
    var first := [Begin(p, 0)] + ([Create(p)] + [Tick(ttl + 1)]);
    OneStep(Start(), ttl, Begin(p, 0));
    OneStep(w1, ttl, Create(p));
    OneStep(w2, ttl, Tick(ttl + 1));
    RunTwice(Start(), ttl, [Begin(p, 0)], [Create(p)] + [Tick(ttl + 1)]);
    RunTwice(w1, ttl, [Create(p)], [Tick(ttl + 1)]);
    assert PhaseOf(w3, p) == Holding(Body(0, ttl)) && w3.lock == Some(Body(0, ttl)) && w3.now == ttl + 1;
    StaleLeaseIsTakenOver(w3, ttl, q, 1);
    RunTwice(Start(), ttl, first, TakeoverSteps(q, 1));
    var w := Run(Start(), ttl, first + TakeoverSteps(q, 1));
    assert PhaseOf(w, p).Holding? && !HoldsNow(w, p) && HoldsNow(w, q);
  }
}
