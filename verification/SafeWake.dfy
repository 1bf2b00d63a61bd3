/** Wakes, recoveries and giving up over the same runs: what the worker did for an operation, from the trace
    and the operations alone. The effects of a wake come in order; a wake that succeeded was never stopped or
    released by its advances; one that was released was stopped before and is closed as never online; and no
    session is ever closed with the wrong word. */
module SafeWake {
  import opened Base
  import opened WorldModel
  import opened WorldPlans
  import opened WorldLaws
  import opened WorldProtocol
  import opened SafeSleep

  // ----- the order of a wake

  /** provision 1, restore 2, configure 3, start 4, stop 5, release and close as never online 6. */
  function Rung(e: Effect): nat {
    match e
    case Provision(_) => 1
    case Restore(_) => 2
    case Configure(_) => 3
    case Start => 4
    case StopGame => 5
    case ReleaseRuntime(_) => 6
    case CloseSession(reachedOnline) => if reachedOnline then 0 else 6
    case _ => 0
  }

  /** The highest rung a phase may have reached. */
  function Top(p: Phase): nat {
    match p
    case ProvisioningRuntime => 1
    case RestoringWorld => 2
    case ApplyingConfiguration => 3
    case StartingGame => 4
    case CheckingGameHealth => 4
    case StoppingGame => 5
    case ReleasingRuntime => 6
    case _ => 0
  }

  /** The rungs that are behind a phase. */
  function Behind(p: Phase): nat {
    match p
    case RestoringWorld => 1
    case ApplyingConfiguration => 2
    case StartingGame => 3
    case CheckingGameHealth => 4
    case StoppingGame => 4
    case ReleasingRuntime => 5
    case _ => 0
  }

  ghost predicate Climbed(effects: seq<Effect>, rung: nat) { exists i :: 0 <= i < |effects| && Rung(effects[i]) == rung }

  /** Rungs never go down, and each comes after the rung before it. */
  ghost predicate Climbing(effects: seq<Effect>) {
    && (forall i, j :: 0 <= i < j < |effects| ==> Rung(effects[i]) <= Rung(effects[j]))
    && (forall j :: 0 <= j < |effects| ==> 1 <= Rung(effects[j]) <= 6)
    && (forall j :: 0 <= j < |effects| && Rung(effects[j]) > 1 ==> Climbed(effects[..j], Rung(effects[j]) - 1))
  }

  /** Restoring and releasing is done with the runtime the operation carries. */
  predicate UsesRuntime(e: Effect, runtime: Option<Runtime>) {
    e.Restore? || e.ReleaseRuntime? ==> runtime == Some(e.runtime)
  }

  /** The trace fits a wake at this phase with this runtime. */
  ghost predicate Underway(effects: seq<Effect>, phase: Phase, runtime: Option<Runtime>) {
    && phase != Complete && Climbing(effects)
    && (forall i :: 0 <= i < |effects| ==> Rung(effects[i]) <= Top(phase) && UsesRuntime(effects[i], runtime))
    && (forall n :: 1 <= n <= Behind(phase) ==> Climbed(effects, n))
    && (Behind(phase) == 0 <==> runtime == None)
    && (runtime.Some? ==> Provision(runtime.value) in effects)
  }

  /** A wake that succeeded: provisioned, restored, configured, started; not stopped, released or closed. */
  ghost predicate Woken(effects: seq<Effect>, o: Operation) {
    && Climbing(effects) && o.runtime.Some? && Provision(o.runtime.value) in effects && Restore(o.runtime.value) in effects
    && Climbed(effects, 3) && Start in effects
    && (forall x :: x in effects ==> !x.StopGame? && !x.ReleaseRuntime? && !x.CloseSession? && !x.CancelSession?)
  }

  /** A wake that failed its health check: started, stopped, released, and closed as never online. */
  ghost predicate Undone(effects: seq<Effect>, o: Operation) {
    && Climbing(effects) && o.runtime.Some? && Provision(o.runtime.value) in effects && Start in effects
    && StopGame in effects && ReleaseRuntime(o.runtime.value) in effects && CloseSession(false) in effects
  }

  lemma ClimbedMore(effects: seq<Effect>, e: Effect, rung: nat)
    requires Climbed(effects, rung)
    ensures Climbed(effects + [e], rung)
  {
    var i :| 0 <= i < |effects| && Rung(effects[i]) == rung;
    assert (effects + [e])[i] == effects[i];
  }

  lemma ClimbingMore(effects: seq<Effect>, e: Effect)
    requires Climbing(effects) && 1 <= Rung(e) <= 6
    requires forall i :: 0 <= i < |effects| ==> Rung(effects[i]) <= Rung(e)
    requires Rung(e) > 1 ==> Climbed(effects, Rung(e) - 1)
    ensures Climbing(effects + [e])
  {
    hide Climbed;
    var more := effects + [e];
    assert more[..|effects|] == effects;
    forall j | 0 <= j < |more| && Rung(more[j]) > 1 ensures Climbed(more[..j], Rung(more[j]) - 1) {
      if j < |effects| {
        assert more[..j] == effects[..j] && more[j] == effects[j];
      }
    }
  }

  lemma WakingMore(effects: seq<Effect>, phase: Phase, runtime: Option<Runtime>, e: Effect)
    requires Underway(effects, phase, runtime) && UsesRuntime(e, runtime)
    requires Rung(e) == Top(phase) == Behind(phase) + 1
    ensures Underway(effects + [e], phase, runtime)
  {
    hide Climbed;
    assert Top(phase) <= 6;
    assert Climbing(effects + [e]) by {
      hide Climbing;
      ClimbingMore(effects, e);
    }
    hide Climbing, Rung, Top, UsesRuntime;
    forall n | 1 <= n <= Behind(phase) ensures Climbed(effects + [e], n) {
      ClimbedMore(effects, e, n);
    }
  }

  lemma WakeEffects(o: Operation, w: World, e: Outside)
    requires Live(o) && o.kind.Wake?
    ensures forall x :: x in AdvanceEffects(o, w, e) ==>
              Rung(x) == Top(o.phase) == Behind(o.phase) + 1 && UsesRuntime(x, o.runtime)
  {
  }

  lemma {:induction false} WakingEffects(effects: seq<Effect>, o: Operation, w: World, e: Outside, n: nat)
    requires Underway(effects, o.phase, o.runtime) && Live(o) && o.kind.Wake? && n <= |AdvanceEffects(o, w, e)|
    ensures Underway(effects + AdvanceEffects(o, w, e)[..n], o.phase, o.runtime)
  {
    hide Underway, AdvanceEffects;
    if n == 0 {
      assert effects + AdvanceEffects(o, w, e)[..n] == effects;
    } else {
      WakingEffects(effects, o, w, e, n - 1);
      var before := effects + AdvanceEffects(o, w, e)[..n - 1];
      var x := AdvanceEffects(o, w, e)[n - 1];
      assert x in AdvanceEffects(o, w, e);
      WakeEffects(o, w, e);
      WakingMore(before, o.phase, o.runtime, x);
      assert before + [x] == effects + AdvanceEffects(o, w, e)[..n];
    }
  }

  lemma RungsAre(effects: seq<Effect>)
    ensures Climbed(effects, 4) ==> Start in effects
    ensures Climbed(effects, 5) ==> StopGame in effects
  {
  }

  lemma RestoredWith(effects: seq<Effect>, runtime: Option<Runtime>)
    requires Climbed(effects, 2) && forall i :: 0 <= i < |effects| ==> UsesRuntime(effects[i], runtime)
    ensures runtime.Some? && Restore(runtime.value) in effects
  {
    var i :| 0 <= i < |effects| && Rung(effects[i]) == 2;
    assert effects[i].Restore?;
  }

  /** What an advance commits fits the trace once its effects are done. */
  ghost predicate Fitting(effects: seq<Effect>, o: Operation) {
    && Climbing(effects)
    && (Live(o) ==> Underway(effects, o.phase, o.runtime))
    && (o.status.Succeeded? ==> Woken(effects, o))
    && (o.status.NeedsAttention? && o.phase.Complete? ==> Undone(effects, o))
  }

  lemma WakeMoves(effects: seq<Effect>, o: Operation, w: World, e: Outside)
    requires Underway(effects, o.phase, o.runtime) && o.kind.Wake? && Live(o) && PlanAdvance(o, w, e).SaveOp?
    requires forall x :: x in AdvanceEffects(o, w, e) ==> x in effects
    requires Live(PlanAdvance(o, w, e).saved)
    ensures var o' := PlanAdvance(o, w, e).saved; Underway(effects, o'.phase, o'.runtime)
    ensures Climbing(effects)
  {
    hide Climbing;
    var o' := PlanAdvance(o, w, e).saved;
    var xs := AdvanceEffects(o, w, e);
    if Behind(o.phase) < Behind(o'.phase) {
      assert |xs| > 0 && xs[0] in xs && Rung(xs[0]) == Behind(o'.phase);
      var i :| 0 <= i < |effects| && effects[i] == xs[0];
      assert Climbed(effects, Behind(o'.phase));
    }
  }

  lemma WakeEnds(effects: seq<Effect>, o: Operation, w: World, e: Outside)
    requires Underway(effects, o.phase, o.runtime) && o.kind.Wake? && Live(o) && PlanAdvance(o, w, e).SaveOp?
    requires forall x :: x in AdvanceEffects(o, w, e) ==> x in effects
    requires !Live(PlanAdvance(o, w, e).saved)
    ensures Fitting(effects, PlanAdvance(o, w, e).saved)
  {
    hide Climbing, Climbed;
    var xs := AdvanceEffects(o, w, e);
    assert Climbing(effects) && (o.phase.CheckingGameHealth? || o.phase.ReleasingRuntime?);
    assert Behind(o.phase) >= 4;
    assert Climbed(effects, 2) && Climbed(effects, 3) && Climbed(effects, 4);
    RungsAre(effects);
    RestoredWith(effects, o.runtime);
    if o.phase.ReleasingRuntime? {
      assert Climbed(effects, 5);
      assert xs[0] in xs && xs[1] in xs;
    } else {
      forall x | x in effects ensures Rung(x) <= 4 && Rung(x) >= 1 {
        var i :| 0 <= i < |effects| && effects[i] == x;
        assert Climbing(effects) ==> Rung(effects[i]) >= 1 by { Bounded(effects, i); }
      }
    }
  }

  lemma Bounded(effects: seq<Effect>, i: nat)
    requires i < |effects|
    ensures Climbing(effects) ==> 1 <= Rung(effects[i]) <= 6
  {
  }

  lemma WakeCommits(effects: seq<Effect>, o: Operation, w: World, e: Outside)
    requires Underway(effects, o.phase, o.runtime) && o.kind.Wake? && Live(o) && PlanAdvance(o, w, e).SaveOp?
    requires forall x :: x in AdvanceEffects(o, w, e) ==> x in effects
    ensures Fitting(effects, PlanAdvance(o, w, e).saved)
  {
    hide Underway, PlanAdvance, AdvanceEffects;
    if Live(PlanAdvance(o, w, e).saved) {
      WakeMoves(effects, o, w, e);
    } else {
      WakeEnds(effects, o, w, e);
    }
  }

  // ----- what every entry of the trace says

  /** How far the advances of a wake can have come, done or only begun. */
  function Peak(o: Operation): nat { if Live(o) then Top(o.phase) else if o.status.Succeeded? then 4 else 6 }

  /** What may have been done for an operation: closing says "online" for a sleep and "never online" for a wake;
      a recovery starts its game and does nothing else; giving up only closes, and only wakes. */
  predicate Proper(p: Performed, o: Operation) {
    && (o.kind.Wake? && !p.closing ==> 1 <= Rung(p.effect) <= Peak(o))
    && (p.effect.CloseSession? ==> (o.kind.Wake? && !p.effect.reachedOnline) || (o.kind.Sleep? && p.effect.reachedOnline))
    && (o.kind.Recover? ==> p.effect.Start?)
    && (p.effect.CancelSession? ==> p.closing)
    && (p.closing ==> o.kind.Wake? && (p.effect.ReleaseRuntime? || p.effect.CloseSession? || p.effect.CancelSession?))
    && (p.closing && p.effect.ReleaseRuntime? ==> o.runtime == Some(p.effect.runtime))
  }

  ghost predicate AllProper(s: Shop) {
    forall p :: p in s.trace ==>
      p.operation in s.system.used
      && (p.operation in s.system.repo.operations ==> Proper(p, s.system.repo.operations[p.operation]))
  }

  // ----- what holds after every turn

  /** A recovery whose health was checked had its game started. */
  ghost predicate Restarted(effects: seq<Effect>, o: Operation) {
    (Live(o) && o.phase.CheckingGameHealth?) || o.status.Succeeded? ==> Start in effects
  }

  ghost predicate OperationFitting(done: seq<Effect>, o: Operation) {
    (o.kind.Wake? ==> Fitting(done, o)) && (o.kind.Recover? ==> Restarted(done, o))
  }

  ghost predicate StoredFits(s: Shop, id: Id) {
    id in s.system.repo.operations ==> OperationFitting(Own(s.trace, id), s.system.repo.operations[id])
  }

  /** The stored operation is still where the worker read it, or somebody else ended it. */
  predicate StillOpen(o: Operation, stored: Operation) {
    && stored.kind == o.kind && stored.runtime == o.runtime
    && (if Live(stored) then stored.phase == o.phase && stored.status == o.status
        else stored.status.Failed? || (stored.status.NeedsAttention? && !stored.phase.Complete?))
  }

  ghost predicate HeldWake(s: Shop, o: Operation) {
    && o.id in s.system.used
    && (o.id in s.system.repo.operations ==> s.system.repo.operations[o.id].kind == o.kind)
    && (Live(o) && !o.kind.Sleep? ==>
          && o.phase != Complete && OperationFitting(Own(s.trace, o.id), o)
          && (o.id in s.system.repo.operations ==> StillOpen(o, s.system.repo.operations[o.id])))
  }

  /** The effects of what is to be committed are in the trace. */
  ghost predicate DueDone(s: Shop) {
    Held(s).Some? ==>
      var (o, w) := Held(s).value;
      && (s.due.Advancing? && Live(o) ==> forall x :: x in AdvanceEffects(o, w, s.due.answers) ==> x in Own(s.trace, o.id))
      && (s.due.Ending? ==> forall x :: x in AttentionEffects(o) ==> Performed(o.id, x, true, true) in s.trace)
  }

  ghost predicate WorkerFits(s: Shop) {
    var m := MemoryOf(s.system, WORKER);
    m.operation.Some? ==> HeldWake(s, m.operation.value)
  }

  ghost predicate WakeSafe(s: Shop) {
    && Invariant(s.system) && WorkerFits(s) && DueDone(s) && AllProper(s)
    && (forall id :: StoredFits(s, id))
    && (forall id :: id !in s.system.used ==> Own(s.trace, id) == [])
    && (!s.due.Nothing? ==> Held(s).Some?)
  }

  // ----- everybody else

  /** Clients that do not advance leave an operation where it is, or end it as failed or given up. */
  predicate Spared(o: Operation, o': Operation) {
    && o'.kind == o.kind && o'.id == o.id && o'.runtime == o.runtime
    && (|| (o'.status == o.status && o'.phase == o.phase)
        || (Live(o) && (o'.status.Failed? || (o'.status.NeedsAttention? && o'.phase == o.phase))))
  }

  lemma SavesSpare(m: Memory, i: Intent)
    requires PlanFor(m, i).SaveOp? && !i.Advance?
    ensures m.operation.Some? && Spared(m.operation.value, PlanFor(m, i).saved)
    ensures PlanFor(m, i).saved.id == m.operation.value.id && PlanFor(m, i).expectedOp == m.operation.value.version
  {
    hide Propose, EmptySince, IdleElapsed, Recent;
  }

  predicate Begun(o: Operation) { o.phase.Requested? && o.status.Pending? && (o.kind.Wake? ==> o.runtime == None) }

  lemma BeginsFresh(m: Memory, i: Intent)
    requires PlanFor(m, i).BeginOp?
    ensures Begun(PlanFor(m, i).operation) && NewId(i) == Some(PlanFor(m, i).operation.id)
  {
    hide Propose, EmptySince, IdleElapsed, Recent;
  }

  ghost predicate AllSpared(r: Repo, t: Repo, used: set<Id>) {
    forall id :: id in t.operations ==>
      if id in r.operations then Spared(r.operations[id], t.operations[id]) else id !in used && Begun(t.operations[id])
  }

  lemma SparedStill(o: Operation)
    ensures Spared(o, o)
  {
  }

  lemma ActSpares(r: Repo, used: set<Id>, m: Memory, i: Intent)
    requires Consistent(r) && MemoryCoherent(r, used, m) && !i.Advance? && r.operations.Keys <= used
    requires NewId(i).Some? ==> NewId(i).value !in used
    ensures AllSpared(r, Apply(r, PlanFor(m, i)), used)
  {
    hide Consistent, Apply, PlanFor, MemoryCoherent, Spared, Begun;
    assert Filed(r) && IndexExact(r) by { Unfold(r); }
    var p := PlanFor(m, i);
    forall o ensures Spared(o, o) { SparedStill(o); }
    if p.BeginOp? {
      BeginsFresh(m, i);
    } else if p.SaveOp? {
      SavesSpare(m, i);
      Remembered(r, used, m);
    }
    AppliesOnce(r, p);
  }

  lemma EventSpares(s: System, e: Event)
    requires Invariant(s) && FreshEvent(s, e) && !(e.Act? && e.intent.Advance?)
    ensures AllSpared(s.repo, Next(s, e).repo, s.used)
  {
    RecallClient(s, e.client);
    assert Consistent(s.repo) && s.repo.operations.Keys <= s.used;
    hide Invariant, PlanFor, Apply, MemoryCoherent, Consistent, Spared, Begun;
    if e.Act? {
      ActSpares(s.repo, s.used, MemoryOf(s, e.client), e.intent);
    } else {
      forall o ensures Spared(o, o) { SparedStill(o); }
    }
  }

  lemma SparedFits(done: seq<Effect>, o: Operation, o': Operation)
    requires OperationFitting(done, o) && Spared(o, o')
    ensures OperationFitting(done, o')
  {
    hide Climbing, Climbed, Rung, Top;
  }

  lemma BegunFits(o: Operation)
    requires Begun(o)
    ensures OperationFitting([], o)
  {
  }

  lemma SparedStored(s: Shop, t: Shop)
    requires AllSpared(s.system.repo, t.system.repo, s.system.used) && t.trace == s.trace
    requires forall id :: StoredFits(s, id)
    requires forall id :: id !in s.system.used ==> Own(s.trace, id) == []
    ensures forall id :: StoredFits(t, id)
  {
    hide OperationFitting, Spared, Begun, Own;
    forall id ensures StoredFits(t, id) {
      assert StoredFits(s, id);
      if id in t.system.repo.operations {
        if id in s.system.repo.operations {
          SparedFits(Own(s.trace, id), s.system.repo.operations[id], t.system.repo.operations[id]);
        } else {
          BegunFits(t.system.repo.operations[id]);
        }
      }
    }
  }

  lemma ProperStill(p: Performed, o: Operation, o': Operation)
    requires Proper(p, o) && o'.kind == o.kind && (o.runtime.Some? ==> o'.runtime == o.runtime)
    requires o.kind.Wake? ==> Peak(o) <= Peak(o')
    ensures Proper(p, o')
  {
  }

  lemma SparedPeak(o: Operation, o': Operation)
    requires Spared(o, o')
    ensures Peak(o) <= Peak(o')
  {
  }

  lemma OpenPeak(o: Operation, stored: Operation)
    requires StillOpen(o, stored) && Live(o)
    ensures Peak(o) <= Peak(stored)
  {
  }

  lemma AdvancePeak(o: Operation, w: World, e: Outside)
    requires Live(o) && o.kind.Wake? && PlanAdvance(o, w, e).SaveOp?
    ensures Peak(o) <= Peak(PlanAdvance(o, w, e).saved)
  {
  }

  lemma SparedProper(s: Shop, t: Shop)
    requires AllSpared(s.system.repo, t.system.repo, s.system.used) && t.trace == s.trace && AllProper(s)
    requires s.system.used <= t.system.used
    ensures AllProper(t)
  {
    hide Proper;
    forall p | p in t.trace && p.operation in t.system.repo.operations ensures Proper(p, t.system.repo.operations[p.operation]) {
      var id := p.operation;
      SparedPeak(s.system.repo.operations[id], t.system.repo.operations[id]);
      ProperStill(p, s.system.repo.operations[id], t.system.repo.operations[id]);
    }
  }

  lemma OpenStill(o: Operation, a: Operation, b: Operation)
    requires StillOpen(o, a) && Spared(a, b) && o.phase != Complete
    ensures StillOpen(o, b)
  {
  }

  lemma SparedHeld(s: Shop, t: Shop)
    requires AllSpared(s.system.repo, t.system.repo, s.system.used) && t.trace == s.trace
    requires s.system.used <= t.system.used && MemoryOf(t.system, WORKER) == MemoryOf(s.system, WORKER) && WorkerFits(s)
    ensures WorkerFits(t)
  {
    hide OperationFitting, Own, Begun, StillOpen;
    var m := MemoryOf(s.system, WORKER);
    if m.operation.Some? {
      var o := m.operation.value;
      if o.id in t.system.repo.operations && Live(o) && !o.kind.Sleep? {
        OpenStill(o, s.system.repo.operations[o.id], t.system.repo.operations[o.id]);
      }
    }
  }

  // ----- turns

  lemma EffectsProper(o: Operation, w: World, e: Outside)
    ensures forall x, done :: x in AdvanceEffects(o, w, e) ==> Proper(Performed(o.id, x, false, done), o)
  {
  }

  lemma AttentionProper(o: Operation)
    ensures forall x, done :: x in AttentionEffects(o) ==> Proper(Performed(o.id, x, true, done), o)
    ensures AttentionEffects(o) != [] ==> Live(o) && o.kind.Wake?
  {
  }

  lemma AddsProper(s: Shop, id: Id, more: seq<Performed>)
    requires AllProper(s) && id in s.system.used && forall p :: p in more ==> p.operation == id
    requires id in s.system.repo.operations ==> forall p :: p in more ==> Proper(p, s.system.repo.operations[id])
    ensures AllProper(s.(trace := s.trace + more))
  {
    hide Proper;
  }

  lemma BrokenHas(id: Id, effects: seq<Effect>, n: nat, begun: bool, closing: bool)
    requires n < |effects|
    ensures forall p :: p in Broken(id, effects, n, begun, closing) ==>
              p.operation == id && p.effect in effects && p.closing == closing
  {
  }

  lemma TagHas(id: Id, effects: seq<Effect>, closing: bool)
    ensures forall p :: p in Tag(id, effects, closing) ==> p == Performed(id, p.effect, closing, true) && p.effect in effects
    ensures forall x :: x in effects ==> Performed(id, x, closing, true) in Tag(id, effects, closing)
  {
    forall x | x in effects ensures Performed(id, x, closing, true) in Tag(id, effects, closing) {
      var i :| 0 <= i < |effects| && effects[i] == x;
      assert Tag(id, effects, closing)[i] == Performed(id, x, closing, true);
    }
  }

  lemma AdvanceEntries(s: Shop, e: Outside, more: seq<Performed>)
    requires WakeSafe(s) && Held(s).Some?
    requires var (o, w) := Held(s).value;
             forall p :: p in more ==> p.operation == o.id && !p.closing && p.effect in AdvanceEffects(o, w, e)
    ensures AllProper(s.(trace := s.trace + more))
  {
    var (o, w) := Held(s).value;
    EffectsProper(o, w, e);
    assert HeldWake(s, o);
    hide AdvanceEffects, Invariant, OperationFitting, StoredFits, Own;
    forall p | p in more && o.id in s.system.repo.operations ensures Proper(p, s.system.repo.operations[o.id]) {
      assert p == Performed(o.id, p.effect, false, p.done);
      assert Live(o) by { if !Live(o) { NoEffects(o, w, e); } }
      if o.kind.Wake? {
        OpenPeak(o, s.system.repo.operations[o.id]);
      }
      assert Proper(p, o);
    }
    AddsProper(s, o.id, more);
  }

  lemma ClosingEntries(s: Shop, more: seq<Performed>)
    requires WakeSafe(s) && Held(s).Some?
    requires var o := Held(s).value.0; forall p :: p in more ==> p.operation == o.id && p.closing && p.effect in AttentionEffects(o)
    ensures AllProper(s.(trace := s.trace + more))
  {
    var o := Held(s).value.0;
    AttentionProper(o);
    assert HeldWake(s, o);
    hide AttentionEffects, Invariant, OperationFitting, StoredFits, Own;
    forall p | p in more && o.id in s.system.repo.operations ensures Proper(p, s.system.repo.operations[o.id]) {
      assert p == Performed(o.id, p.effect, true, p.done);
      OpenPeak(o, s.system.repo.operations[o.id]);
      ProperStill(p, o, s.system.repo.operations[o.id]);
    }
    AddsProper(s, o.id, more);
  }

  lemma MoreFits(done: seq<Effect>, o: Operation, w: World, e: Outside, n: nat)
    requires OperationFitting(done, o) && Live(o) && n <= |AdvanceEffects(o, w, e)|
    ensures OperationFitting(done + AdvanceEffects(o, w, e)[..n], o)
  {
    hide Underway, Woken, Undone, AdvanceEffects, Climbing;
    if o.kind.Wake? {
      WakingEffects(done, o, w, e, n);
      UnderwayClimbs(done + AdvanceEffects(o, w, e)[..n], o);
    }
  }

  lemma UnderwayClimbs(done: seq<Effect>, o: Operation)
    requires Underway(done, o.phase, o.runtime)
    ensures Climbing(done)
  {
  }

  lemma MoreFitsStored(done: seq<Effect>, more: seq<Effect>, o: Operation, stored: Operation)
    requires OperationFitting(done, stored) && OperationFitting(done + more, o) && StillOpen(o, stored) && Live(o)
    ensures OperationFitting(done + more, stored)
  {
    hide Underway, Woken, Undone, Climbing;
  }

  /** More effects of the advance the worker is at. */
  lemma EffectsFit(s: Shop, e: Outside, n: nat)
    requires WakeSafe(s) && Held(s).Some? && n <= |AdvanceEffects(Held(s).value.0, Held(s).value.1, e)|
    ensures var (o, w) := Held(s).value;
            var t := s.(trace := s.trace + Tag(o.id, AdvanceEffects(o, w, e)[..n], false));
            && (forall id :: StoredFits(t, id)) && WorkerFits(t)
            && (forall id :: id !in s.system.used ==> Own(t.trace, id) == [])
  {
    var (o, w) := Held(s).value;
    var effects := AdvanceEffects(o, w, e);
    var t := s.(trace := s.trace + Tag(o.id, effects[..n], false));
    assert HeldWake(s, o);
    OwnDistributes(s, o.id, effects, n);
    hide Invariant, Own, AdvanceEffects, OperationFitting, StillOpen, AllProper, DueDone;
    assert StoredFits(s, o.id);
    if !Live(o) {
      NoEffects(o, w, e);
      assert Own(t.trace, o.id) == Own(s.trace, o.id) + [];
      assert Own(t.trace, o.id) == Own(s.trace, o.id);
    } else if !o.kind.Sleep? {
      MoreFits(Own(s.trace, o.id), o, w, e, n);
      if o.id in s.system.repo.operations {
        MoreFitsStored(Own(s.trace, o.id), effects[..n], o, s.system.repo.operations[o.id]);
      }
    } else if o.id in s.system.repo.operations {
      SleepsFit(Own(t.trace, o.id), s.system.repo.operations[o.id]);
    }
    forall id ensures StoredFits(t, id) {
      assert StoredFits(s, id);
    }
  }

  lemma SleepsFit(done: seq<Effect>, o: Operation)
    requires o.kind.Sleep?
    ensures OperationFitting(done, o)
  {
  }

  lemma WakePerformsAll(s: Shop, e: Outside, n: nat, begun: bool)
    requires WakeSafe(s) && Held(s).Some? && s.due.Nothing?
    requires n >= |AdvanceEffects(Held(s).value.0, Held(s).value.1, e)|
    ensures WakeSafe(Step(s, Perform(e, n, begun)))
  {
    hide AdvanceEffects, AttentionEffects, Invariant, MemoryCoherent, OperationFitting, Proper;
    var t := Step(s, Perform(e, n, begun));
    var (o, w) := Held(s).value;
    var effects := AdvanceEffects(o, w, e);
    EffectsFit(s, e, |effects|);
    assert effects[..|effects|] == effects;
    TagHas(o.id, effects, false);
    AdvanceEntries(s, e, Tag(o.id, effects, false));
    OwnAppend(s.trace, o.id, effects, |effects|, o.id);
    hide Own;
    assert Held(t) == Held(s);
    assert AllProper(t) && WorkerFits(t);
    forall id ensures StoredFits(t, id) {
      assert StoredFits(s.(trace := t.trace), id);
    }
  }

  lemma WakeBreaksOff(s: Shop, e: Outside, n: nat, begun: bool)
    requires WakeSafe(s) && Held(s).Some? && s.due.Nothing?
    requires n < |AdvanceEffects(Held(s).value.0, Held(s).value.1, e)|
    ensures WakeSafe(Step(s, Perform(e, n, begun)))
  {
    hide AdvanceEffects, AttentionEffects, Invariant, MemoryCoherent, OperationFitting, Proper;
    var t := Step(s, Perform(e, n, begun));
    var (o, w) := Held(s).value;
    var effects := AdvanceEffects(o, w, e);
    EffectsFit(s, e, n);
    ForgetKeeps(s.system);
    BrokenHas(o.id, effects, n, begun, false);
    AdvanceEntries(s, e, Broken(o.id, effects, n, begun, false));
    forall x ensures Own(t.trace, x) == Own(s.trace + Tag(o.id, effects[..n], false), x) {
      OwnBroken(s.trace, o.id, effects, n, begun, x);
    }
    hide Own, WorkerFits, DueDone;
    forall id ensures StoredFits(t, id) {
      assert StoredFits(s.(trace := s.trace + Tag(o.id, effects[..n], false)), id);
    }
  }

  lemma WakePerform(s: Shop, e: Outside, n: nat, begun: bool)
    requires WakeSafe(s)
    ensures WakeSafe(Step(s, Perform(e, n, begun)))
  {
    if Held(s).Some? && s.due.Nothing? {
      hide WakeSafe, Step, AdvanceEffects;
      if n >= |AdvanceEffects(Held(s).value.0, Held(s).value.1, e)| {
        WakePerformsAll(s, e, n, begun);
      } else {
        WakeBreaksOff(s, e, n, begun);
      }
    }
  }

  /** Entries of giving up, all or some: they are proper, and no effects of an advance. */
  lemma ClosingAdds(s: Shop, more: seq<Performed>)
    requires WakeSafe(s) && Held(s).Some?
    requires var o := Held(s).value.0; forall p :: p in more ==> p.operation == o.id && p.closing && p.effect in AttentionEffects(o)
    ensures AllProper(s.(trace := s.trace + more))
    ensures forall x :: Own(s.trace + more, x) == Own(s.trace, x)
  {
    hide AttentionEffects, WakeSafe, Own, Held, AllProper;
    ClosingEntries(s, more);
    forall x ensures Own(s.trace + more, x) == Own(s.trace, x) {
      OwnAside(s.trace, more, x);
    }
  }

  /** The same effects of advances, and other entries: what was stored and read still fits. */
  lemma SameOwn(s: Shop, t: Shop)
    requires WakeSafe(s) && t.system.repo == s.system.repo && t.system.used == s.system.used
    requires forall x :: Own(t.trace, x) == Own(s.trace, x)
    ensures forall id :: StoredFits(t, id)
    ensures forall id :: id !in t.system.used ==> Own(t.trace, id) == []
    ensures forall o :: HeldWake(s, o) ==> HeldWake(t, o)
  {
    hide Own, OperationFitting, Invariant, AllProper, DueDone, StillOpen;
    forall id ensures StoredFits(t, id) {
      assert StoredFits(s, id);
    }
  }

  lemma WakeCleanUp(s: Shop, n: nat, begun: bool)
    requires WakeSafe(s)
    ensures WakeSafe(Step(s, CleanUp(n, begun)))
  {
    hide AdvanceEffects, AttentionEffects, Invariant, MemoryCoherent, Own, StoredFits, HeldWake, AllProper;
    var t := Step(s, CleanUp(n, begun));
    if Held(s).Some? && s.due.Nothing? {
      var o := Held(s).value.0;
      var effects := AttentionEffects(o);
      TagHas(o.id, effects, true);
      if n < |effects| {
        BrokenHas(o.id, effects, n, begun, true);
        ClosingAdds(s, Broken(o.id, effects, n, begun, true));
        ForgetKeeps(s.system);
      } else {
        ClosingAdds(s, Tag(o.id, effects, true));
      }
      SameOwn(s, t);
      assert AllProper(t) by { ProperSame(s.(trace := t.trace), t); }
    }
  }

  lemma ProperSame(s: Shop, t: Shop)
    requires AllProper(s) && t.trace == s.trace && t.system.repo == s.system.repo && t.system.used == s.system.used
    ensures AllProper(t)
  {
  }

  lemma RecoveryCommits(done: seq<Effect>, o: Operation, w: World, e: Outside)
    requires o.kind.Recover? && Live(o) && Restarted(done, o) && PlanAdvance(o, w, e).SaveOp?
    requires forall x :: x in AdvanceEffects(o, w, e) ==> x in done
    ensures Restarted(done, PlanAdvance(o, w, e).saved)
  {
    if o.phase.StartingGame? {
      assert AdvanceEffects(o, w, e)[0] == Start;
    }
  }

  lemma RuntimeKept(o: Operation, w: World, e: Outside)
    requires PlanAdvance(o, w, e).SaveOp? && (o.kind.Wake? && o.phase.ProvisioningRuntime? ==> o.runtime == None)
    ensures o.runtime.Some? ==> PlanAdvance(o, w, e).saved.runtime == o.runtime
    ensures PlanAdvance(o, w, e).saved.kind == o.kind
  {
  }

  lemma ProvisionedOnce(done: seq<Effect>, o: Operation)
    requires OperationFitting(done, o) && Live(o)
    ensures o.kind.Wake? && o.phase.ProvisioningRuntime? ==> o.runtime == None
  {
  }

  /** What a committed advance of the worker changes: its own operation, from a live one it read. */
  lemma AdvanceChanges(s: Shop)
    requires WakeSafe(s) && s.due.Advancing?
    ensures var (o, w) := Held(s).value;
            var r, t := s.system.repo, Step(s, Commit).system.repo;
            && HeldWake(s, o) && t.operations.Keys == r.operations.Keys
            && (forall id :: id in r.operations && id != o.id ==> t.operations[id] == r.operations[id])
            && (o.id in r.operations && t.operations[o.id] != r.operations[o.id] ==>
                  && Live(o) && r.operations[o.id] == o && PlanAdvance(o, w, s.due.answers).SaveOp?
                  && t.operations[o.id] == PlanAdvance(o, w, s.due.answers).saved && t.operations[o.id].kind == o.kind)
  {
    var (o, w) := Held(s).value;
    assert SeenOperation(s.system.repo, o) && Filed(s.system.repo) by { HeldIsSeen(s); }
    SamePlan(MemoryOf(s.system, WORKER), Advance(s.due.answers));
    hide Invariant, StoredFits, AllProper, DueDone, PlanAdvance;
    CommitWrites(s.system.repo, o, w, s.due.answers);
  }

  lemma SavedFits(done: seq<Effect>, o: Operation, w: World, e: Outside)
    requires OperationFitting(done, o) && Live(o) && PlanAdvance(o, w, e).SaveOp?
    requires forall x :: x in AdvanceEffects(o, w, e) ==> x in done
    ensures var o' := PlanAdvance(o, w, e).saved;
            && OperationFitting(done, o') && o'.kind == o.kind
            && (o.runtime.Some? ==> o'.runtime == o.runtime) && (o.kind.Wake? ==> Peak(o) <= Peak(o'))
  {
    hide AdvanceEffects, PlanAdvance, Fitting, Restarted, Peak;
    ProvisionedOnce(done, o);
    RuntimeKept(o, w, e);
    if o.kind.Wake? {
      FittingIsUnderway(done, o);
      WakeCommits(done, o, w, e);
      AdvancePeak(o, w, e);
    } else if o.kind.Recover? {
      RecoveryCommits(done, o, w, e);
    }
  }

  lemma WakeAdvances(s: Shop)
    requires WakeSafe(s) && s.due.Advancing?
    ensures (forall id :: StoredFits(Step(s, Commit), id)) && AllProper(Step(s, Commit))
  {
    var (o, w) := Held(s).value;
    var t := Step(s, Commit);
    AdvanceChanges(s);
    assert t.trace == s.trace && t.system.used == s.system.used;
    hide Invariant, Own, AdvanceEffects, PlanAdvance, PlanFor, Apply, Proper, OperationFitting, Step, HeldWake, StillOpen, Peak;
    var changed := o.id in t.system.repo.operations && t.system.repo.operations[o.id] != s.system.repo.operations[o.id];
    if changed {
      assert StoredFits(s, o.id);
      SavedFits(Own(s.trace, o.id), o, w, s.due.answers);
    }
    forall id ensures StoredFits(t, id) {
      assert StoredFits(s, id);
    }
    forall p | p in t.trace && p.operation in t.system.repo.operations ensures Proper(p, t.system.repo.operations[p.operation]) {
      if p.operation == o.id && changed {
        ProperStill(p, o, t.system.repo.operations[o.id]);
      }
    }
  }

  lemma FittingIsUnderway(done: seq<Effect>, o: Operation)
    requires Fitting(done, o) && Live(o)
    ensures Underway(done, o.phase, o.runtime)
  {
  }

  lemma WakeCommit(s: Shop)
    requires WakeSafe(s)
    ensures WakeSafe(Step(s, Commit))
  {
    if !s.due.Nothing? {
      var t := Step(s, Commit);
      var event := Act(WORKER, Intended(s.due));
      NextKeeps(s.system, event);
      ForgetKeeps(Next(s.system, event));
      if s.due.Advancing? {
        WakeAdvances(s);
      } else {
        EventSpares(s.system, event);
        hide AllSpared, AllProper, StoredFits, Own, Invariant, PlanFor, Apply;
        SparedStored(s, t);
        SparedProper(s, t);
      }
      hide AllProper, StoredFits, Own, Invariant, PlanFor, Apply;
    }
  }

  lemma ReadFits(s: Shop, id: Id)
    requires WakeSafe(s) && id in s.system.repo.operations
    ensures HeldWake(s, s.system.repo.operations[id])
  {
    assert StoredFits(s, id);
    assert Filed(s.system.repo) && s.system.repo.operations.Keys <= s.system.used;
    if Live(s.system.repo.operations[id]) {
      LiveIsCoupled(s.system.repo, s.system.repo.operations[id]);
    }
    hide Invariant, Own, OperationFitting;
  }

  lemma WakeFetchOperation(s: Shop, id: Id)
    requires WakeSafe(s)
    ensures WakeSafe(Step(s, FetchOperation(id)))
  {
    hide Invariant, Own, AdvanceEffects, AttentionEffects, MemoryCoherent, OperationFitting, Proper;
    var t := Step(s, FetchOperation(id));
    assert Invariant(t.system) by {
      ForgetKeeps(s.system);
      NextKeeps(Forget(s.system), ReadOperation(WORKER, id));
    }
    if id in s.system.repo.operations {
      ReadFits(s, id);
    }
    forall x ensures StoredFits(t, x) {
      assert StoredFits(s, x);
    }
  }

  lemma WakeFetchWorld(s: Shop, k: WorldKey)
    requires WakeSafe(s)
    ensures WakeSafe(Step(s, FetchWorld(k)))
  {
    var t := Step(s, FetchWorld(k));
    NextKeeps(s.system, ReadWorld(WORKER, k));
    hide Invariant, Own, AdvanceEffects, MemoryCoherent, OperationFitting, Proper;
    if s.due.Nothing? {
      assert MemoryOf(t.system, WORKER).operation == MemoryOf(s.system, WORKER).operation;
      forall x ensures StoredFits(t, x) {
        assert StoredFits(s, x);
      }
    }
  }

  lemma WakeOthers(s: Shop, event: Event)
    requires WakeSafe(s) && Allowed(Others(event)) && FreshEvent(s.system, event)
    ensures WakeSafe(Step(s, Others(event)))
  {
    var t := Step(s, Others(event));
    NextKeeps(s.system, event);
    EventSpares(s.system, event);
    hide Invariant, AllSpared, Own, PlanFor, Apply, AllProper, StoredFits, AdvanceEffects;
    assert MemoryOf(t.system, WORKER) == MemoryOf(s.system, WORKER);
    SparedStored(s, t);
    SparedProper(s, t);
    SparedHeld(s, t);
  }

  lemma WakeStep(s: Shop, t: Turn)
    requires WakeSafe(s) && FreshTurn(s, t)
    ensures WakeSafe(Step(s, t))
  {
    hide WakeSafe, Step;
    match t
    case FetchOperation(id) => WakeFetchOperation(s, id);
    case FetchWorld(k) => WakeFetchWorld(s, k);
    case Perform(e, n, begun) => WakePerform(s, e, n, begun);
    case CleanUp(n, begun) => WakeCleanUp(s, n, begun);
    case Commit => WakeCommit(s);
    case Others(event) => WakeOthers(s, event);
  }

  /** Every run, with crashes anywhere within an effect and between an effect and its commit. */
  lemma {:induction false} WakesRunSafely(s: Shop, turns: seq<Turn>)
    requires WakeSafe(s) && forall i :: 0 <= i < |turns| ==> FreshTurn(Execute(s, turns[..i]), turns[i])
    ensures WakeSafe(Execute(s, turns))
  {
    hide WakeSafe, FreshTurn, Step;
    if |turns| > 0 {
      var n := |turns| - 1;
      forall i | 0 <= i < n ensures FreshTurn(Execute(s, turns[..n][..i]), turns[..n][i]) {
        assert turns[..n][..i] == turns[..i];
      }
      WakesRunSafely(s, turns[..n]);
      WakeStep(Execute(s, turns[..n]), turns[n]);
    }
  }

  lemma WakesStartSafe(system: System)
    requires Invariant(system) && system.repo.operations == map[] && WORKER !in system.memories
    ensures WakeSafe(Shop(system, [], Nothing))
  {
  }

  /** From any repository of new Worlds, at which nobody has looked. */
  lemma EveryWakeIsSafe(r: Repo, turns: seq<Turn>)
    requires Filed(r) && r.operations == map[] && r.active == map[] && forall k :: k in r.worlds ==> r.worlds[k].status.Sleeping?
    requires forall i :: 0 <= i < |turns| ==> FreshTurn(Execute(Shop(System(r, map[], {}), [], Nothing), turns[..i]), turns[i])
    ensures WakeSafe(Execute(Shop(System(r, map[], {}), [], Nothing), turns))
  {
    NewWorldsConsistent(r);
    WakesStartSafe(System(r, map[], {}));
    hide WakeSafe, Execute;
    WakesRunSafely(Shop(System(r, map[], {}), [], Nothing), turns);
  }

  // ----- what it says

  /** Every session that was closed, or only begun to be, was closed with the right word: as online for a sleep,
      as never online for a wake, whether an advance or giving up did it; and never for a recovery. */
  lemma ClosedRightly(s: Shop, p: Performed)
    requires WakeSafe(s) && p in s.trace && p.operation in s.system.repo.operations && p.effect.CloseSession?
    ensures s.system.repo.operations[p.operation].kind == if p.effect.reachedOnline then Sleep else Wake
    ensures p.closing ==> !p.effect.reachedOnline
  {
    assert Proper(p, s.system.repo.operations[p.operation]);
  }

  lemma FittingClimbs(done: seq<Effect>, o: Operation)
    requires Fitting(done, o)
    ensures Climbing(done)
  {
  }

  ghost predicate InOrder(done: seq<Effect>) {
    && (forall i, j :: 0 <= i < j < |done| ==> Rung(done[i]) <= Rung(done[j]))
    && (forall j :: 0 <= j < |done| ==> InPlace(done, j))
  }

  /** The effect has its predecessor before it. */
  ghost predicate InPlace(done: seq<Effect>, j: nat)
    requires j < |done|
  {
    && (done[j].Restore? ==> exists i :: 0 <= i < j && done[i].Provision?)
    && (done[j].Configure? ==> exists i :: 0 <= i < j && done[i].Restore?)
    && (done[j].Start? ==> exists i :: 0 <= i < j && done[i].Configure?)
    && (done[j].StopGame? ==> exists i :: 0 <= i < j && done[i].Start?)
    && (done[j].ReleaseRuntime? || done[j].CloseSession? ==> exists i :: 0 <= i < j && done[i].StopGame?)
    && !done[j].SaveGame? && !done[j].Persist? && !done[j].Backup? && !done[j].CancelSession?
  }

  lemma ClimbsInPlace(done: seq<Effect>, j: nat)
    requires Climbing(done) && j < |done|
    ensures InPlace(done, j)
  {
    if Rung(done[j]) > 1 {
      var i :| 0 <= i < j && Rung(done[..j][i]) == Rung(done[j]) - 1;
      assert done[..j][i] == done[i];
    }
  }

  lemma ClimbsInOrder(done: seq<Effect>)
    requires Climbing(done)
    ensures InOrder(done)
  {
    hide InPlace;
    forall j | 0 <= j < |done| ensures InPlace(done, j) {
      ClimbsInPlace(done, j);
    }
  }

  /** The effects of a wake come in order: provision, restore, configure, start, and on failure stop, then release
      and close; repeated where the worker crashed, but none before the one before it, and none after a later one. */
  lemma WakeInOrder(s: Shop, id: Id)
    requires WakeSafe(s) && id in s.system.repo.operations && s.system.repo.operations[id].kind == Wake
    ensures InOrder(Own(s.trace, id))
  {
    assert StoredFits(s, id);
    hide Invariant, Climbing, Own, InOrder;
    ClimbsInOrder(Own(s.trace, id));
  }

  lemma WokenConfigured(done: seq<Effect>, o: Operation)
    requires Woken(done, o)
    ensures exists x :: x in done && x.Configure?
  {
    var i :| 0 <= i < |done| && Rung(done[i]) == 3;
    assert done[i].Configure?;
  }

  lemma StoredTells(s: Shop, id: Id)
    requires WakeSafe(s) && id in s.system.repo.operations
    ensures OperationFitting(Own(s.trace, id), s.system.repo.operations[id])
    ensures forall p :: p in s.trace && p.operation == id ==> Proper(p, s.system.repo.operations[id])
  {
    assert StoredFits(s, id);
  }

  /** A wake that succeeded was provisioned with the runtime it carries, restored, configured and started; its game
      was not stopped, its runtime not released and its session not closed, unless by giving up in between. */
  lemma SucceededWake(s: Shop, id: Id)
    requires WakeSafe(s) && id in s.system.repo.operations
    requires s.system.repo.operations[id].kind == Wake && s.system.repo.operations[id].status == Succeeded
    ensures var o, done := s.system.repo.operations[id], Own(s.trace, id);
            && o.runtime.Some? && Provision(o.runtime.value) in done && Restore(o.runtime.value) in done && Start in done
            && (exists x :: x in done && x.Configure?)
    ensures forall p | p in s.trace && p.operation == id :: !p.closing ==>
              !p.effect.StopGame? && !p.effect.ReleaseRuntime? && !p.effect.CloseSession? && !p.effect.CancelSession?
  {
    hide WakeSafe, Climbing, Own;
    StoredTells(s, id);
    WokenConfigured(Own(s.trace, id), s.system.repo.operations[id]);
  }

  /** A wake whose advances ended in NEEDS_ATTENTION was stopped, its runtime was released and its session closed
      as never online. */
  lemma ReleasedWake(s: Shop, id: Id)
    requires WakeSafe(s) && id in s.system.repo.operations
    requires var o := s.system.repo.operations[id]; (o.kind, o.status, o.phase) == (Wake, NeedsAttention, Complete)
    ensures var o, done := s.system.repo.operations[id], Own(s.trace, id);
            && o.runtime.Some? && Start in done && StopGame in done && ReleaseRuntime(o.runtime.value) in done
            && CloseSession(false) in done
  {
    assert StoredFits(s, id);
  }

  /** When the worker commits that it gave up a wake, it has released the runtime and closed the session as never
      online, or has cancelled the session of a wake without a runtime. */
  lemma GivenUpWake(s: Shop)
    requires WakeSafe(s) && s.due.Ending? && Live(Held(s).value.0) && Held(s).value.0.kind == Wake
    ensures var o := Held(s).value.0;
            match o.runtime
            case Some(runtime) =>
              && Performed(o.id, ReleaseRuntime(runtime), true, true) in s.trace
              && Performed(o.id, CloseSession(false), true, true) in s.trace
            case None => Performed(o.id, CancelSession, true, true) in s.trace
  {
    var o := Held(s).value.0;
    assert DueDone(s);
    if o.runtime.Some? {
      assert AttentionEffects(o) == [ReleaseRuntime(o.runtime.value), CloseSession(false)];
      assert AttentionEffects(o)[0] in AttentionEffects(o) && AttentionEffects(o)[1] in AttentionEffects(o);
    } else {
      assert AttentionEffects(o) == [CancelSession];
      assert AttentionEffects(o)[0] in AttentionEffects(o);
    }
  }

  /** A recovery only starts the game, and checks its health and succeeds only after that. */
  lemma RecoveryRestarts(s: Shop, id: Id)
    requires WakeSafe(s) && id in s.system.repo.operations && s.system.repo.operations[id].kind == Recover
    ensures forall p :: p in s.trace && p.operation == id ==> p.effect == Start && !p.closing
    ensures var o := s.system.repo.operations[id];
            (Live(o) && o.phase == CheckingGameHealth) || o.status == Succeeded ==> Start in Own(s.trace, id)
  {
    assert StoredFits(s, id);
    forall p | p in s.trace && p.operation == id ensures Proper(p, s.system.repo.operations[id]) {
    }
  }

  // ----- giving up, interrupted

  lemma OneMoreTurn(s: Shop, turns: seq<Turn>, t: Turn)
    ensures Execute(s, turns + [t]) == Step(Execute(s, turns), t)
  {
    assert (turns + [t])[..|turns|] == turns;
  }

  /** The worker reads a live operation and its World. */
  lemma ReadsBoth(s: Shop, id: Id)
    requires Invariant(s.system) && id in s.system.repo.operations && Live(s.system.repo.operations[id])
    ensures var o := s.system.repo.operations[id];
            var u := Step(Step(s, FetchOperation(id)), FetchWorld(KeyFor(o)));
            && KeyFor(o) in s.system.repo.worlds && u.system.repo == s.system.repo && u.trace == s.trace && u.due.Nothing?
            && Held(u) == Some((o, s.system.repo.worlds[KeyFor(o)])) && o.id == id && Ready(o)
  {
    assert Filed(s.system.repo);
    LiveIsCoupled(s.system.repo, s.system.repo.operations[id]);
  }

  lemma HealthyCommit(s: Shop, o: Operation, w: World, e: Outside)
    requires Held(s) == Some((o, w)) && s.due == Advancing(e) && Live(o) && o.kind == Wake && o.phase == CheckingGameHealth && e.healthy
    requires o.id in s.system.repo.operations && s.system.repo.operations[o.id] == o && o.runtime.Some?
    requires KeyFor(o) in s.system.repo.worlds && s.system.repo.worlds[KeyFor(o)] == w
    ensures var t := Step(s, Commit);
            && t.trace == s.trace && o.id in t.system.repo.operations && t.system.repo.operations[o.id].status == Succeeded
            && KeyFor(o) in t.system.repo.worlds && t.system.repo.worlds[KeyFor(o)].status == Online
  {
  }

  function Interrupted(id: Id, k: WorldKey, e: Outside): seq<Turn> {
    [FetchOperation(id), FetchWorld(k), CleanUp(2, false), FetchOperation(id), FetchWorld(k), Perform(e, 0, false), Commit]
  }

  lemma CleansUp(s: Shop, o: Operation, w: World)
    requires Held(s) == Some((o, w)) && s.due.Nothing? && Live(o) && o.kind == Wake && o.runtime.Some?
    ensures var t := Step(s, CleanUp(2, false));
            && t.system == s.system && Performed(o.id, ReleaseRuntime(o.runtime.value), true, true) in t.trace
            && Performed(o.id, CloseSession(false), true, true) in t.trace
  {
    TagHas(o.id, AttentionEffects(o), true);
    assert AttentionEffects(o)[0] in AttentionEffects(o) && AttentionEffects(o)[1] in AttentionEffects(o);
  }

  lemma ChecksHealth(s: Shop, o: Operation, w: World, e: Outside)
    requires Held(s) == Some((o, w)) && s.due.Nothing? && o.kind == Wake && o.phase == CheckingGameHealth
    ensures Step(s, Perform(e, 0, false)) == s.(due := Advancing(e))
  {
    assert AdvanceEffects(o, w, e) == [];
    assert s.trace + Tag(o.id, [], false) == s.trace;
  }

  /** Why "unless by giving up": from every state with a wake that waits for its health check, a giving up that
      breaks off before its commit and a healthy answer after that leave a wake that SUCCEEDED, its World ONLINE,
      with its runtime released and its session closed as never online. */
  lemma InterruptedCloseSucceeds(s: Shop, id: Id, e: Outside)
    requires WakeSafe(s) && id in s.system.repo.operations && e.healthy
    requires var o := s.system.repo.operations[id]; Live(o) && o.kind == Wake && o.phase == CheckingGameHealth
    ensures var o := s.system.repo.operations[id];
            var t := Execute(s, Interrupted(id, KeyFor(o), e));
            && id in t.system.repo.operations && t.system.repo.operations[id].status == Succeeded
            && KeyFor(o) in t.system.repo.worlds && t.system.repo.worlds[KeyFor(o)].status == Online
            && o.runtime.Some? && Performed(id, ReleaseRuntime(o.runtime.value), true, true) in t.trace
            && Performed(id, CloseSession(false), true, true) in t.trace
  {
    hide Execute, Step, Held, WakeSafe;
    var o := s.system.repo.operations[id];
    var k := KeyFor(o);
    SafeParts(s);
    ReadsBoth(s, id);
    var u := Step(Step(s, FetchOperation(id)), FetchWorld(k));
    var w := s.system.repo.worlds[k];
    CleansUp(u, o, w);
    var v := Step(u, CleanUp(2, false));
    ReadsStillInvariant(s, id, k);
    ReadsBoth(v, id);
    var x := Step(Step(v, FetchOperation(id)), FetchWorld(k));
    ChecksHealth(x, o, w, e);
    HeldElsewhere(x, Advancing(e));
    HealthyCommit(x.(due := Advancing(e)), o, w, e);
    SevenTurns(s, Interrupted(id, k, e));
  }

  lemma HeldElsewhere(s: Shop, due: Due)
    ensures Held(s.(due := due)) == Held(s)
  {
  }

  lemma ReadsStillInvariant(s: Shop, id: Id, k: WorldKey)
    requires WakeSafe(s)
    ensures Invariant(Step(Step(Step(s, FetchOperation(id)), FetchWorld(k)), CleanUp(2, false)).system)
  {
    hide WakeSafe, Step;
    WakeStep(s, FetchOperation(id));
    WakeStep(Step(s, FetchOperation(id)), FetchWorld(k));
    WakeStep(Step(Step(s, FetchOperation(id)), FetchWorld(k)), CleanUp(2, false));
    SafeParts(Step(Step(Step(s, FetchOperation(id)), FetchWorld(k)), CleanUp(2, false)));
  }

  lemma SafeParts(s: Shop)
    requires WakeSafe(s)
    ensures Invariant(s.system)
  {
  }

  lemma TurnAt(s: Shop, ts: seq<Turn>, k: nat)
    requires k < |ts|
    ensures Execute(s, ts[..0]) == s && Execute(s, ts[..k + 1]) == Step(Execute(s, ts[..k]), ts[k])
  {
    assert ts[..k + 1] == ts[..k] + [ts[k]];
    OneMoreTurn(s, ts[..k], ts[k]);
  }

  lemma SevenTurns(s: Shop, ts: seq<Turn>)
    requires |ts| == 7
    ensures Execute(s, ts) == Step(Step(Step(Step(Step(Step(Step(s, ts[0]), ts[1]), ts[2]), ts[3]), ts[4]), ts[5]), ts[6])
  {
    hide Execute, Step;
    TurnAt(s, ts, 0);
    TurnAt(s, ts, 1);
    TurnAt(s, ts, 2);
    TurnAt(s, ts, 3);
    TurnAt(s, ts, 4);
    TurnAt(s, ts, 5);
    TurnAt(s, ts, 6);
    assert ts[..7] == ts;
  }
}
