/** Safe sleep over whole runs: one worker that may crash within any effect and between any effect and its
    commit, and may give its operation up, among any other clients. Effects of a sleep operation are ordered
    save, stop, persist, backup, release; nothing is released before a validated state and a backup of it are
    committed on the operation; and a sleep that succeeds leaves its World with exactly the state that was
    backed up. */
module SafeSleep {
  import opened Base
  import opened WorldModel
  import opened WorldPlans
  import opened WorldLaws
  import opened WorldProtocol
  import opened RecoveryWindow

  /** The worker is client 0. */
  const WORKER: nat := 0

  /** An effect of an advance or, closing, of giving up; done, or begun and broken off. */
  datatype Performed = Performed(operation: Id, effect: Effect, closing: bool, done: bool)

  /** What the worker has to commit, with all its effects done: an advance with its answers, or giving up. */
  datatype Due = Nothing | Advancing(answers: Outside) | Ending

  datatype Shop = Shop(system: System, trace: seq<Performed>, due: Due)

  datatype Turn =
    | FetchOperation(operation: Id)
    | FetchWorld(key: WorldKey)
    | Perform(outside: Outside, performed: nat, begun: bool)
    | CleanUp(performed: nat, begun: bool)
    | Commit
    | Others(event: Event)

  predicate Allowed(t: Turn) {
    t.Others? ==> t.event.client != WORKER && !(t.event.Act? && t.event.intent.Advance?)
  }

  function Tag(id: Id, effects: seq<Effect>, closing: bool): seq<Performed> {
    seq(|effects|, i requires 0 <= i < |effects| => Performed(id, effects[i], closing, true))
  }

  /** The first `n` effects, and the next one if it was begun. */
  function Broken(id: Id, effects: seq<Effect>, n: nat, begun: bool, closing: bool): seq<Performed>
    requires n < |effects|
  {
    Tag(id, effects[..n], closing) + if begun then [Performed(id, effects[n], closing, false)] else []
  }

  /** What the worker holds: an operation and its World, as one advance reads them. */
  function Held(s: Shop): Option<(Operation, World)> {
    var m := MemoryOf(s.system, WORKER);
    if m.operation.Some? && m.world.Some? && KeyFor(m.operation.value) == KeyOf(m.world.value)
    then Some((m.operation.value, m.world.value)) else None
  }

  function Forget(s: System): System { Remember(s, WORKER, Memory(None, None, None)) }

  function Intended(d: Due): Intent
    requires !d.Nothing?
  {
    if d.Advancing? then Advance(d.answers) else GiveUp
  }

  /** An advance reads its operation and then the World, and others may act in between. Perform does the first
      `performed` effects and forgets everything unless it did them all; so does CleanUp for giving up; Commit
      writes once and forgets. */
  function Step(s: Shop, t: Turn): Shop {
    match t
    case FetchOperation(id) => Shop(Next(Forget(s.system), ReadOperation(WORKER, id)), s.trace, Nothing)
    case FetchWorld(k) => if !s.due.Nothing? then s else s.(system := Next(s.system, ReadWorld(WORKER, k)))
    case Perform(e, n, begun) =>
      if Held(s).None? || !s.due.Nothing? then s else
      var (o, w) := Held(s).value;
      var effects := AdvanceEffects(o, w, e);
      if n >= |effects| then s.(trace := s.trace + Tag(o.id, effects, false), due := Advancing(e))
      else Shop(Forget(s.system), s.trace + Broken(o.id, effects, n, begun, false), Nothing)
    case CleanUp(n, begun) =>
      if Held(s).None? || !s.due.Nothing? then s else
      var o := Held(s).value.0;
      var effects := AttentionEffects(o);
      if n >= |effects| then s.(trace := s.trace + Tag(o.id, effects, true), due := Ending)
      else Shop(Forget(s.system), s.trace + Broken(o.id, effects, n, begun, true), Nothing)
    case Commit =>
      if s.due.Nothing? then s else
      Shop(Forget(Next(s.system, Act(WORKER, Intended(s.due)))), s.trace, Nothing)
    case Others(event) => s.(system := Next(s.system, event))
  }

  function Execute(s: Shop, turns: seq<Turn>): Shop {
    if |turns| == 0 then s else Step(Execute(s, turns[..|turns| - 1]), turns[|turns| - 1])
  }

  // ----- the order of effects

  /** An effect done for an advance of this operation. */
  predicate OfAdvance(p: Performed, id: Id) { p.operation == id && p.done && !p.closing }

  /** The effects done for the advances of an operation, in order. */
  function Own(trace: seq<Performed>, id: Id): seq<Effect> {
    if |trace| == 0 then [] else
    Own(trace[..|trace| - 1], id) + if OfAdvance(trace[|trace| - 1], id) then [trace[|trace| - 1].effect] else []
  }

  /** save 1, stop 2, persist 3, backup 4, release 5; other effects are no part of a sleep. */
  function Place(e: Effect): nat {
    match e
    case SaveGame => 1
    case StopGame => 2
    case Persist(_, _) => 3
    case Backup(_, _) => 4
    case ReleaseRuntime(_) => 5
    case CloseSession(_) => 5
    case _ => 0
  }

  function PhasePlace(p: Phase): nat {
    match p
    case SavingGame => 1
    case StoppingGame => 2
    case PersistingWorld => 3
    case CreatingBackup => 4
    case ReleasingRuntime => 5
    case _ => 0
  }

  ghost predicate Reached(effects: seq<Effect>,
                          place: nat) { exists i :: 0 <= i < |effects| && Place(effects[i]) == place }

  /** Places never go down, and each comes after the place before it. */
  ghost predicate Ordered(effects: seq<Effect>) {
    && (forall i, j :: 0 <= i < j < |effects| ==> Place(effects[i]) <= Place(effects[j]))
    && (forall j :: 0 <= j < |effects| ==> 1 <= Place(effects[j]) <= 5)
    && (forall j :: 0 <= j < |effects| && Place(effects[j]) > 1 ==> Reached(effects[..j], Place(effects[j]) - 1))
  }

  /** The trace fits an operation at this phase: nothing beyond its place, and every earlier place done. */
  ghost predicate Fits(effects: seq<Effect>, o: Operation) {
    && Ordered(effects)
    && (forall i :: 0 <= i < |effects| ==> Place(effects[i]) <= PhasePlace(o.phase))
    && (forall p :: 1 <= p < PhasePlace(o.phase) ==> Reached(effects, p))
    && (PhasePlace(o.phase) >= 4 ==> o.stored.Some?) && (PhasePlace(o.phase) == 5 ==> o.backup.Some?)
    && (o.stored.Some? ==> Persist(o.stored.value, true) in effects)
    && (o.backup.Some? ==> PhasePlace(o.phase) == 5 && o.stored.Some? && Backup(o.stored.value, o.backup.value) in effects)
  }

  lemma OwnLast(trace: seq<Performed>, p: Performed, x: Id)
    ensures Own(trace + [p], x) == Own(trace, x) + if OfAdvance(p, x) then [p.effect] else []
  {
    assert (trace + [p])[..|trace|] == trace;
  }

  lemma {:induction false} OwnAppend(trace: seq<Performed>, id: Id, effects: seq<Effect>, n: nat, x: Id)
    requires n <= |effects|
    ensures Own(trace + Tag(id, effects[..n], false), x) == if x == id then Own(trace, x) + effects[..n] else Own(trace, x)
  {
    hide Own;
    if n == 0 {
      assert trace + Tag(id, effects[..0], false) == trace;
      assert effects[..0] == [];
    } else {
      OwnAppend(trace, id, effects, n - 1, x);
      var before := trace + Tag(id, effects[..n - 1], false);
      assert effects[..n] == effects[..n - 1] + [effects[n - 1]];
      assert trace + Tag(id, effects[..n], false) == before + [Performed(id, effects[n - 1], false, true)];
      OwnLast(before, Performed(id, effects[n - 1], false, true), x);
    }
  }

  /** What was only begun, or done for giving up, is no effect of an advance. */
  lemma {:induction false} OwnAside(trace: seq<Performed>, more: seq<Performed>, x: Id)
    requires forall p :: p in more ==> p.closing || !p.done
    ensures Own(trace + more, x) == Own(trace, x)
  {
    if |more| == 0 {
      assert trace + more == trace;
    } else {
      var n := |more| - 1;
      OwnAside(trace, more[..n], x);
      assert trace + more == trace + more[..n] + [more[n]];
      OwnLast(trace + more[..n], more[n], x);
    }
  }

  lemma OwnBroken(trace: seq<Performed>, id: Id, effects: seq<Effect>, n: nat, begun: bool, x: Id)
    requires n < |effects|
    ensures Own(trace + Broken(id, effects, n, begun, false), x) == Own(trace + Tag(id, effects[..n], false), x)
  {
    var more := if begun then [Performed(id, effects[n], false, false)] else [];
    assert trace + Broken(id, effects, n, begun, false) == trace + Tag(id, effects[..n], false) + more;
    OwnAside(trace + Tag(id, effects[..n], false), more, x);
  }

  /** A place reached stays reached. */
  lemma ReachedMore(effects: seq<Effect>, e: Effect, place: nat)
    requires Reached(effects, place)
    ensures Reached(effects + [e], place)
  {
    var i :| 0 <= i < |effects| && Place(effects[i]) == place;
    assert (effects + [e])[i] == effects[i];
  }

  /** One more effect, at a place not before the others, after the place before it. */
  lemma OrderedMore(effects: seq<Effect>, e: Effect)
    requires Ordered(effects) && 1 <= Place(e) <= 5
    requires forall i :: 0 <= i < |effects| ==> Place(effects[i]) <= Place(e)
    requires Place(e) > 1 ==> Reached(effects, Place(e) - 1)
    ensures Ordered(effects + [e])
  {
    hide Reached;
    var more := effects + [e];
    assert more[..|effects|] == effects;
    forall j | 0 <= j < |more| && Place(more[j]) > 1 ensures Reached(more[..j], Place(more[j]) - 1) {
      if j < |effects| {
        assert more[..j] == effects[..j] && more[j] == effects[j];
      }
    }
  }

  /** Repeating the effect of the current place keeps the order. */
  lemma FitsEffect(effects: seq<Effect>, o: Operation, e: Effect)
    requires Fits(effects, o) && 1 <= PhasePlace(o.phase) == Place(e)
    ensures Fits(effects + [e], o)
  {
    hide Reached;
    assert PhasePlace(o.phase) <= 5;
    assert Ordered(effects + [e]) by {
      hide Ordered;
      OrderedMore(effects, e);
    }
    hide Ordered, Place, PhasePlace;
    forall p | 1 <= p < PhasePlace(o.phase) ensures Reached(effects + [e], p) {
      ReachedMore(effects, e, p);
    }
  }

  lemma FitsEffects(effects: seq<Effect>, o: Operation, w: World, e: Outside, n: nat)
    requires Fits(effects, o) && o.kind.Sleep? && n <= |AdvanceEffects(o, w, e)|
    ensures Fits(effects + AdvanceEffects(o, w, e)[..n], o)
  {
    hide Fits;
    if n == 0 {
      assert effects + AdvanceEffects(o, w, e)[..n] == effects;
    } else {
      FitsEffects(effects, o, w, e, n - 1);
      var before := effects + AdvanceEffects(o, w, e)[..n - 1];
      FitsEffect(before, o, AdvanceEffects(o, w, e)[n - 1]);
      assert before + [AdvanceEffects(o, w, e)[n - 1]] == effects + AdvanceEffects(o, w, e)[..n];
    }
  }

  /** Moving to the next place, with the current one reached. */
  lemma FitsNext(effects: seq<Effect>, o: Operation, o': Operation)
    requires Fits(effects, o)
    requires PhasePlace(o.phase) <= PhasePlace(o'.phase) <= PhasePlace(o.phase) + 1
    requires PhasePlace(o.phase) >= 1 ==> Reached(effects, PhasePlace(o.phase))
    requires RecordsFit(effects, o')
    ensures Fits(effects, o')
  {
  }

  /** What the operation says was persisted and backed up was. */
  predicate RecordsFit(effects: seq<Effect>, o: Operation) {
    && (PhasePlace(o.phase) >= 4 ==> o.stored.Some?) && (PhasePlace(o.phase) == 5 ==> o.backup.Some?)
    && (o.stored.Some? ==> Persist(o.stored.value, true) in effects)
    && (o.backup.Some? ==> PhasePlace(o.phase) == 5 && o.stored.Some? && Backup(o.stored.value, o.backup.value) in effects)
  }

  lemma ReachedNow(effects: seq<Effect>, o: Operation, w: World, e: Outside)
    requires Fits(effects, o) && o.kind.Sleep? && Live(o) && o.runtime.Some? && PhasePlace(o.phase) >= 1
    requires forall x :: x in AdvanceEffects(o, w, e) ==> x in effects
    ensures Reached(effects, PhasePlace(o.phase))
  {
    var done := AdvanceEffects(o, w, e)[0];
    assert done in AdvanceEffects(o, w, e) && Place(done) == PhasePlace(o.phase);
    var i :| 0 <= i < |effects| && effects[i] == done;
  }

  lemma FitsRecords(effects: seq<Effect>, o: Operation)
    requires Fits(effects, o)
    ensures RecordsFit(effects, o)
  {
  }

  /** What an advance commits fits the trace once its effects are done. */
  lemma FitsCommit(effects: seq<Effect>, o: Operation, w: World, e: Outside)
    requires Fits(effects, o) && o.kind.Sleep? && Live(o) && PlanAdvance(o, w, e).SaveOp?
    requires forall x :: x in AdvanceEffects(o, w, e) ==> x in effects
    ensures var o' := PlanAdvance(o, w, e).saved;
            (Live(o') ==> Fits(effects, o')) && (o'.status.Succeeded? ==> Finished(effects, o'))
  {
    hide Fits, Reached;
    FitsRecords(effects, o);
    var o' := PlanAdvance(o, w, e).saved;
    if PhasePlace(o.phase) >= 1 {
      ReachedNow(effects, o, w, e);
      assert AdvanceEffects(o, w, e)[0] in AdvanceEffects(o, w, e);
      assert o.phase.ReleasingRuntime? ==> AdvanceEffects(o, w, e)[1] in AdvanceEffects(o, w, e);
    }
    if Live(o') {
      assert RecordsFit(effects, o');
      FitsNext(effects, o, o');
    }
  }

  /** A sleep that succeeded: persisted and validated, backed up, released, and closed as one that was online. */
  ghost predicate Finished(effects: seq<Effect>, o: Operation) {
    && o.stored.Some? && o.backup.Some? && o.runtime.Some?
    && Persist(o.stored.value, true) in effects
    && Backup(o.stored.value, o.backup.value) in effects
    && ReleaseRuntime(o.runtime.value) in effects && CloseSession(true) in effects
  }

  // ----- what holds after every turn

  ghost predicate SleepFits(s: Shop, id: Id) {
    var r, done := s.system.repo, Own(s.trace, id);
    id in r.operations && r.operations[id].kind.Sleep? ==>
      && Ordered(done)
      && (Live(r.operations[id]) ==> Fits(done, r.operations[id]))
      && (r.operations[id].status.Succeeded? ==> Finished(done, r.operations[id]))
  }

  /** The operation the worker has read is the stored one, unless somebody ended that one meanwhile. */
  ghost predicate OperationFits(s: Shop, o: Operation) {
    var r := s.system.repo;
    && o.id in s.system.used
    && (o.id in r.operations ==> r.operations[o.id].kind == o.kind)
    && (o.kind.Sleep? && Live(o) ==>
          && Fits(Own(s.trace, o.id), o)
          && (o.id in r.operations ==>
                && r.operations[o.id].stored == o.stored && r.operations[o.id].backup == o.backup
                && (r.operations[o.id] == o || !Live(r.operations[o.id]))))
  }

  /** The operation read fits, and the effects of an advance that has its answers are in the trace. */
  ghost predicate HeldFits(s: Shop) {
    var m := MemoryOf(s.system, WORKER);
    && (m.operation.Some? ==> OperationFits(s, m.operation.value))
    && (Held(s).Some? && s.due.Advancing? ==>
          var (o, w) := Held(s).value;
          o.kind.Sleep? && Live(o) ==> forall x :: x in AdvanceEffects(o, w, s.due.answers) ==> x in Own(s.trace, o.id))
  }

  ghost predicate Safe(s: Shop) {
    && Invariant(s.system) && HeldFits(s)
    && (forall id :: SleepFits(s, id))
    && (forall id :: id !in s.system.used ==> Own(s.trace, id) == [])
    && (!s.due.Nothing? ==> Held(s).Some?)
  }

  // ----- turns

  /** Clients that do not advance leave a sleep operation as it is, or end it with its state and backup. */
  predicate Left(o: Operation, o': Operation) {
    o' == o || (!Live(o') && (o'.status.Succeeded? ==> o.status.Succeeded?) && o'.kind == o.kind && o'.id == o.id
                && o'.stored == o.stored && o'.backup == o.backup && o'.runtime == o.runtime)
  }

  lemma SaveLeaves(m: Memory, i: Intent)
    requires PlanFor(m, i).SaveOp? && !i.Advance?
    ensures m.operation.Some?
    ensures m.operation.value.kind.Sleep? ==> Left(m.operation.value, PlanFor(m, i).saved)
    ensures PlanFor(m, i).saved.id == m.operation.value.id && PlanFor(m, i).saved.kind == m.operation.value.kind
    ensures PlanFor(m, i).expectedOp == m.operation.value.version
  {
    hide Propose, EmptySince, IdleElapsed, Recent;
  }

  lemma BeginsAtRest(m: Memory, i: Intent)
    requires PlanFor(m, i).BeginOp?
    ensures var o := PlanFor(m, i).operation;
            o.phase.Requested? && o.stored.None? && o.backup.None? && o.status.Pending? && NewId(i) == Some(o.id)
  {
    hide Propose, EmptySince, IdleElapsed, Recent;
  }

  lemma OthersLeave(r: Repo, used: set<Id>, m: Memory, i: Intent, id: Id)
    requires Consistent(r) && MemoryCoherent(r, used, m) && !i.Advance?
    requires NewId(i).Some? ==> NewId(i).value !in r.operations
    requires var s := Apply(r, PlanFor(m, i)); id in s.operations
    ensures var s := Apply(r, PlanFor(m, i));
            if id in r.operations then
              s.operations[id].kind == r.operations[id].kind
              && (s.operations[id].kind.Sleep? ==> Left(r.operations[id], s.operations[id]))
            else NewId(i) == Some(id) && s.operations[id].phase.Requested?
                 && s.operations[id].stored.None? && s.operations[id].backup.None?
                 && s.operations[id].status.Pending?
  {
    hide Consistent, Apply, PlanFor, MemoryCoherent, Left;
    assert Filed(r) && IndexExact(r) by { Unfold(r); }
    var p := PlanFor(m, i);
    if id in r.operations { StillLeft(r.operations[id]); }
    if p.BeginOp? {
      BeginsAtRest(m, i);
    } else if p.SaveOp? {
      SaveLeaves(m, i);
      Remembered(r, used, m);
    }
    AppliesOnce(r, p);
  }

  lemma StillLeft(o: Operation)
    ensures Left(o, o)
  {
  }

  lemma Remembered(r: Repo, used: set<Id>, m: Memory)
    requires MemoryCoherent(r, used, m) && m.operation.Some?
    ensures SeenOperation(r, m.operation.value)
  {
  }

  lemma {:induction false} OwnDistributes(s: Shop, id: Id, effects: seq<Effect>, n: nat)
    requires n <= |effects|
    requires forall x :: x !in s.system.used ==> Own(s.trace, x) == []
    requires id in s.system.used
    ensures forall x :: x !in s.system.used ==> Own(s.trace + Tag(id, effects[..n], false), x) == []
    ensures Own(s.trace + Tag(id, effects[..n], false), id) == Own(s.trace, id) + effects[..n]
    ensures forall x :: x != id ==> Own(s.trace + Tag(id, effects[..n], false), x) == Own(s.trace, x)
  {
    hide Own;
    forall x
      ensures Own(s.trace + Tag(id, effects[..n], false), x) == if x == id then Own(s.trace, x) + effects[..n] else Own(s.trace, x)
    {
      OwnAppend(s.trace, id, effects, n, x);
    }
  }

  /** Effects of the held operation, all or some of them, keep every sleep operation fitting its trace. */
  lemma PerformKeeps(s: Shop, e: Outside, n: nat)
    requires Safe(s) && Held(s).Some? && s.due.Nothing?
    requires n <= |AdvanceEffects(Held(s).value.0, Held(s).value.1, e)|
    ensures var (o, w) := Held(s).value;
            var t := s.(trace := s.trace + Tag(o.id, AdvanceEffects(o, w, e)[..n], false));
            && (forall id :: SleepFits(t, id)) && HeldFits(t)
            && (forall id :: id !in s.system.used ==> Own(t.trace, id) == [])
  {
    var (o, w) := Held(s).value;
    var effects := AdvanceEffects(o, w, e);
    var t := s.(trace := s.trace + Tag(o.id, effects[..n], false));
    OwnDistributes(s, o.id, effects, n);
    hide Invariant, Fits, Ordered, Own, AdvanceEffects, Finished;
    if o.kind.Sleep? && Live(o) {
      FitsEffects(Own(s.trace, o.id), o, w, e, n);
      assert Fits(Own(t.trace, o.id), o);
      FitsIsOrdered(Own(t.trace, o.id), o);
    } else {
      if !Live(o) {
        NoEffects(o, w, e);
        assert Own(t.trace, o.id) == Own(s.trace, o.id) + [];
        assert Own(t.trace, o.id) == Own(s.trace, o.id);
      }
    }
    forall id ensures SleepFits(t, id) {
      assert SleepFits(s, id);
      if id == o.id && id in s.system.repo.operations && s.system.repo.operations[id].kind.Sleep? {
        if s.system.repo.operations[id].status.Succeeded? {
          FinishedStill(Own(s.trace, id), effects[..n], s.system.repo.operations[id]);
        }
      }
    }
  }

  lemma NoEffects(o: Operation, w: World, e: Outside)
    requires !Live(o)
    ensures AdvanceEffects(o, w, e) == []
  {
  }

  lemma FitsIsOrdered(effects: seq<Effect>, o: Operation)
    requires Fits(effects, o)
    ensures Ordered(effects)
  {
  }

  lemma FinishedStill(effects: seq<Effect>, more: seq<Effect>, o: Operation)
    requires Finished(effects, o)
    ensures Finished(effects + more, o)
  {
  }

  lemma CommitWrites(r: Repo, o: Operation, w: World, e: Outside)
    requires Filed(r) && SeenOperation(r, o) && KeyFor(o) == KeyOf(w)
    ensures var m := Memory(Some(o), Some(w), None);
            var s := Apply(r, PlanFor(m, Advance(e)));
            && s.operations.Keys == r.operations.Keys
            && (forall id :: id in r.operations && id != o.id ==> s.operations[id] == r.operations[id])
            && (o.id in r.operations && s.operations[o.id] != r.operations[o.id] ==>
                  Live(o) && r.operations[o.id] == o && PlanAdvance(o, w, e).SaveOp? && s.operations[o.id] == PlanAdvance(o, w, e).saved
                  && PlanAdvance(o, w, e).saved.kind == o.kind)
  {
    var p := PlanAdvance(o, w, e);
    AdvanceSaves(o, w, e);
    hide PlanAdvance, Begin, SaveWorld, AppendRevision, Delete;
    assert PlanFor(Memory(Some(o), Some(w), None), Advance(e)) == p;
    hide PlanFor;
  }

  lemma AdvanceSaves(o: Operation, w: World, e: Outside)
    ensures var p := PlanAdvance(o, w, e);
            (p.SaveOp? && Live(o) && p.saved.id == o.id && p.saved.kind == o.kind && p.expectedOp == o.version) || p.Done? || p.Stop?
  {
  }

  /** Committing an advance whose effects are done keeps every sleep operation fitting its trace. */
  lemma CommitKeeps(s: Shop)
    requires Safe(s) && s.due.Advancing?
    ensures forall id :: SleepFits(Step(s, Commit), id)
  {
    var (o, w) := Held(s).value;
    var e := s.due.answers;
    var m, t := MemoryOf(s.system, WORKER), Step(s, Commit);
    assert SeenOperation(s.system.repo, o) && Filed(s.system.repo) by { HeldIsSeen(s); }
    assert t.system.repo == Apply(s.system.repo, PlanFor(Memory(Some(o), Some(w), None), Advance(e))) by { SamePlan(m, Advance(e)); }
    CommitWrites(s.system.repo, o, w, e);
    hide Invariant, Fits, Ordered, Own, AdvanceEffects, Finished, PlanAdvance, PlanFor, Apply;
    forall id ensures SleepFits(t, id) {
      assert SleepFits(s, id);
      if id == o.id && id in t.system.repo.operations && t.system.repo.operations[id].kind.Sleep?
         && t.system.repo.operations[id] != s.system.repo.operations[id] {
        FitsCommit(Own(s.trace, id), o, w, e);
        FitsIsOrdered(Own(s.trace, id), o);
      }
    }
  }

  lemma HeldIsSeen(s: Shop)
    requires Invariant(s.system) && Held(s).Some?
    ensures SeenOperation(s.system.repo, Held(s).value.0) && Filed(s.system.repo)
    ensures SeenWorld(s.system.repo, Held(s).value.1) && Held(s).value.0.id in s.system.used
  {
    RecallClient(s.system, WORKER);
  }

  /** What one action of another client does to the operations: ended, or as they were, or new. */
  ghost predicate OnlyLeft(r: Repo, t: Repo, used: set<Id>) {
    forall id :: id in t.operations ==>
      if id in r.operations then
        t.operations[id].kind == r.operations[id].kind && (r.operations[id].kind.Sleep? ==> Left(r.operations[id], t.operations[id]))
      else id !in used && t.operations[id].phase.Requested? && t.operations[id].stored.None? && t.operations[id].backup.None?
           && t.operations[id].status.Pending?
  }

  lemma OthersOnlyLeave(s: System, event: Event)
    requires Invariant(s) && FreshEvent(s, event) && !(event.Act? && event.intent.Advance?)
    ensures OnlyLeft(s.repo, Next(s, event).repo, s.used)
  {
    RecallClient(s, event.client);
    InvariantParts(s);
    assert s.repo.operations.Keys <= s.used;
    hide Invariant, PlanFor, Apply, MemoryCoherent, Left, Consistent;
    var t := Next(s, event).repo;
    forall id | id in t.operations
      ensures if id in s.repo.operations then
                t.operations[id].kind == s.repo.operations[id].kind
                && (s.repo.operations[id].kind.Sleep? ==> Left(s.repo.operations[id], t.operations[id]))
              else id !in s.used && t.operations[id].phase.Requested? && t.operations[id].stored.None? && t.operations[id].backup.None?
                   && t.operations[id].status.Pending?
    {
      if event.Act? {
        OthersLeave(s.repo, s.used, MemoryOf(s, event.client), event.intent, id);
      } else {
        StillLeft(t.operations[id]);
      }
    }
  }

  lemma LeftSleepFits(s: Shop, t: Shop, id: Id)
    requires OnlyLeft(s.system.repo, t.system.repo, s.system.used) && t.trace == s.trace && SleepFits(s, id)
    requires id !in s.system.used ==> Own(s.trace, id) == []
    ensures SleepFits(t, id)
  {
    hide Fits, Ordered, Own, Finished;
    var r, q := s.system.repo, t.system.repo;
    if id in q.operations && q.operations[id].kind.Sleep? {
      if id in r.operations {
        SleepFitsLeft(Own(s.trace, id), r.operations[id], q.operations[id]);
      } else {
        NewFits(q.operations[id]);
      }
    }
  }

  lemma LeftHeldFits(s: Shop, t: Shop)
    requires OnlyLeft(s.system.repo, t.system.repo, s.system.used) && t.trace == s.trace && t.due == s.due
    requires HeldFits(s) && MemoryOf(t.system, WORKER) == MemoryOf(s.system, WORKER) && s.system.used <= t.system.used
    ensures HeldFits(t)
  {
    hide Fits, Own, AdvanceEffects;
  }

  lemma OthersKeep(s: Shop, event: Event)
    requires Safe(s) && Allowed(Others(event)) && FreshEvent(s.system, event)
    ensures Safe(Step(s, Others(event)))
  {
    var t := Step(s, Others(event));
    NextKeeps(s.system, event);
    OthersOnlyLeave(s.system, event);
    hide Invariant, OnlyLeft, Own, PlanFor, Apply, HeldFits, SleepFits;
    assert MemoryOf(t.system, WORKER) == MemoryOf(s.system, WORKER);
    LeftHeldFits(s, t);
    forall id ensures SleepFits(t, id) {
      LeftSleepFits(s, t, id);
    }
  }

  lemma NewFits(o: Operation)
    requires o.phase.Requested? && o.stored.None? && o.backup.None?
    ensures Fits([], o) && Ordered([])
  {
  }

  lemma SleepFitsLeft(done: seq<Effect>, o: Operation, o': Operation)
    requires Left(o, o') && (o.status.Succeeded? ==> Finished(done, o))
    ensures o'.status.Succeeded? ==> Finished(done, o')
  {
  }

  lemma InvariantParts(s: System)
    requires Invariant(s)
    ensures Consistent(s.repo) && Coherent(s)
  {
  }

  lemma ForgetKeeps(s: System)
    requires Invariant(s)
    ensures Invariant(Forget(s))
  {
    hide Consistent;
    forall c | c in Forget(s).memories ensures MemoryCoherent(s.repo, s.used, Forget(s).memories[c]) {
    }
  }

  lemma FetchOperationKeeps(s: Shop, id: Id)
    requires Safe(s)
    ensures Safe(Step(s, FetchOperation(id)))
  {
    var t := Step(s, FetchOperation(id));
    ForgetKeeps(s.system);
    NextKeeps(Forget(s.system), ReadOperation(WORKER, id));
    assert SleepFits(s, id);
    assert Filed(s.system.repo) && s.system.repo.operations.Keys <= s.system.used;
    hide Invariant, Fits, Ordered, Own, AdvanceEffects, Finished, MemoryCoherent;
    forall x ensures SleepFits(t, x) {
      assert SleepFits(s, x);
    }
  }

  lemma FetchWorldKeeps(s: Shop, k: WorldKey)
    requires Safe(s)
    ensures Safe(Step(s, FetchWorld(k)))
  {
    var t := Step(s, FetchWorld(k));
    NextKeeps(s.system, ReadWorld(WORKER, k));
    hide Invariant, Fits, Ordered, Own, AdvanceEffects, Finished, MemoryCoherent;
    if s.due.Nothing? {
      var m := MemoryOf(s.system, WORKER);
      assert MemoryOf(t.system, WORKER).operation == m.operation;
      assert m.operation.Some? ==> OperationFits(s, m.operation.value);
      forall x ensures SleepFits(t, x) {
        assert SleepFits(s, x);
      }
    }
  }

  lemma PerformSafe(s: Shop, e: Outside, n: nat, begun: bool)
    requires Safe(s)
    ensures Safe(Step(s, Perform(e, n, begun)))
  {
    var t := Step(s, Perform(e, n, begun));
    if Held(s).Some? && s.due.Nothing? {
      var (o, w) := Held(s).value;
      var effects := AdvanceEffects(o, w, e);
      hide Fits, Ordered, AdvanceEffects, Finished, Invariant, MemoryCoherent;
      if n >= |effects| {
        PerformKeeps(s, e, |effects|);
        assert effects[..|effects|] == effects;
        assert Held(t) == Held(s);
        OwnAppend(s.trace, o.id, effects, |effects|, o.id);
        hide Own;
        assert forall x :: SleepFits(t, x) by {
          forall x ensures SleepFits(t, x) {
            assert SleepFits(s.(trace := t.trace), x);
          }
        }
      } else {
        PerformKeeps(s, e, n);
        ForgetKeeps(s.system);
        forall x ensures Own(t.trace, x) == Own(s.trace + Tag(o.id, effects[..n], false), x) {
          OwnBroken(s.trace, o.id, effects, n, begun, x);
        }
        hide Own;
        forall x ensures SleepFits(t, x) {
          assert SleepFits(s.(trace := s.trace + Tag(o.id, effects[..n], false)), x);
        }
      }
    }
  }

  lemma CleanUpSafe(s: Shop, n: nat, begun: bool)
    requires Safe(s)
    ensures Safe(Step(s, CleanUp(n, begun)))
  {
    var t := Step(s, CleanUp(n, begun));
    if Held(s).Some? && s.due.Nothing? {
      var effects := AttentionEffects(Held(s).value.0);
      var id := Held(s).value.0.id;
      hide Fits, Ordered, AdvanceEffects, AttentionEffects, Finished, Invariant, MemoryCoherent;
      ForgetKeeps(s.system);
      var more := if n >= |effects| then Tag(id, effects, true) else Broken(id, effects, n, begun, true);
      assert t.trace == s.trace + more;
      forall x ensures Own(t.trace, x) == Own(s.trace, x) {
        OwnAside(s.trace, more, x);
      }
      hide Own;
      forall x ensures SleepFits(t, x) {
        assert SleepFits(s, x);
      }
    }
  }

  /** Giving up is what any client may do. */
  lemma EndingKeeps(s: Shop)
    requires Safe(s) && s.due.Ending?
    ensures forall id :: SleepFits(Step(s, Commit), id)
  {
    var event := Act(WORKER, GiveUp);
    OthersOnlyLeave(s.system, event);
    hide Invariant, OnlyLeft, Own, PlanFor, Apply, HeldFits, SleepFits;
    forall id ensures SleepFits(Step(s, Commit), id) {
      LeftSleepFits(s, Step(s, Commit), id);
    }
  }

  lemma CommitSafe(s: Shop)
    requires Safe(s)
    ensures Safe(Step(s, Commit))
  {
    if !s.due.Nothing? {
      if s.due.Advancing? {
        CommitKeeps(s);
      } else {
        EndingKeeps(s);
      }
      NextKeeps(s.system, Act(WORKER, Intended(s.due)));
      ForgetKeeps(Next(s.system, Act(WORKER, Intended(s.due))));
      hide Fits, Ordered, AdvanceEffects, Finished, Invariant, MemoryCoherent, Own, SleepFits, Apply, PlanFor;
    }
  }

  ghost predicate FreshTurn(s: Shop, t: Turn) { Allowed(t) && (t.Others? ==> FreshEvent(s.system, t.event)) }

  lemma StepKeeps(s: Shop, t: Turn)
    requires Safe(s) && FreshTurn(s, t)
    ensures Safe(Step(s, t))
  {
    hide Safe, Step;
    match t
    case FetchOperation(id) => FetchOperationKeeps(s, id);
    case FetchWorld(k) => FetchWorldKeeps(s, k);
    case Perform(e, n, begun) => PerformSafe(s, e, n, begun);
    case CleanUp(n, begun) => CleanUpSafe(s, n, begun);
    case Commit => CommitSafe(s);
    case Others(event) => OthersKeep(s, event);
  }

  /** Every run, with crashes anywhere between an effect and its commit, stays safe. */
  lemma {:induction false} RunsSafely(s: Shop, turns: seq<Turn>)
    requires Safe(s) && forall i :: 0 <= i < |turns| ==> FreshTurn(Execute(s, turns[..i]), turns[i])
    ensures Safe(Execute(s, turns))
  {
    hide Safe, FreshTurn, Step;
    if |turns| > 0 {
      var n := |turns| - 1;
      forall i | 0 <= i < n ensures FreshTurn(Execute(s, turns[..n][..i]), turns[..n][i]) {
        assert turns[..n][..i] == turns[..i];
      }
      RunsSafely(s, turns[..n]);
      StepKeeps(Execute(s, turns[..n]), turns[n]);
    }
  }

  lemma StartsSafe(system: System)
    requires Invariant(system) && system.repo.operations == map[] && WORKER !in system.memories
    ensures Safe(Shop(system, [], Nothing))
  {
  }

  /** From any repository of new Worlds, at which nobody has looked: every run is safe. */
  lemma EveryRunIsSafe(r: Repo, turns: seq<Turn>)
    requires Filed(r) && r.operations == map[] && r.active == map[] && forall k :: k in r.worlds ==> r.worlds[k].status.Sleeping?
    requires forall i :: 0 <= i < |turns| ==> FreshTurn(Execute(Shop(System(r, map[], {}), [], Nothing), turns[..i]), turns[i])
    ensures Safe(Execute(Shop(System(r, map[], {}), [], Nothing), turns))
  {
    NewWorldsConsistent(r);
    StartsSafe(System(r, map[], {}));
    RunsSafely(Shop(System(r, map[], {}), [], Nothing), turns);
  }

  // ----- what safety says

  /** A sleep releases its runtime only after it persisted a validated state and backed that state up,
      with both already committed on the stored operation. */
  lemma ReleaseIsBackedUp(s: Shop, e: Outside, runtime: Runtime)
    requires Safe(s) && Held(s).Some? && Held(s).value.0.kind.Sleep?
    requires ReleaseRuntime(runtime) in AdvanceEffects(Held(s).value.0, Held(s).value.1, e)
    ensures var o := Held(s).value.0;
            && o.stored.Some? && o.backup.Some? && o.runtime == Some(runtime)
            && Persist(o.stored.value, true) in Own(s.trace, o.id)
            && Backup(o.stored.value, o.backup.value) in Own(s.trace, o.id)
            && (o.id in s.system.repo.operations ==>
                  s.system.repo.operations[o.id].stored == o.stored && s.system.repo.operations[o.id].backup == o.backup)
  {
    hide Invariant;
    var o := Held(s).value.0;
    assert Fits(Own(s.trace, o.id), o);
  }

  /** The turn in which a live sleep succeeds leaves its World asleep without a runtime, holding the very
      state that was persisted, validated and backed up, after the runtime was released. */
  lemma SleepKeepsTheWorld(s: Shop, t: Turn, id: Id)
    requires Safe(s) && FreshTurn(s, t) && id in s.system.repo.operations && s.system.repo.operations[id].kind.Sleep?
    requires Live(s.system.repo.operations[id])
    requires id in Step(s, t).system.repo.operations && Step(s, t).system.repo.operations[id].status.Succeeded?
    ensures var r := Step(s, t).system.repo;
            var o := r.operations[id];
            && KeyFor(o) in r.worlds
            && var w := r.worlds[KeyFor(o)];
               && w.status.Sleeping? && w.runtime.None? && w.stored == o.stored
               && Finished(Own(Step(s, t).trace, id), o) && Ordered(Own(Step(s, t).trace, id))
  {
    hide Safe, Step, Finished, Ordered, Own, Next, FreshTurn;
    StepKeeps(s, t);
    SleepStays(s, t, id);
    SleepAndDone(Step(s, t), id);
    if t.Others? {
      assert Step(s, t).system == Next(s.system, t.event) by { OthersStep(s, t.event); }
      OthersEndOnly(s, t.event, id);
    } else if t.Commit? {
      CommitSucceeds(s, id);
    } else {
      OnlyCommits(s, t);
    }
  }

  lemma OthersStep(s: Shop, event: Event)
    ensures Step(s, Others(event)).system == Next(s.system, event)
  {
  }

  lemma SleepAndDone(s: Shop, id: Id)
    requires Safe(s) && id in s.system.repo.operations && s.system.repo.operations[id].status.Succeeded?
    ensures s.system.repo.operations[id].kind.Sleep? ==>
              Finished(Own(s.trace, id), s.system.repo.operations[id]) && Ordered(Own(s.trace, id))
  {
    assert SleepFits(s, id);
  }

  lemma SleepStays(s: Shop, t: Turn, id: Id)
    requires Safe(s) && FreshTurn(s, t) && id in s.system.repo.operations && id in Step(s, t).system.repo.operations
    ensures Step(s, t).system.repo.operations[id].kind == s.system.repo.operations[id].kind
  {
    hide Safe, Own, Tag, AdvanceEffects, Next;
    assert Invariant(s.system) by { SafeInvariant(s); }
    StillContinues(s.system.repo.operations[id]);
    match t
    case Commit =>
      if !s.due.Nothing? {
        StepContinues(s.system, Act(WORKER, Intended(s.due)), id);
      }
    case Others(event) =>
      if !Purges(event) {
        StepContinues(s.system, event, id);
      } else {
        PurgeLeaves(s.system, event, id);
      }
    case _ => OnlyCommits(s, t);
  }

  lemma PurgeLeaves(s: System, e: Event, id: Id)
    requires Purges(e) && id in s.repo.operations && id in Next(s, e).repo.operations
    ensures Next(s, e).repo.operations[id] == s.repo.operations[id]
  {
  }

  lemma SafeInvariant(s: Shop)
    requires Safe(s)
    ensures Invariant(s.system)
  {
  }

  lemma OnlyCommits(s: Shop, t: Turn)
    requires t.FetchOperation? || t.FetchWorld? || t.Perform? || t.CleanUp?
    ensures Step(s, t).system.repo == s.system.repo
  {
    hide Own, Tag, AdvanceEffects;
  }

  lemma AdvanceSucceeds(s: Shop, id: Id)
    requires Safe(s) && s.due.Advancing? && id in s.system.repo.operations && s.system.repo.operations[id].kind.Sleep?
    requires Live(s.system.repo.operations[id])
    requires id in Step(s, Commit).system.repo.operations
    requires Step(s, Commit).system.repo.operations[id].status.Succeeded?
    ensures var r := Step(s, Commit).system.repo;
            var o := r.operations[id];
            && KeyFor(o) in r.worlds
            && var w := r.worlds[KeyFor(o)];
               w.status.Sleeping? && w.runtime.None? && w.stored == o.stored
  {
    hide Invariant, HeldFits, SleepFits, Own, PlanAdvance, MemoryCoherent;
    var (o, w) := Held(s).value;
    HeldIsSeen(s);
    SamePlan(MemoryOf(s.system, WORKER), Advance(s.due.answers));
    CommitWrites(s.system.repo, o, w, s.due.answers);
    assert PlanFor(Memory(Some(o), Some(w), None), Advance(s.due.answers)) == PlanAdvance(o, w, s.due.answers);
    hide Safe, PlanFor, Apply;
    SucceededPlan(s.system.repo, o, w, s.due.answers);
  }

  lemma CommitSucceeds(s: Shop, id: Id)
    requires Safe(s) && id in s.system.repo.operations && s.system.repo.operations[id].kind.Sleep?
    requires Live(s.system.repo.operations[id])
    requires id in Step(s, Commit).system.repo.operations
    requires Step(s, Commit).system.repo.operations[id].status.Succeeded?
    ensures var r := Step(s, Commit).system.repo;
            var o := r.operations[id];
            && KeyFor(o) in r.worlds
            && var w := r.worlds[KeyFor(o)];
               w.status.Sleeping? && w.runtime.None? && w.stored == o.stored
  {
    hide Safe, Step, Held;
    if s.due.Ending? {
      GivenUpIsOver(s, id);
    } else if s.due.Advancing? {
      AdvanceSucceeds(s, id);
    } else {
      assert Step(s, Commit) == s by { NothingDue(s); }
    }
  }

  lemma NothingDue(s: Shop)
    requires s.due.Nothing?
    ensures Step(s, Commit) == s
  {
  }

  lemma GivenUpIsOver(s: Shop, id: Id)
    requires Safe(s) && s.due.Ending? && id in s.system.repo.operations && id in Step(s, Commit).system.repo.operations
    requires s.system.repo.operations[id].kind.Sleep? && Live(s.system.repo.operations[id])
    ensures !Step(s, Commit).system.repo.operations[id].status.Succeeded?
  {
    OthersOnlyLeave(s.system, Act(WORKER, GiveUp));
    hide Invariant, Own, PlanFor, Apply, HeldFits, SleepFits;
  }

  lemma SucceededPlan(r: Repo, o: Operation, w: World, e: Outside)
    requires Live(o) && o.kind.Sleep? && KeyFor(o) == KeyOf(w) && o.id in r.operations && r.operations[o.id] == o
    requires PlanAdvance(o, w, e).SaveOp? && PlanAdvance(o, w, e).saved.status.Succeeded?
    requires o.id in Apply(r, PlanAdvance(o, w, e)).operations && Apply(r, PlanAdvance(o, w, e)).operations[o.id] != o
    ensures var s := Apply(r, PlanAdvance(o, w, e));
            KeyFor(o) in s.worlds && s.worlds[KeyFor(o)].status.Sleeping? && s.worlds[KeyFor(o)].runtime.None?
            && s.worlds[KeyFor(o)].stored == s.operations[o.id].stored && KeyFor(s.operations[o.id]) == KeyFor(o)
  {
  }

  lemma OthersEndOnly(s: Shop, event: Event, id: Id)
    requires Safe(s) && FreshTurn(s, Others(event)) && id in s.system.repo.operations
    requires Live(s.system.repo.operations[id])
    requires s.system.repo.operations[id].kind.Sleep? && id in Next(s.system, event).repo.operations
    ensures !Next(s.system, event).repo.operations[id].status.Succeeded?
  {
    RecallClient(s.system, event.client);
    assert Consistent(s.system.repo) && s.system.repo.operations.Keys <= s.system.used;
    hide Invariant, PlanFor, Apply, MemoryCoherent;
    if event.Act? {
      OthersLeave(s.system.repo, s.system.used, MemoryOf(s.system, event.client), event.intent, id);
    }
  }
}
