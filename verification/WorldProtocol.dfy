/** Services, workers and monitors as clients of one repository. A client reads a World, an operation or
    the list of recoveries when it likes, and later acts on whatever it last read. */
module WorldProtocol {
  import opened Base
  import opened WorldModel
  import opened WorldPlans
  import opened WorldLaws

  /** What a client has read. The recoveries are listed after the World they belong to. */
  datatype Memory = Memory(operation: Option<Operation>, world: Option<World>, listed: Option<map<Id, Time>>)

  datatype Intent =
    | AskWake(permitted: bool, storageOpen: bool, id: Id, key: string, now: Time)
    | AskSleep(permitted: bool, id: Id, key: string, now: Time, force: bool)
    | AskRecovery(id: Id, key: string, detectedAt: Time)
    | Observe(now: Time, idle: Option<int>, players: nat, guardSleeps: bool, id: Id, minute: string)
    | Advance(outside: Outside)
    | GiveUp
    | AttachSession(session: BillingSession)
    | FailPreflight
    | ChangeSettings(permitted: bool, minutes: Option<int>)
    | ChangeConfiguration(previewed: World, base: Revision, changes: map<string, Setting>, catalog: Catalog,
                          permitted: bool, id: Id, key: string)
    | RestoreData(permitted: bool, key: string, backup: Option<Stored>)
    | ScheduleDeletion(permitted: bool, confirmed: bool, finalBackup: Id, now: Time)
    | CancelDeletion(permitted: bool)
    | Purge(observedAt: Time)

  function Recoveries(r: Repo, k: WorldKey): map<Id, Time> {
    map id | id in r.operations && KeyFor(r.operations[id]) == k && r.operations[id].kind.Recover? :: r.operations[id].createdAt
  }

  function Recent(listed: map<Id, Time>, detectedAt: Time): set<Id> {
    set id | id in listed && listed[id] >= detectedAt - RECOVERY_WINDOW
  }

  function PlanFor(m: Memory, i: Intent): Plan {
    if m.world.None? then Done else
    var w := m.world.value;
    match i
    case AskWake(permitted, storageOpen, id, key, now) => PlanWake(w, permitted, storageOpen, id, key, now)
    case AskSleep(permitted, id, key, now, force) => PlanSleep(w, permitted, id, key, now, force)
    case AskRecovery(id, key, detectedAt) =>
      if m.listed.None? then Done else PlanRecover(w, |Recent(m.listed.value, detectedAt)|, id, key, detectedAt)
    case Observe(now, idle, players, guardSleeps, id, minute) => PlanMonitor(w, now, idle, players, guardSleeps, id, minute)
    case ChangeSettings(permitted, minutes) => PlanSettings(w, permitted, minutes)
    case ChangeConfiguration(previewed, base, changes, catalog, permitted, id, key) =>
      PlanConfigure(previewed, w, base, changes, catalog, permitted, id, key)
    case RestoreData(permitted, key, backup) => PlanRestore(w, permitted, key, backup)
    case ScheduleDeletion(permitted, confirmed, backup, now) => PlanDeletion(w, permitted, confirmed, backup, now)
    case CancelDeletion(permitted) => PlanCancelDeletion(w, permitted)
    case Purge(observedAt) => PlanPurge(w, observedAt)
    case _ =>
      if m.operation.None? || KeyFor(m.operation.value) != KeyOf(w) then Done else
      var o := m.operation.value;
      match i
      case Advance(e) => PlanAdvance(o, w, e)
      case GiveUp => PlanAttention(o, w)
      case AttachSession(session) => PlanAttach(o, w, session)
      case FailPreflight => PlanPreflightFailure(o, w)
      case _ => Done
  }

  datatype System = System(repo: Repo, memories: map<nat, Memory>, used: set<Id>)

  datatype Event =
    | ReadWorld(client: nat, key: WorldKey)
    | ReadOperation(client: nat, id: Id)
    | ListRecoveries(client: nat)
    | Act(client: nat, intent: Intent)

  function MemoryOf(s: System, client: nat): Memory {
    if client in s.memories then s.memories[client] else Memory(None, None, None)
  }

  function Remember(s: System, client: nat, m: Memory): System { s.(memories := s.memories[client := m]) }

  /** The identifier a request would give a new operation. */
  function NewId(i: Intent): Option<Id> {
    match i
    case AskWake(_, _, id, _, _) => Some(id)
    case AskSleep(_, id, _, _, _) => Some(id)
    case AskRecovery(id, _, _) => Some(id)
    case Observe(_, _, _, _, id, _) => Some(id)
    case _ => None
  }

  function Next(s: System, e: Event): System {
    var m := MemoryOf(s, e.client);
    match e
    case ReadWorld(c, k) =>
      if k in s.repo.worlds then Remember(s, c, m.(world := Some(s.repo.worlds[k]), listed := None)) else s
    case ReadOperation(c, id) =>
      if id in s.repo.operations then Remember(s, c, m.(operation := Some(s.repo.operations[id]))) else s
    case ListRecoveries(c) =>
      if m.world.Some? then Remember(s, c, m.(listed := Some(Recoveries(s.repo, KeyOf(m.world.value))))) else s
    case Act(c, i) =>
      s.(repo := Apply(s.repo, PlanFor(m, i)), used := if NewId(i).Some? then s.used + {NewId(i).value} else s.used)
  }

  function Exec(s: System, events: seq<Event>): System {
    if |events| == 0 then s else Next(Exec(s, events[..|events| - 1]), events[|events| - 1])
  }

  // ----- what every commit does to versions

  /** Records only move to later versions, and a World's recoveries only change when it does. */
  ghost predicate Progress(r: Repo, s: Repo) {
    && s.worlds.Keys <= r.worlds.Keys
    && (forall k :: k in s.worlds ==> s.worlds[k] == r.worlds[k] || s.worlds[k].version > r.worlds[k].version)
    && (forall id :: id in s.operations && id in r.operations ==>
          s.operations[id] == r.operations[id] || s.operations[id].version > r.operations[id].version)
    && (forall k :: k in s.worlds && s.worlds[k] == r.worlds[k] ==> Recoveries(s, k) == Recoveries(r, k))
  }

  ghost predicate Coherent(s: System) {
    && s.repo.operations.Keys <= s.used
    && forall c :: c in s.memories ==> MemoryCoherent(s.repo, s.used, s.memories[c])
  }

  ghost predicate MemoryCoherent(r: Repo, used: set<Id>, m: Memory) {
    && (m.world.Some? ==> SeenWorld(r, m.world.value))
    && (m.operation.Some? ==> SeenOperation(r, m.operation.value) && m.operation.value.id in used)
    && (m.world.Some? && m.listed.Some? ==>
          var k := KeyOf(m.world.value);
          k in r.worlds && r.worlds[k] == m.world.value ==> m.listed.value == Recoveries(r, k))
  }

  lemma CoherentAfter(r: Repo, s: Repo, used: set<Id>, m: Memory)
    requires MemoryCoherent(r, used, m) && Progress(r, s)
    requires forall id :: id in s.operations && id !in r.operations ==> id !in used
    ensures MemoryCoherent(s, used, m)
  {
  }

  // ----- every action keeps the invariant

  /** What a save of a live operation must leave behind, given the World it leaves. */
  predicate Legal(o: Operation, o': Operation, w: World) {
    && o'.id == o.id && KeyFor(o') == KeyFor(o) && o'.kind == o.kind && o'.version == o.version + 1
    && o'.createdAt == o.createdAt && KeyOf(w) == KeyFor(o)
    && if Live(o') then Coupled(w, o')
       else !w.status.GoingToSleep? && (w.status.Online? ==> w.runtime.Some?)
            && (w.status.Waking? ==> w.runtime.Some? && o'.kind.Recover? && o'.status.Failed?)
  }

  /** The save a plan asks for is legal on the current World `w`; if it writes a World, it read this one. */
  predicate LegalPlan(o: Operation, w: World, seen: World, p: Plan) {
    && p.SaveOp? && p.expectedOp == o.version
    && (p.write.None? ==> Legal(o, p.saved, w))
    && (p.write.Some? ==>
          && p.write.value.expected == seen.version && KeyOf(p.write.value.after) == KeyOf(seen)
          && p.write.value.after.version == seen.version + 1
          && (seen == w ==> Legal(o, p.saved, p.write.value.after)))
  }

  lemma WakeLegal(o: Operation, w: World, seen: World, e: Outside)
    requires Live(o) && o.kind.Wake? && Coupled(w, o) && KeyOf(w) == KeyFor(o) && KeyOf(seen) == KeyFor(o)
    ensures LegalPlan(o, w, seen, PlanWakeStep(o, seen, e))
    ensures Rank(PlanWakeStep(o, seen, e).saved) < Rank(o)
  {
  }

  lemma SleepLegal(o: Operation, w: World, seen: World, e: Outside)
    requires Live(o) && o.kind.Sleep? && Coupled(w, o) && KeyOf(w) == KeyFor(o) && KeyOf(seen) == KeyFor(o)
    ensures LegalPlan(o, w, seen, PlanSleepStep(o, seen, e))
    ensures Rank(PlanSleepStep(o, seen, e).saved) < Rank(o)
  {
  }

  lemma RecoveryLegal(o: Operation, w: World, seen: World, e: Outside)
    requires Live(o) && o.kind.Recover? && Coupled(w, o) && KeyOf(w) == KeyFor(o) && KeyOf(seen) == KeyFor(o)
    ensures LegalPlan(o, w, seen, PlanRecoveryStep(o, seen, e))
    ensures Rank(PlanRecoveryStep(o, seen, e).saved) < Rank(o)
  {
  }

  /** No reachable operation is stuck: on a live, coupled operation an advance always asks for a save,
      never stops for a phase, runtime or state it lacks, and what it saves has a lower rank. */
  lemma AdvanceLegal(o: Operation, w: World, seen: World, e: Outside)
    requires Live(o) && Coupled(w, o) && KeyOf(w) == KeyFor(o) && KeyOf(seen) == KeyFor(o)
    ensures LegalPlan(o, w, seen, PlanAdvance(o, seen, e))
    ensures Rank(PlanAdvance(o, seen, e).saved) < Rank(o)
  {
    hide LegalPlan, Rank, Coupled, PlanWakeStep, PlanSleepStep, PlanRecoveryStep;
    match o.kind
    case Wake => WakeLegal(o, w, seen, e);
    case Sleep => SleepLegal(o, w, seen, e);
    case Recover => RecoveryLegal(o, w, seen, e);
  }

  lemma EndingsLegal(o: Operation, w: World, seen: World)
    requires Live(o) && Coupled(w, o) && KeyOf(w) == KeyFor(o) && KeyOf(seen) == KeyFor(o)
    ensures LegalPlan(o, w, seen, PlanAttention(o, seen))
    ensures LegalPlan(o, w, seen, PlanPreflightFailure(o, seen))
  {
  }

  /** A commit about World `k` and operation `id` makes progress when what it rewrites moves on. */
  lemma LocalProgress(r: Repo, s: Repo, k: WorldKey, id: Id)
    requires Local(r, s, k, id)
    requires id in r.operations && id in s.operations ==>
               s.operations[id].version > r.operations[id].version || s.operations[id] == r.operations[id]
    requires k in s.worlds ==>
               s.worlds[k].version > r.worlds[k].version
               || (s.worlds[k] == r.worlds[k] && id in r.operations && s.operations[id].kind == r.operations[id].kind
                   && s.operations[id].createdAt == r.operations[id].createdAt)
    ensures Progress(r, s)
  {
    hide Recoveries;
    forall j | j in s.worlds && s.worlds[j] == r.worlds[j] ensures Recoveries(s, j) == Recoveries(r, j) {
      SameRecoveries(r, s, k, id, j);
    }
  }

  lemma SameRecoveries(r: Repo, s: Repo, k: WorldKey, id: Id, j: WorldKey)
    requires Local(r, s, k, id)
    requires j != k
             || (id in r.operations && id in s.operations && s.operations[id].kind == r.operations[id].kind
                 && s.operations[id].createdAt == r.operations[id].createdAt)
    ensures Recoveries(s, j) == Recoveries(r, j)
  {
    assert forall x :: x in Recoveries(s, j) <==> x in Recoveries(r, j);
  }

  lemma SaveProgress(r: Repo, o: Operation, seen: World, p: Plan)
    requires Filed(r) && o.id in r.operations && r.operations[o.id] == o && !(o.kind.Recover? && o.status.Failed?)
    requires p.SaveOp? && p.saved.id == o.id && KeyFor(p.saved) == KeyFor(o) && p.saved.kind == o.kind
    requires p.saved.createdAt == o.createdAt && p.saved.version == o.version + 1
    requires p.write.Some? ==> KeyOf(p.write.value.after) == KeyFor(o) && p.write.value.after.version == p.write.value.expected + 1
    ensures Progress(r, Apply(r, p)) && Apply(r, p).operations.Keys == r.operations.Keys
  {
    hide Progress;
    var s, k := Apply(r, p), KeyFor(o);
    if s != r {
      assert Local(r, s, k, o.id);
      LocalProgress(r, s, k, o.id);
    } else {
      assert Progress(r, r) by { StillProgress(r); }
    }
  }

  lemma StillProgress(r: Repo)
    ensures Progress(r, r)
  {
  }

  lemma LegalPlanKeeps(r: Repo, o: Operation, seen: World, p: Plan)
    requires Consistent(r) && SeenWorld(r, seen) && KeyOf(seen) == KeyFor(o) && Live(o)
    requires o.id in r.operations && r.operations[o.id] == o
    requires KeyFor(o) in r.worlds && LegalPlan(o, r.worlds[KeyFor(o)], seen, p)
    ensures Kept(r, Apply(r, p), None)
  {
    hide Consistent, Coupled, Progress;
    var s := Apply(r, p);
    if p.write.Some? && r.worlds[KeyFor(o)].version != seen.version {
      assert s == r;
      NothingKept(r);
    } else {
      SaveConsistent(r, o, p.saved, p.write);
      assert Filed(r) by { Unfold(r); }
      SaveProgress(r, o, seen, p);
    }
  }

  lemma LiveIsCoupled(r: Repo, o: Operation)
    requires Consistent(r) && Live(o) && o.id in r.operations && r.operations[o.id] == o
    ensures KeyFor(o) in r.worlds && Coupled(r.worlds[KeyFor(o)], o) && KeyOf(r.worlds[KeyFor(o)]) == KeyFor(o)
  {
    assert Settled(r, KeyFor(o));
  }

  ghost predicate Kept(r: Repo, s: Repo, added: Option<Id>) {
    && Consistent(s) && Progress(r, s)
    && (forall id :: id in s.operations && id !in r.operations ==> added == Some(id))
  }

  lemma OperationActs(r: Repo, o: Operation, seen: World, i: Intent)
    requires Consistent(r) && SeenOperation(r, o) && SeenWorld(r, seen) && KeyOf(seen) == KeyFor(o)
    requires i.Advance? || i.GiveUp? || i.FailPreflight?
    ensures Kept(r, Apply(r, PlanFor(Memory(Some(o), Some(seen), None), i)), None)
  {
    hide Consistent, Coupled, PlanAdvance, Progress, LegalPlan, Rank;
    var p := PlanFor(Memory(Some(o), Some(seen), None), i);
    NothingKept(r);
    if Live(o) {
      if o.id in r.operations && r.operations[o.id] == o {
        LiveIsCoupled(r, o);
        var w := r.worlds[KeyFor(o)];
        if i.Advance? {
          AdvanceLegal(o, w, seen, i.outside);
        } else {
          EndingsLegal(o, w, seen);
        }
        LegalPlanKeeps(r, o, seen, p);
      } else {
        SupersededDoesNothing(r, o, seen, i);
      }
    } else {
      assert p == Done by { ShutPlans(o, seen, i); }
    }
  }

  lemma ShutPlans(o: Operation, seen: World, i: Intent)
    requires !Live(o) && KeyOf(seen) == KeyFor(o) && (i.Advance? || i.GiveUp? || i.FailPreflight?)
    ensures PlanFor(Memory(Some(o), Some(seen), None), i) == Done
  {
  }

  lemma SupersededDoesNothing(r: Repo, o: Operation, seen: World, i: Intent)
    requires SeenOperation(r, o) && KeyOf(seen) == KeyFor(o) && Live(o)
    requires !(o.id in r.operations && r.operations[o.id] == o)
    requires i.Advance? || i.GiveUp? || i.FailPreflight?
    ensures Apply(r, PlanFor(Memory(Some(o), Some(seen), None), i)) == r
  {
    EndingPlans(o, seen, i);
    hide PlanFor;
  }

  lemma EndingPlans(o: Operation, seen: World, i: Intent)
    requires KeyOf(seen) == KeyFor(o) && (i.Advance? || i.GiveUp? || i.FailPreflight?)
    ensures var p := PlanFor(Memory(Some(o), Some(seen), None), i);
            (p.SaveOp? && p.saved.id == o.id && p.expectedOp == o.version) || p.Done? || p.Stop?
  {
  }

  lemma NothingKept(r: Repo)
    requires Consistent(r)
    ensures Kept(r, r, None)
  {
  }

  lemma AttachActs(r: Repo, o: Operation, seen: World, session: BillingSession)
    requires Consistent(r) && SeenOperation(r, o) && SeenWorld(r, seen) && KeyOf(seen) == KeyFor(o)
    ensures Kept(r, Apply(r, PlanAttach(o, seen, session)), None)
  {
    hide Consistent, Progress, Coupled;
    var p := PlanAttach(o, seen, session);
    var s := Apply(r, p);
    NothingKept(r);
    if s != r {
      var k := KeyFor(o);
      assert r.operations[o.id] == o && r.worlds[k] == seen;
      if Live(o) {
        LiveIsCoupled(r, o);
        CoupledWithSession(seen, o, session);
      }
      SaveConsistent(r, o, p.saved, p.write);
      assert Filed(r) by { Unfold(r); }
      SaveProgress(r, o, seen, p);
    }
  }

  lemma CoupledWithSession(w: World, o: Operation, session: BillingSession)
    requires Coupled(w, o)
    ensures Coupled(w.(session := Some(session), version := w.version + 1), o.(session := Some(session), version := o.version + 1))
  {
  }

  lemma BeginActs(r: Repo, seen: World, after: World, o: Operation)
    requires Consistent(r) && SeenWorld(r, seen) && o.id !in r.operations
    requires Live(o) && KeyOf(after) == KeyFor(o) == KeyOf(seen) && after.version == seen.version + 1
    requires KeyOf(seen) in r.worlds && r.worlds[KeyOf(seen)] == seen && KeyOf(seen) !in r.active ==> Coupled(after, o)
    ensures Kept(r, Begin(r, after, o, seen.version).0, Some(o.id))
  {
    hide Consistent, Coupled, Begin, Progress;
    assert Filed(r) && IndexExact(r) by { Unfold(r); }
    BeginConsistent(r, after, o, seen.version);
    BeginWrites(r, after, o, seen.version);
    var s := Begin(r, after, o, seen.version).0;
    if s == r {
      NothingKept(r);
    } else {
      BeginLocal(r, after, o);
      LocalProgress(r, s, KeyFor(o), o.id);
    }
  }

  lemma BeginLocal(r: Repo, after: World, o: Operation)
    requires Filed(r) && IndexExact(r) && o.id !in r.operations && KeyFor(o) in r.worlds && KeyOf(after) == KeyFor(o)
    ensures Local(r, Begun(r, after, o), KeyFor(o), o.id)
  {
  }

  /** What a World without a live operation tells the request that read it. */
  lemma RestingWorld(r: Repo, w: World)
    requires Consistent(r) && KeyOf(w) in r.worlds && r.worlds[KeyOf(w)] == w && KeyOf(w) !in r.active
    ensures (w.status.Online? || w.status.Waking?) ==> w.runtime.Some?
  {
    assert Settled(r, KeyOf(w));
  }

  lemma RequestActs(r: Repo, used: set<Id>, m: Memory, i: Intent)
    requires Consistent(r) && MemoryCoherent(r, used, m) && NewId(i).Some? && NewId(i).value !in r.operations
    ensures Kept(r, Apply(r, PlanFor(m, i)), NewId(i))
  {
    hide Consistent, Begin, Progress;
    NothingKept(r);
    var p := PlanFor(m, i);
    if p.BeginOp? {
      var w := m.world.value;
      if KeyOf(w) in r.worlds && r.worlds[KeyOf(w)] == w && KeyOf(w) !in r.active {
        RestingWorld(r, w);
        assert Coupled(p.after, p.operation);
      }
      BeginActs(r, w, p.after, p.operation);
    } else if p.Touch? {
      WorldActs(r, used, m, i);
    }
  }

  /** A World saved alone, with or without a revision, keeps every operation. */
  lemma TouchActs(r: Repo, w: World, after: World, s: Repo)
    requires Consistent(r) && KeyOf(w) in r.worlds && r.worlds[KeyOf(w)] == w && KeyOf(after) == KeyOf(w)
    requires after.runtime == w.runtime && after.version == w.version + 1
    requires after.status == w.status
             || (w.status in {Sleeping, PendingDeletion} && after.status in {Sleeping, PendingDeletion})
    requires s.worlds == r.worlds[KeyOf(w) := after] && s.operations == r.operations && s.active == r.active
    ensures Kept(r, s, None)
  {
    hide Consistent;
    TouchConsistent(r, w, after, s);
    forall j | j in s.worlds ensures Recoveries(s, j) == Recoveries(r, j) {
    }
  }

  lemma WorldActs(r: Repo, used: set<Id>, m: Memory, i: Intent)
    requires Consistent(r) && MemoryCoherent(r, used, m)
    requires var p := PlanFor(m, i); p.Touch? || p.Append?
    ensures Kept(r, Apply(r, PlanFor(m, i)), None)
  {
    hide Consistent, Kept, Recoveries, Propose, EmptySince, IdleElapsed;
    var p, w := PlanFor(m, i), m.world.value;
    var s := Apply(r, p);
    NothingKept(r);
    if s != r {
      assert SeenWorld(r, w);
      TouchActs(r, w, if p.Touch? then p.touched else p.based, s);
    }
  }

  lemma DeleteActs(r: Repo, k: WorldKey)
    requires Consistent(r)
    ensures Kept(r, Delete(r, k).0, None)
  {
    hide Consistent;
    DeleteConsistent(r, k);
    var s := Delete(r, k).0;
    forall j | j in s.worlds ensures Recoveries(s, j) == Recoveries(r, j) {
    }
  }

  /** Every action of every client, on whatever it has read, keeps the invariant. */
  lemma ActKeeps(r: Repo, used: set<Id>, m: Memory, i: Intent)
    requires Consistent(r) && MemoryCoherent(r, used, m)
    requires NewId(i).Some? ==> NewId(i).value !in r.operations
    ensures Kept(r, Apply(r, PlanFor(m, i)), NewId(i))
  {
    hide Consistent, Progress, MemoryCoherent;
    NothingKept(r);
    if NewId(i).Some? {
      RequestActs(r, used, m, i);
    } else if m.world.Some? {
      var w := m.world.value;
      if (i.Advance? || i.GiveUp? || i.FailPreflight? || i.AttachSession?) {
        if m.operation.Some? && KeyFor(m.operation.value) == KeyOf(w) {
          Recall(r, used, m);
          if i.AttachSession? {
            AttachActs(r, m.operation.value, w, i.session);
          } else {
            SamePlan(m, i);
            OperationActs(r, m.operation.value, w, i);
          }
        }
      } else if i.Purge? {
        DeleteActs(r, KeyOf(w));
      } else if PlanFor(m, i).Touch? || PlanFor(m, i).Append? {
        WorldActs(r, used, m, i);
      }
    }
  }

  lemma Recall(r: Repo, used: set<Id>, m: Memory)
    requires MemoryCoherent(r, used, m) && m.world.Some? && m.operation.Some?
    ensures SeenOperation(r, m.operation.value) && SeenWorld(r, m.world.value)
  {
  }

  lemma SamePlan(m: Memory, i: Intent)
    requires m.world.Some? && m.operation.Some? && (i.Advance? || i.GiveUp? || i.FailPreflight?)
    ensures PlanFor(m, i) == PlanFor(Memory(m.operation, m.world, None), i)
  {
  }

  ghost predicate Invariant(s: System) { Consistent(s.repo) && Coherent(s) }

  ghost predicate FreshEvent(s: System, e: Event) {
    e.Act? && NewId(e.intent).Some? ==> NewId(e.intent).value !in s.used
  }

  lemma NextKeeps(s: System, e: Event)
    requires Invariant(s) && FreshEvent(s, e)
    ensures Invariant(Next(s, e))
  {
    hide Consistent, MemoryCoherent;
    var m, t := MemoryOf(s, e.client), Next(s, e);
    assert MemoryCoherent(s.repo, s.used, m) by { RecallClient(s, e.client); }
    if e.Act? {
      ActKeeps(s.repo, s.used, m, e.intent);
      forall c | c in t.memories ensures MemoryCoherent(t.repo, t.used, t.memories[c]) {
        CoherentAfter(s.repo, t.repo, s.used, s.memories[c]);
        MoreUsed(t.repo, s.used, t.used, s.memories[c]);
      }
    } else {
      ReadKeeps(s, e);
    }
  }

  lemma RecallClient(s: System, client: nat)
    requires Coherent(s)
    ensures MemoryCoherent(s.repo, s.used, MemoryOf(s, client))
  {
  }

  lemma MoreUsed(r: Repo, used: set<Id>, more: set<Id>, m: Memory)
    requires MemoryCoherent(r, used, m) && used <= more
    ensures MemoryCoherent(r, more, m)
  {
  }

  lemma ReadKeeps(s: System, e: Event)
    requires Invariant(s) && !e.Act?
    ensures Invariant(Next(s, e))
  {
    var m := MemoryOf(s, e.client);
    assert MemoryCoherent(s.repo, s.used, m) by { RecallClient(s, e.client); }
    hide IndexExact, Settled;
    assert Filed(s.repo);
    assert MemoryCoherent(s.repo, s.used, MemoryOf(Next(s, e), e.client));
  }

  ghost predicate FreshRun(s: System, events: seq<Event>) {
    forall i :: 0 <= i < |events| ==> FreshEvent(Exec(s, events[..i]), events[i])
  }

  /** In every state reachable by any interleaving of reads and actions, with any number of clients: at
      most one live operation per World, the World's status names it, Worlds without one are resting,
      and the active index equals the scan. */
  lemma {:induction false} RunKeeps(s: System, events: seq<Event>)
    requires Invariant(s) && FreshRun(s, events)
    ensures Invariant(Exec(s, events))
  {
    hide Invariant, FreshEvent, Next;
    if |events| > 0 {
      var n := |events| - 1;
      forall i | 0 <= i < n ensures FreshEvent(Exec(s, events[..n][..i]), events[..n][i]) {
        assert events[..n][..i] == events[..i];
      }
      RunKeeps(s, events[..n]);
      NextKeeps(Exec(s, events[..n]), events[n]);
    }
  }

  /** A repository of newly created Worlds starts consistent. */
  lemma NewWorldsConsistent(r: Repo)
    requires Filed(r) && r.operations == map[] && r.active == map[]
    requires forall k :: k in r.worlds ==> r.worlds[k].status.Sleeping?
    ensures Invariant(System(r, map[], {}))
  {
  }

  // ----- what a plan writes

  function Written(p: Plan): Option<World> {
    match p
    case BeginOp(after, _, _) => Some(after)
    case SaveOp(_, _, write) => if write.Some? then Some(write.value.after) else None
    case Touch(after, _) => Some(after)
    case Append(after, _, _) => Some(after)
    case _ => None
  }

  lemma OneWorldWritten(r: Repo, w: World, p: Plan)
    requires Filed(r) && IndexExact(r) && SeenWorld(r, w)
    requires Written(p).Some? ==> KeyOf(Written(p).value) == KeyOf(w)
    requires p.BeginOp? ==> KeyFor(p.operation) == KeyOf(w) && p.expected == w.version
    requires p.Touch? ==> p.expectedWorld == w.version
    requires p.Append? ==> p.expectedBase == w.version
    requires p.SaveOp? && p.write.Some? ==> p.write.value.expected == w.version
    ensures forall k :: k in Apply(r, p).worlds ==>
              k in r.worlds
              && (Apply(r, p).worlds[k] == r.worlds[k]
                  || (Written(p).Some? && k == KeyOf(w) && r.worlds[k] == w && Apply(r, p).worlds[k] == Written(p).value
                      && Apply(r, p) != r))
    ensures Written(p).Some? && Apply(r, p) != r ==>
              KeyOf(w) in r.worlds && r.worlds[KeyOf(w)] == w && KeyOf(w) in Apply(r, p).worlds
              && Apply(r, p).worlds[KeyOf(w)] == Written(p).value
  {
    hide Begin;
    if p.BeginOp? {
      BeginWrites(r, p.after, p.operation, p.expected);
    }
  }

  lemma PlansFitReads(m: Memory, i: Intent)
    requires m.world.Some?
    ensures var p, w := PlanFor(m, i), m.world.value;
            && (Written(p).Some? ==> KeyOf(Written(p).value) == KeyOf(w) && Written(p).value.version == w.version + 1)
            && (p.BeginOp? ==> KeyFor(p.operation) == KeyOf(w) && p.expected == w.version)
            && (p.Touch? ==> p.expectedWorld == w.version)
            && (p.Append? ==> p.expectedBase == w.version)
            && (p.SaveOp? && p.write.Some? ==> p.write.value.expected == w.version)
  {
    hide EmptySince, IdleElapsed, Propose, Recent;
  }

  /** What one plan may do to the operations. */
  ghost predicate OneRewritten(r: Repo, s: Repo, p: Plan) {
    && (forall id :: id in s.operations && id in r.operations ==>
          s.operations[id] == r.operations[id]
          || (p.SaveOp? && id == p.saved.id && r.operations[id].version == p.expectedOp && s.operations[id] == p.saved))
    && (forall id :: id in s.operations && id !in r.operations ==>
          p.BeginOp? && id == p.operation.id && s.operations[id] == p.operation)
    && (r.operations.Keys <= s.operations.Keys || p.Remove?)
  }

  lemma AppliesOnce(r: Repo, p: Plan)
    requires Filed(r) && IndexExact(r) && (p.BeginOp? ==> p.operation.id !in r.operations)
    ensures OneRewritten(r, Apply(r, p), p)
  {
    hide Begin;
    if p.BeginOp? {
      BeginWrites(r, p.after, p.operation, p.expected);
    } else if p.SaveOp? {
      SavesOnce(r, p.saved, p.expectedOp, p.write);
      hide SaveOperation;
    } else {
      hide IndexExact;
    }
  }

  lemma SavesOnce(r: Repo, o: Operation, expected: nat, write: Option<WorldWrite>)
    ensures var s := SaveOperation(r, o, expected, write).0;
            && s.operations.Keys == r.operations.Keys
            && (forall id :: id in r.operations ==>
                  s.operations[id] == r.operations[id]
                  || (id == o.id && r.operations[id].version == expected && s.operations[id] == o))
  {
  }
}
