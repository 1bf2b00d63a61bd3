/** What every action makes of a live operation and its World: one table over kinds, phases and answers, and
    how operations end over whole runs, told from the records and the events. */
module Outcomes {
  import opened Base
  import opened WorldModel
  import opened WorldPlans
  import opened WorldLaws
  import opened WorldProtocol
  import opened RecoveryWindow
  import opened Endings

  // ----- the table

  /** The status and phase an operation gets, and the status its World is given, if any. */
  datatype Row = Row(status: OperationStatus, phase: Phase, shown: Option<WorldStatus>)

  function Onward(phase: Phase): Row { Row(Running, phase, None) }

  function WakeRow(o: Operation, e: Outside): Row {
    match o.phase
    case Requested => Onward(ProvisioningRuntime)
    case ProvisioningRuntime => Row(o.status, RestoringWorld, None)
    case RestoringWorld => Onward(ApplyingConfiguration)
    case ApplyingConfiguration => Onward(StartingGame)
    case StartingGame => Onward(CheckingGameHealth)
    case CheckingGameHealth => if e.healthy then Row(Succeeded, Complete, Some(Online)) else Onward(StoppingGame)
    case StoppingGame => Onward(ReleasingRuntime)
    case _ => Row(NeedsAttention, Complete, Some(Attention))
  }

  function SleepRow(o: Operation, e: Outside): Row {
    match o.phase
    case Requested => Onward(CheckingPlayers)
    case CheckingPlayers => if o.force || e.players == 0 then Onward(SavingGame) else Row(Cancelled, Complete, Some(Online))
    case SavingGame => Onward(StoppingGame)
    case StoppingGame => Onward(PersistingWorld)
    case PersistingWorld =>
      if e.validated then Row(o.status, CreatingBackup, None) else Row(NeedsAttention, PersistingWorld, Some(Attention))
    case CreatingBackup => Row(o.status, ReleasingRuntime, None)
    case _ => Row(Succeeded, Complete, Some(Sleeping))
  }

  function RecoverRow(o: Operation, e: Outside): Row {
    match o.phase
    case Requested => Onward(StartingGame)
    case StartingGame => Onward(CheckingGameHealth)
    case _ =>
      if e.healthy then Row(Succeeded, Complete, Some(Online))
      else if o.attempt == 3 then Row(NeedsAttention, Complete, Some(Attention))
      else Row(Failed, Complete, Some(Waking))
  }

  predicate Settling(i: Intent) { i.Advance? || i.GiveUp? || i.FailPreflight? }

  function RowOf(o: Operation, i: Intent): Row
    requires Settling(i)
  {
    if i.GiveUp? then Row(NeedsAttention, o.phase, Some(Attention))
    else if i.FailPreflight? then Row(Failed, Complete, Some(Sleeping))
    else match o.kind
         case Wake => WakeRow(o, i.outside)
         case Sleep => SleepRow(o, i.outside)
         case Recover => RecoverRow(o, i.outside)
  }

  // ----- the records

  predicate At(o: Operation, i: Intent, kind: OperationKind, phase: Phase) { i.Advance? && o.kind == kind && o.phase == phase }

  /** The runtime is gone and the session over: a finished sleep, a failed wake, a wake given up. */
  predicate Released(o: Operation, i: Intent) {
    At(o, i, Sleep, ReleasingRuntime) || At(o, i, Wake, ReleasingRuntime) || (i.GiveUp? && o.kind == Wake)
  }

  ghost predicate OperationAfter(o: Operation, i: Intent, o': Operation)
    requires Settling(i)
  {
    && o' == o.(status := RowOf(o, i).status, phase := RowOf(o, i).phase, version := o.version + 1,
                runtime := o'.runtime, startedAt := o'.startedAt, stored := o'.stored, backup := o'.backup)
    && o'.runtime == (if At(o, i, Wake, ProvisioningRuntime) then Some(i.outside.runtime) else o.runtime)
    && o'.startedAt == (if At(o, i, Wake, ProvisioningRuntime) then Some(i.outside.now) else o.startedAt)
    && o'.stored == (if At(o, i, Sleep, PersistingWorld) && i.outside.validated then Some(i.outside.stored) else o.stored)
    && o'.backup == (if At(o, i, Sleep, CreatingBackup) then Some(i.outside.backup) else o.backup)
  }

  /** The World is written when it changes status, gets its runtime, or has its configuration applied. */
  predicate WritesWorld(o: Operation, w: World, i: Intent)
    requires Settling(i)
  {
    || RowOf(o, i).shown.Some? || At(o, i, Wake, ProvisioningRuntime)
    || (At(o, i, Wake, ApplyingConfiguration) && w.pendingConfiguration.Some?)
  }

  ghost predicate WorldAfter(o: Operation, w: World, i: Intent, w': World)
    requires Settling(i)
  {
    && w' == w.(version := w.version + 1, status := w'.status, runtime := w'.runtime, session := w'.session,
                startedAt := w'.startedAt, emptySince := w'.emptySince, stored := w'.stored,
                configuration := w'.configuration, pendingConfiguration := w'.pendingConfiguration)
    && (if RowOf(o, i).shown.Some? then Some(w'.status) == RowOf(o, i).shown else w'.status == w.status)
    && w'.runtime == (if At(o, i, Wake, ProvisioningRuntime) then Some(i.outside.runtime)
                      else if Released(o, i) then None else w.runtime)
    && w'.startedAt == (if At(o, i, Wake, ProvisioningRuntime) then Some(i.outside.now)
                        else if Released(o, i) || i.FailPreflight? then None else w.startedAt)
    && w'.session == (if Released(o, i) || i.FailPreflight? then None else w.session)
    && w'.emptySince == (if At(o, i, Wake, CheckingGameHealth) || At(o, i, Sleep, CheckingPlayers) || At(o, i, Sleep, ReleasingRuntime)
                         then None else w.emptySince)
    && w'.stored == (if At(o, i, Sleep, ReleasingRuntime) then o.stored else w.stored)
    && (if At(o, i, Wake, ApplyingConfiguration) && w.pendingConfiguration.Some?
        then w'.configuration == w.pendingConfiguration.value && w'.pendingConfiguration == None
        else w'.configuration == w.configuration && w'.pendingConfiguration == w.pendingConfiguration)
  }

  // ----- plans

  ghost predicate Planned(o: Operation, w: World, i: Intent, p: Plan)
    requires Settling(i)
  {
    && p.SaveOp? && p.expectedOp == o.version && OperationAfter(o, i, p.saved)
    && (p.write.Some? <==> WritesWorld(o, w, i))
    && (p.write.Some? ==> p.write.value.expected == w.version && WorldAfter(o, w, i, p.write.value.after))
  }

  lemma WakePlanned(o: Operation, w: World, i: Intent)
    requires Live(o) && Ready(o) && o.kind.Wake? && i.Advance?
    ensures Planned(o, w, i, PlanWakeStep(o, w, i.outside))
  {
    assert OperationAfter(o, i, PlanWakeStep(o, w, i.outside).saved);
    hide OperationAfter;
  }

  lemma SleepPlanned(o: Operation, w: World, i: Intent)
    requires Live(o) && Ready(o) && o.kind.Sleep? && i.Advance?
    ensures Planned(o, w, i, PlanSleepStep(o, w, i.outside))
  {
    assert OperationAfter(o, i, PlanSleepStep(o, w, i.outside).saved);
    hide OperationAfter;
  }

  lemma RecoveryPlanned(o: Operation, w: World, i: Intent)
    requires Live(o) && Ready(o) && o.kind.Recover? && i.Advance?
    ensures Planned(o, w, i, PlanRecoveryStep(o, w, i.outside))
  {
  }

  lemma EndingPlanned(o: Operation, w: World, i: Intent)
    requires Live(o) && (i.GiveUp? || i.FailPreflight?)
    ensures Planned(o, w, i, if i.GiveUp? then PlanAttention(o, w) else PlanPreflightFailure(o, w))
  {
  }

  lemma PlansFollowTable(m: Memory, i: Intent)
    requires m.operation.Some? && m.world.Some? && KeyFor(m.operation.value) == KeyOf(m.world.value) && Settling(i)
    requires Live(m.operation.value) && Ready(m.operation.value)
    ensures Planned(m.operation.value, m.world.value, i, PlanFor(m, i))
  {
    hide Planned, PlanWakeStep, PlanSleepStep, PlanRecoveryStep, PlanAttention, PlanPreflightFailure, Ready;
    var o, w := m.operation.value, m.world.value;
    if i.Advance? {
      if o.kind.Wake? {
        WakePlanned(o, w, i);
      } else if o.kind.Sleep? {
        SleepPlanned(o, w, i);
      } else {
        RecoveryPlanned(o, w, i);
      }
    } else {
      EndingPlanned(o, w, i);
    }
  }

  // ----- actions

  /** The action takes the operation one step: its client remembers the stored operation and a World of its
      key, and the World as it is stored where the step writes it. */
  predicate Acts(s: System, e: Event, id: Id)
    requires id in s.repo.operations
  {
    var o, m := s.repo.operations[id], MemoryOf(s, e.client);
    && e.Act? && Settling(e.intent) && m.operation == Some(o) && m.world.Some? && KeyOf(m.world.value) == KeyFor(o)
    && (WritesWorld(o, m.world.value, e.intent) ==> KeyFor(o) in s.repo.worlds && m.world.value == s.repo.worlds[KeyFor(o)])
  }

  /** The action gives a waiting wake its billing session. */
  predicate Attaches(s: System, e: Event, id: Id)
    requires id in s.repo.operations
  {
    var o, m := s.repo.operations[id], MemoryOf(s, e.client);
    && e.Act? && e.intent.AttachSession? && m.operation == Some(o)
    && KeyFor(o) in s.repo.worlds && m.world == Some(s.repo.worlds[KeyFor(o)])
    && o.kind == Wake && o.phase == Requested && o.session == None
  }

  function Attached(s: System, e: Event, id: Id): (Operation, World)
    requires id in s.repo.operations && Attaches(s, e, id)
  {
    var o := s.repo.operations[id];
    var w := s.repo.worlds[KeyFor(o)];
    (o.(session := Some(e.intent.session), version := o.version + 1), w.(session := Some(e.intent.session), version := w.version + 1))
  }

  /** What one event makes of a live operation. */
  ghost predicate Stepped(s: System, e: Event, id: Id, t: Repo)
    requires id in s.repo.operations && id in t.operations
  {
    var o := s.repo.operations[id];
    if Acts(s, e, id) then
      var w := MemoryOf(s, e.client).world.value;
      && OperationAfter(o, e.intent, t.operations[id])
      && if WritesWorld(o, w, e.intent) then KeyFor(o) in t.worlds && WorldAfter(o, w, e.intent, t.worlds[KeyFor(o)])
         else t.worlds == s.repo.worlds
    else if Attaches(s, e, id) then
      t.operations[id] == Attached(s, e, id).0 && KeyFor(o) in t.worlds && t.worlds[KeyFor(o)] == Attached(s, e, id).1
    else t.operations[id] == o
  }

  /** A save commits when it meets the versions it read, and then writes these records. */
  lemma SaveCommits(r: Repo, o: Operation, w: World, p: Plan)
    requires p.SaveOp? && o.id in r.operations && r.operations[o.id] == o && p.expectedOp == o.version && p.saved.id == o.id
    requires p.write.Some? ==> KeyOf(p.write.value.after) == KeyFor(o) && p.write.value.expected == w.version
    requires KeyOf(w) == KeyFor(o) && SeenWorld(r, w)
    ensures var s := Apply(r, p);
            if p.write.None? || (KeyFor(o) in r.worlds && r.worlds[KeyFor(o)] == w) then
              && o.id in s.operations && s.operations[o.id] == p.saved
              && s.worlds == if p.write.Some? then r.worlds[KeyFor(o) := p.write.value.after] else r.worlds
            else s == r
  {
  }

  lemma ActsAsPlanned(s: System, e: Event, id: Id)
    requires Invariant(s) && LiveIn(s.repo, id) && e.Act? && Settling(e.intent)
    requires var m := MemoryOf(s, e.client);
             m.operation == Some(s.repo.operations[id]) && m.world.Some? && KeyOf(m.world.value) == KeyFor(s.repo.operations[id])
    ensures id in Next(s, e).repo.operations && Stepped(s, e, id, Next(s, e).repo)
    ensures WritesWorld(s.repo.operations[id], MemoryOf(s, e.client).world.value, e.intent) && !Acts(s, e, id) ==>
              Next(s, e).repo == s.repo
  {
    var r, m := s.repo, MemoryOf(s, e.client);
    var o, w := r.operations[id], m.world.value;
    assert Filed(r);
    RecallClient(s, e.client);
    LiveIsCoupled(r, o);
    PlansFollowTable(m, e.intent);
    PlansFitReads(m, e.intent);
    hide Invariant, Consistent, PlanFor, Ready, RowOf;
    SaveCommits(r, o, w, PlanFor(m, e.intent));
    hide Apply;
  }

  lemma AttachPlanned(m: Memory, session: BillingSession)
    requires m.operation.Some? && m.world.Some? && KeyFor(m.operation.value) == KeyOf(m.world.value)
    ensures var o, w := m.operation.value, m.world.value;
            var p := PlanFor(m, AttachSession(session));
            (p.SaveOp? <==> o.kind == Wake && o.phase == Requested && o.session == None)
            && (p.Done? <==> o.kind == Wake && o.session == Some(session)) && (p.SaveOp? || p.Done? || p == Stop(Invalid))
            && (p.SaveOp? ==>
                  p == SaveOp(o.(session := Some(session), version := o.version + 1), o.version,
                              Some(WorldWrite(w.(session := Some(session), version := w.version + 1), w.version))))
  {
  }

  lemma AttachActsAsPlanned(s: System, e: Event, id: Id)
    requires Invariant(s) && LiveIn(s.repo, id) && e.Act? && e.intent.AttachSession?
    requires var m := MemoryOf(s, e.client);
             m.operation == Some(s.repo.operations[id]) && m.world.Some? && KeyOf(m.world.value) == KeyFor(s.repo.operations[id])
    ensures id in Next(s, e).repo.operations && Stepped(s, e, id, Next(s, e).repo)
  {
    var r, m := s.repo, MemoryOf(s, e.client);
    var o, w := r.operations[id], m.world.value;
    assert Filed(r);
    RecallClient(s, e.client);
    AttachPlanned(m, e.intent.session);
    PlansFitReads(m, e.intent);
    var p := PlanFor(m, e.intent);
    if p.SaveOp? {
      hide Invariant, Consistent, PlanFor;
      SaveCommits(r, o, w, p);
    } else {
      assert p.Done? || p.Stop?;
    }
  }

  lemma OthersLeaveIt(s: System, e: Event, id: Id)
    requires Invariant(s) && FreshEvent(s, e) && LiveIn(s.repo, id) && e.Act? && id in Next(s, e).repo.operations
    requires var m := MemoryOf(s, e.client);
             !(m.operation == Some(s.repo.operations[id]) && m.world.Some? && KeyOf(m.world.value) == KeyFor(s.repo.operations[id]))
             || !(Settling(e.intent) || e.intent.AttachSession?)
    ensures Next(s, e).repo.operations[id] == s.repo.operations[id]
  {
    var r, m := s.repo, MemoryOf(s, e.client);
    var p := PlanFor(m, e.intent);
    RecallClient(s, e.client);
    assert Filed(r) && IndexExact(r) && r.operations.Keys <= s.used;
    if p.BeginOp? {
      BeginsItself(m, e.intent);
    } else if p.SaveOp? {
      SaveTouches(m, e.intent);
      OnlyThese(m, e.intent);
    }
    hide Invariant, Consistent, PlanFor, Apply;
    AppliesOnce(r, p);
  }

  lemma OnlyThese(m: Memory, i: Intent)
    requires PlanFor(m, i).SaveOp?
    ensures (Settling(i) || i.AttachSession?) && m.operation.Some? && m.world.Some?
    ensures KeyFor(m.operation.value) == KeyOf(m.world.value)
  {
    hide EmptySince, IdleElapsed, Propose, Recent;
  }

  /** Every event, by any client on whatever it remembers: a live operation takes the step of the table, gets its
      session, or stays exactly as it is; and the World is given what the table says. */
  lemma ActionExactly(s: System, e: Event, id: Id)
    requires Invariant(s) && FreshEvent(s, e) && LiveIn(s.repo, id) && id in Next(s, e).repo.operations
    ensures Stepped(s, e, id, Next(s, e).repo)
  {
    hide Invariant, FreshEvent, OperationAfter, WorldAfter, WritesWorld, Apply, PlanFor;
    if e.Act? {
      var o, m := s.repo.operations[id], MemoryOf(s, e.client);
      var remembers := m.operation == Some(o) && m.world.Some? && KeyOf(m.world.value) == KeyFor(o);
      if (Settling(e.intent) || e.intent.AttachSession?) && remembers {
        if Settling(e.intent) {
          ActsAsPlanned(s, e, id);
        } else {
          AttachActsAsPlanned(s, e, id);
        }
      } else {
        OthersLeaveIt(s, e, id);
        WorldsFiled(s, id);
      }
    }
  }

  lemma WorldsFiled(s: System, id: Id)
    requires Invariant(s) && LiveIn(s.repo, id)
    ensures var k := KeyFor(s.repo.operations[id]); k in s.repo.worlds && KeyOf(s.repo.worlds[k]) == k
    ensures Ready(s.repo.operations[id])
  {
    LiveIsCoupled(s.repo, s.repo.operations[id]);
  }

  /** Once a wake has its runtime, and for every other operation from the start, what was attached and provisioned
      stays with it: every later call to the recorder is about the same session. */
  lemma SessionStays(s: System, e: Event, id: Id)
    requires Invariant(s) && FreshEvent(s, e) && LiveIn(s.repo, id) && id in Next(s, e).repo.operations
    requires var o := s.repo.operations[id]; o.kind == Wake ==> o.phase !in {Requested, ProvisioningRuntime}
    ensures var o, o' := s.repo.operations[id], Next(s, e).repo.operations[id];
            (o'.session, o'.startedAt, o'.runtime) == (o.session, o.startedAt, o.runtime)
  {
    ActionExactly(s, e, id);
    hide Invariant, FreshEvent, Next, RowOf, WorldAfter, WritesWorld;
  }

  /** What the worker does outside at each phase, in this order, before it commits. */
  lemma EffectsExactly(o: Operation, w: World, e: Outside)
    requires Live(o) && Ready(o)
    ensures o.kind == Wake ==>
              AdvanceEffects(o, w, e) ==
              match o.phase
              case ProvisioningRuntime => [Provision(e.runtime)]
              case RestoringWorld => [Restore(o.runtime.value)]
              case ApplyingConfiguration =>
                [Configure(if w.pendingConfiguration == None then w.configuration else w.pendingConfiguration.value)]
              case StartingGame => [Start]
              case StoppingGame => [StopGame]
              case ReleasingRuntime => [ReleaseRuntime(o.runtime.value), CloseSession(false)]
              case _ => []
    ensures o.kind == Sleep ==>
              AdvanceEffects(o, w, e) ==
              match o.phase
              case SavingGame => [SaveGame]
              case StoppingGame => [StopGame]
              case PersistingWorld => [Persist(e.stored, e.validated)]
              case CreatingBackup => [Backup(o.stored.value, e.backup)]
              case ReleasingRuntime => [ReleaseRuntime(o.runtime.value), CloseSession(true)]
              case _ => []
    ensures o.kind == Recover ==> AdvanceEffects(o, w, e) == if o.phase == StartingGame then [Start] else []
    ensures AttentionEffects(o) ==
            if o.kind != Wake then [] else if o.runtime == None then [CancelSession]
            else [ReleaseRuntime(o.runtime.value), CloseSession(false)]
  {
  }

  // ----- how operations end

  predicate Over(status: OperationStatus) { status != Pending && status != Running }

  /** The event ends the operation with this status. */
  ghost predicate EndsAs(s: System, e: Event, id: Id, status: OperationStatus) {
    && LiveIn(s.repo, id) && Acts(s, e, id)
    && var o, i := s.repo.operations[id], e.intent;
       match status
       case Succeeded =>
         || ((At(o, i, Wake, CheckingGameHealth) || At(o, i, Recover, CheckingGameHealth)) && i.outside.healthy)
         || At(o, i, Sleep, ReleasingRuntime)
       case Cancelled => At(o, i, Sleep, CheckingPlayers) && i.outside.players > 0 && !o.force
       case Failed => i.FailPreflight? || (At(o, i, Recover, CheckingGameHealth) && !i.outside.healthy && o.attempt in {1, 2})
       case NeedsAttention =>
         || i.GiveUp? || At(o, i, Wake, ReleasingRuntime) || (At(o, i, Sleep, PersistingWorld) && !i.outside.validated)
         || (At(o, i, Recover, CheckingGameHealth) && !i.outside.healthy && o.attempt == 3)
       case _ => false
  }

  lemma RowsEnd(o: Operation, i: Intent, status: OperationStatus)
    requires Live(o) && Ready(o) && Settling(i) && Over(status)
    ensures RowOf(o, i).status == status <==>
              match status
              case Succeeded =>
                || ((At(o, i, Wake, CheckingGameHealth) || At(o, i, Recover, CheckingGameHealth)) && i.outside.healthy)
                || At(o, i, Sleep, ReleasingRuntime)
              case Cancelled => At(o, i, Sleep, CheckingPlayers) && i.outside.players > 0 && !o.force
              case Failed => i.FailPreflight? || (At(o, i, Recover, CheckingGameHealth) && !i.outside.healthy && o.attempt in {1, 2})
              case NeedsAttention =>
                || i.GiveUp? || At(o, i, Wake, ReleasingRuntime) || (At(o, i, Sleep, PersistingWorld) && !i.outside.validated)
                || (At(o, i, Recover, CheckingGameHealth) && !i.outside.healthy && o.attempt == 3)
              case _ => false
  {
  }

  /** One event: a live operation ends with a status exactly by these actions. */
  lemma StatusExactly(s: System, e: Event, id: Id, status: OperationStatus)
    requires Invariant(s) && FreshEvent(s, e) && LiveIn(s.repo, id) && id in Next(s, e).repo.operations && Over(status)
    ensures Next(s, e).repo.operations[id].status == status <==> EndsAs(s, e, id, status)
  {
    ActionExactly(s, e, id);
    LiveIsCoupled(s.repo, s.repo.operations[id]);
    if Acts(s, e, id) {
      RowsEnd(s.repo.operations[id], e.intent, status);
    }
    hide Invariant, Consistent, FreshEvent, Next, RowOf, WorldAfter, Ready;
  }

  /** What the World `v` of an operation shows once it has ended: `w`. */
  ghost predicate Shows(o: Operation, i: Intent, status: OperationStatus, v: World, w: World) {
    match status
    case Succeeded =>
      if o.kind.Sleep? then w.status == Sleeping && w.stored == o.stored && (w.runtime, w.session) == (None, None)
      else w.status == Online && (w.runtime, w.session) == (v.runtime, v.session)
    case Cancelled => w.status == Online && (w.runtime, w.session) == (v.runtime, v.session)
    case Failed =>
      if i.FailPreflight? then w.status == Sleeping && w.session == None
      else w.status == Waking && (w.runtime, w.session) == (v.runtime, v.session)
    case NeedsAttention =>
      w.status == Attention && (w.runtime, w.session) == if o.kind.Wake? then (None, None) else (v.runtime, v.session)
    case _ => false
  }

  lemma TableShows(o: Operation, i: Intent, status: OperationStatus, v: World, w: World)
    requires Live(o) && Ready(o) && Settling(i) && Over(status) && RowOf(o, i).status == status && WorldAfter(o, v, i, w)
    ensures Shows(o, i, status, v, w)
  {
  }

  /** What the World shows in that moment. */
  lemma EndShows(s: System, e: Event, id: Id, status: OperationStatus)
    requires Invariant(s) && FreshEvent(s, e) && EndsAs(s, e, id, status)
    ensures var t, k := Next(s, e).repo, KeyFor(s.repo.operations[id]);
            && id in t.operations && t.operations[id].status == status && k in t.worlds && k in s.repo.worlds
            && Shows(s.repo.operations[id], e.intent, status, s.repo.worlds[k], t.worlds[k])
  {
    hide FreshEvent, Next, Consistent, Shows, WorldAfter;
    var o := s.repo.operations[id];
    WorldsFiled(s, id);
    ActsAsPlanned(s, e, id);
    RowsEnd(o, e.intent, status);
    hide Invariant, Ready, RowOf;
    StatusOver(o, e.intent, status);
    TableShows(o, e.intent, status, s.repo.worlds[KeyFor(o)], Next(s, e).repo.worlds[KeyFor(o)]);
  }

  /** An operation that ends writes its World's status. */
  lemma StatusOver(o: Operation, i: Intent, status: OperationStatus)
    requires Live(o) && Ready(o) && Settling(i) && Over(status) && RowOf(o, i).status == status
    ensures RowOf(o, i).shown.Some?
  {
  }

  ghost predicate EndedAs(s: System, events: seq<Event>, id: Id, status: OperationStatus) {
    exists n :: 0 <= n < |events| && EndsAs(Exec(s, events[..n]), events[n], id, status)
  }

  lemma EndedLast(s: System, events: seq<Event>, id: Id, status: OperationStatus)
    requires |events| > 0
    ensures var n := |events| - 1;
            EndedAs(s, events, id, status) <==>
              EndedAs(s, events[..n], id, status) || EndsAs(Exec(s, events[..n]), events[n], id, status)
  {
    hide Exec, EndsAs;
    var n := |events| - 1;
    assert forall i :: 0 <= i < n ==> events[..n][..i] == events[..i] && events[..n][i] == events[i];
    if EndedAs(s, events[..n], id, status) {
      var i :| 0 <= i < n && EndsAs(Exec(s, events[..n][..i]), events[..n][i], id, status);
      assert EndsAs(Exec(s, events[..i]), events[i], id, status);
    }
  }

  /** Over: what it ended as, it stays. */
  lemma OverStays(s: System, e: Event, id: Id)
    requires Invariant(s) && FreshEvent(s, e) && id in s.repo.operations && id in Next(s, e).repo.operations
    requires !Live(s.repo.operations[id])
    ensures Next(s, e).repo.operations[id].status == s.repo.operations[id].status
  {
    if e.Act? && e.intent.Purge? {
      RecallClient(s, e.client);
      hide Invariant, Consistent;
    } else {
      StepContinues(s, e, id);
    }
  }

  lemma GoneStays(s: System, e: Event, id: Id)
    requires Invariant(s) && FreshEvent(s, e) && id in s.used && id !in s.repo.operations
    ensures id !in Next(s, e).repo.operations
  {
    RecallClient(s, e.client);
    assert Consistent(s.repo);
    assert Filed(s.repo) && IndexExact(s.repo);
    if e.Act? {
      var m := MemoryOf(s, e.client);
      if PlanFor(m, e.intent).BeginOp? {
        BeginsItself(m, e.intent);
      }
      hide Invariant, Consistent, PlanFor, Apply;
      AppliesOnce(s.repo, PlanFor(m, e.intent));
    }
  }

  ghost predicate HasStatus(r: Repo, id: Id, status: OperationStatus) { id in r.operations && r.operations[id].status == status }

  /** One event on an operation whose identifier is taken and that is stored afterwards. */
  lemma EventStatusExactly(s: System, e: Event, id: Id, status: OperationStatus)
    requires Invariant(s) && FreshEvent(s, e) && id in s.used && Over(status)
    ensures Invariant(Next(s, e)) && id in Next(s, e).used
    ensures id in Next(s, e).repo.operations ==>
              id in s.repo.operations
              && (HasStatus(Next(s, e).repo, id, status) <==> HasStatus(s.repo, id, status) || EndsAs(s, e, id, status))
  {
    hide Invariant, Next, EndsAs, FreshEvent;
    NextKeeps(s, e);
    UsedStays(s, e, id);
    if id in Next(s, e).repo.operations {
      if id !in s.repo.operations {
        GoneStays(s, e, id);
      } else if Live(s.repo.operations[id]) {
        StatusExactly(s, e, id, status);
      } else {
        OverStays(s, e, id);
        DeadEndsNot(s, e, id, status);
      }
    }
  }

  /** Whole runs: an operation that was live has a final status at the end, if it is still stored, exactly when
      one action of the run ended it so. */
  lemma {:induction false} RunEndsExactly(s: System, events: seq<Event>, id: Id, status: OperationStatus)
    requires Invariant(s) && FreshRun(s, events) && LiveIn(s.repo, id) && Over(status)
    ensures Invariant(Exec(s, events)) && id in Exec(s, events).used
    ensures id in Exec(s, events).repo.operations ==>
              (HasStatus(Exec(s, events).repo, id, status) <==> EndedAs(s, events, id, status))
  {
    if |events| == 0 {
      assert s.repo.operations.Keys <= s.used;
      assert !EndedAs(s, events, id, status);
    } else {
      hide Invariant, Next, EndsAs, FreshEvent, EndedAs, HasStatus;
      var n := |events| - 1;
      forall i | 0 <= i < n ensures FreshEvent(Exec(s, events[..n][..i]), events[..n][i]) {
        assert events[..n][..i] == events[..i];
      }
      RunEndsExactly(s, events[..n], id, status);
      assert FreshEvent(Exec(s, events[..n]), events[n]);
      EventStatusExactly(Exec(s, events[..n]), events[n], id, status);
      EndedLast(s, events, id, status);
    }
  }

  lemma DeadEndsNot(s: System, e: Event, id: Id, status: OperationStatus)
    requires !LiveIn(s.repo, id)
    ensures !EndsAs(s, e, id, status)
  {
  }
}
