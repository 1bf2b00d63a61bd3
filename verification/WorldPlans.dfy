/** What each service, data and worker call decides from the records it has read: the external effects
    it performs and the one repository write it then asks for. */
module WorldPlans {
  import opened Base
  import opened WorldModel

  const MINUTE := 60_000_000
  const RECOVERY_WINDOW := 15 * MINUTE
  const RECOVERY_LIMIT := 3
  const DELETION_DELAY := 7 * 24 * 60 * MINUTE

  datatype Plan =
    | BeginOp(after: World, operation: Operation, expected: nat)
    | SaveOp(saved: Operation, expectedOp: nat, write: Option<WorldWrite>)
    | Touch(touched: World, expectedWorld: nat)
    | Append(based: World, revision: Revision, expectedBase: nat)
    | Remove(key: WorldKey)
    | Done
    | Stop(error: Error)

  function Apply(r: Repo, p: Plan): Repo {
    match p
    case BeginOp(after, o, expected) => Begin(r, after, o, expected).0
    case SaveOp(o, expected, write) => SaveOperation(r, o, expected, write).0
    case Touch(after, expected) => SaveWorld(r, after, expected).0
    case Append(after, v, expected) => AppendRevision(r, after, v, expected).0
    case Remove(k) => Delete(r, k).0
    case Done => r
    case Stop(_) => r
  }

  // ----- requests

  function NewOperation(w: World, kind: OperationKind, id: Id, key: string, at: Time): Operation {
    Operation(id, w.account, w.id, kind, Pending, Requested, key, at, 1, None, false, None, None, 0, None, None)
  }

  /** request_wake looks at permission and storage, not at the World's status. */
  function PlanWake(w: World, permitted: bool, storageOpen: bool, id: Id, key: string, now: Time): Plan {
    if !permitted then Stop(Denied) else if !storageOpen then Stop(Blocked) else
    BeginOp(w.(status := Waking, emptySince := None, version := w.version + 1), NewOperation(w, Wake, id, key, now), w.version)
  }

  function SleepOperation(w: World, id: Id, key: string, at: Time, force: bool): Operation {
    NewOperation(w, Sleep, id, key, at).(runtime := w.runtime, force := force, session := w.session, startedAt := w.startedAt)
  }

  function PlanSleep(w: World, permitted: bool, id: Id, key: string, now: Time, force: bool): Plan {
    if !permitted then Stop(Denied) else if !w.status.Online? then Stop(Invalid) else
    BeginOp(w.(status := GoingToSleep, version := w.version + 1), SleepOperation(w, id, key, now, force), w.version)
  }

  /** `recent` counts the recover operations created no earlier than fifteen minutes before detection. */
  function PlanRecover(w: World, recent: nat, id: Id, key: string, detectedAt: Time): Plan {
    if recent >= RECOVERY_LIMIT || w.status.Attention? then Done else
    if !w.status.Online? && !w.status.Waking? then Stop(Invalid) else
    BeginOp(w.(status := Waking, version := w.version + 1),
            NewOperation(w, Recover, id, key, detectedAt).(runtime := w.runtime, attempt := recent + 1), w.version)
  }

  function PlanAttach(o: Operation, w: World, session: BillingSession): Plan {
    if !o.kind.Wake? then Stop(Invalid) else
    if o.session.Some? then (if o.session.value == session then Done else Stop(Invalid)) else
    if !o.phase.Requested? then Stop(Invalid) else
    SaveOp(o.(session := Some(session), version := o.version + 1), o.version,
           Some(WorldWrite(w.(session := Some(session), version := w.version + 1), w.version)))
  }

  function PlanPreflightFailure(o: Operation, w: World): Plan {
    if !Live(o) then Done else
    SaveOp(o.(status := Failed, phase := Complete, version := o.version + 1), o.version,
           Some(WorldWrite(w.(status := Sleeping, session := None, startedAt := None, version := w.version + 1), w.version)))
  }

  function PlanSettings(w: World, permitted: bool, minutes: Option<int>): Plan {
    if minutes.Some? && minutes.value !in {10, 20, 30, 60} then Stop(Invalid) else
    if !permitted then Stop(Denied) else
    Touch(w.(autoSleep := minutes, version := w.version + 1), w.version)
  }

  // ----- World data

  function PlanRestore(w: World, permitted: bool, key: string, backup: Option<Stored>): Plan {
    if !permitted then Stop(Denied) else
    if !w.status.Sleeping? then Stop(Invalid) else
    if key in w.applied then Done else
    if backup.None? then Stop(Missing) else
    if w.stored.None? then Stop(NoState) else
    Touch(w.(stored := backup, applied := w.applied + [key], version := w.version + 1), w.version)
  }

  function PlanDeletion(w: World, permitted: bool, confirmed: bool, backup: Id, now: Time): Plan {
    if !permitted || !confirmed then Stop(Denied) else
    if w.status.PendingDeletion? then Done else
    if !w.status.Sleeping? then Stop(Invalid) else
    if w.stored.None? then Stop(NoState) else
    Touch(w.(status := PendingDeletion, deletionAt := Some(now + DELETION_DELAY), finalBackup := Some(backup),
             version := w.version + 1), w.version)
  }

  function PlanCancelDeletion(w: World, permitted: bool): Plan {
    if !permitted then Stop(Denied) else
    if !w.status.PendingDeletion? then Stop(Invalid) else
    Touch(w.(status := Sleeping, deletionAt := None, finalBackup := None, version := w.version + 1), w.version)
  }

  predicate Due(w: World, observedAt: Time) {
    w.status.PendingDeletion? && w.deletionAt.Some? && w.deletionAt.value <= observedAt
  }

  function PlanPurge(w: World, observedAt: Time): Plan {
    if !w.status.PendingDeletion? || w.deletionAt.None? || observedAt < w.deletionAt.value then Done else Remove(KeyOf(w))
  }

  // ----- the session monitor

  /** The empty mark an observation leaves: the earlier mark, this instant, or none once somebody plays. */
  function EmptySince(w: World, now: Time, players: nat): Option<Time> {
    if players != 0 then None else if w.emptySince.Some? then w.emptySince else Some(now)
  }

  function IdleLimit(w: World, idle: Option<int>): Option<int> { if idle.None? then w.autoSleep else idle }

  predicate IdleElapsed(w: World, now: Time, idle: Option<int>, players: nat) {
    var limit, empty := IdleLimit(w, idle), EmptySince(w, now, players);
    limit.Some? && empty.Some? && now - empty.value >= limit.value * MINUTE
  }

  function PlanMonitor(w: World, now: Time, idle: Option<int>, players: nat, guardSleeps: bool, id: Id,
                       minute: string): Plan {
    var limit := IdleLimit(w, idle);
    if limit.Some? && limit.value <= 0 then Stop(Invalid) else
    if !w.status.Online? then Done else
    if w.runtime.None? then Stop(NoRuntime) else
    var empty := EmptySince(w, now, players);
    if !guardSleeps && !IdleElapsed(w, now, idle, players) then
      if empty != w.emptySince then Touch(w.(emptySince := empty, version := w.version + 1), w.version) else Done
    else
      var key := "monitor:" + w.id + ":" + (if guardSleeps then "balance" else "idle") + ":" + minute;
      BeginOp(w.(status := GoingToSleep, emptySince := empty, version := w.version + 1),
              SleepOperation(w, id, key, now, guardSleeps), w.version)
  }

  // ----- configuration

  /** A Game Template's fields and how each value is normalized or refused. */
  datatype Catalog = Catalog(fields: set<string>, parse: (string, Setting) -> Option<Setting>)

  function Validate(c: Catalog, values: map<string, Setting>, partial: bool): Option<map<string, Setting>> {
    if !(values.Keys <= c.fields) || (!partial && !(c.fields <= values.Keys)) then None else
    if exists f :: f in values && c.parse(f, values[f]).None? then None else
    Some(map f | f in values :: c.parse(f, values[f]).value)
  }

  function Effective(w: World): Id { if w.pendingConfiguration.Some? then w.pendingConfiguration.value else w.configuration }

  /** The proposed entries: the base revision overridden by the normalized changes, validated again. */
  function Propose(c: Catalog, base: Revision, changes: map<string, Setting>): Option<map<string, Setting>> {
    match Validate(c, changes, true)
    case None => None
    case Some(normalized) => Validate(c, base.entries + normalized, false)
  }

  /** `previewed` is the World the preview read; `w` is the World read again for the write. */
  function PlanConfigure(previewed: World, w: World, base: Revision, changes: map<string, Setting>, c: Catalog,
                         permitted: bool, id: Id, key: string): Plan {
    if !permitted then Stop(Denied) else
    match Propose(c, base, changes)
    case None => Stop(Invalid)
    case Some(entries) =>
      Append(w.(pendingConfiguration := Some(id), version := w.version + 1),
             Revision(id, w.account, w.id, base.number + 1, entries, key), w.version)
  }

  // ----- the operation worker

  datatype Effect =
    | Provision(runtime: Runtime) | Restore(runtime: Runtime) | Configure(revision: Id) | Start | StopGame | SaveGame
    | Persist(stored: Stored, validated: bool) | Backup(stored: Stored, backup: Id) | ReleaseRuntime(runtime: Runtime)
    | CloseSession(reachedOnline: bool) | CancelSession

  /** What the outside world answers to the effects of one advance. */
  datatype Outside = Outside(runtime: Runtime, now: Time, healthy: bool, players: nat, stored: Stored, validated: bool,
                             backup: Id)

  function Move(o: Operation, phase: Phase): Plan {
    SaveOp(o.(status := Running, phase := phase, version := o.version + 1), o.version, None)
  }

  function SaveBoth(o: Operation, w: World, o': Operation, w': World): Plan {
    SaveOp(o'.(version := o.version + 1), o.version, Some(WorldWrite(w'.(version := w.version + 1), w.version)))
  }

  function Cleared(w: World): World { w.(runtime := None, session := None, startedAt := None) }

  function PlanWakeStep(o: Operation, w: World, e: Outside): Plan {
    match o.phase
    case Requested => Move(o, ProvisioningRuntime)
    case ProvisioningRuntime =>
      SaveBoth(o, w, o.(phase := RestoringWorld, runtime := Some(e.runtime), startedAt := Some(e.now)),
               w.(runtime := Some(e.runtime), startedAt := Some(e.now)))
    case RestoringWorld => if o.runtime.None? then Stop(NoRuntime) else Move(o, ApplyingConfiguration)
    case ApplyingConfiguration =>
      if o.runtime.None? then Stop(NoRuntime) else
      if w.pendingConfiguration.None? then Move(o, StartingGame) else
      SaveBoth(o, w, o.(status := Running, phase := StartingGame),
               w.(configuration := w.pendingConfiguration.value, pendingConfiguration := None))
    case StartingGame => if o.runtime.None? then Stop(NoRuntime) else Move(o, CheckingGameHealth)
    case CheckingGameHealth =>
      if o.runtime.None? then Stop(NoRuntime) else
      if !e.healthy then Move(o, StoppingGame) else
      SaveBoth(o, w, o.(status := Succeeded, phase := Complete), w.(status := Online, emptySince := None))
    case StoppingGame => if o.runtime.None? then Stop(NoRuntime) else Move(o, ReleasingRuntime)
    case ReleasingRuntime =>
      if o.runtime.None? then Stop(NoRuntime) else
      SaveBoth(o, w, o.(status := NeedsAttention, phase := Complete), Cleared(w).(status := Attention))
    case _ => if o.runtime.None? then Stop(NoRuntime) else Stop(Unsupported)
  }

  function PlanNeedsAttention(o: Operation, w: World): Plan {
    SaveBoth(o, w, o.(status := NeedsAttention), w.(status := Attention))
  }

  function PlanSleepStep(o: Operation, w: World, e: Outside): Plan {
    if o.runtime.None? then Stop(NoRuntime) else
    match o.phase
    case Requested => Move(o, CheckingPlayers)
    case CheckingPlayers =>
      if e.players > 0 && !o.force
      then SaveBoth(o, w, o.(status := Cancelled, phase := Complete), w.(status := Online, emptySince := None))
      else Move(o, SavingGame)
    case SavingGame => Move(o, StoppingGame)
    case StoppingGame => Move(o, PersistingWorld)
    case PersistingWorld =>
      if !e.validated then PlanNeedsAttention(o, w) else
      SaveOp(o.(phase := CreatingBackup, stored := Some(e.stored), version := o.version + 1), o.version, None)
    case CreatingBackup =>
      if o.stored.None? then Stop(NoState) else
      SaveOp(o.(phase := ReleasingRuntime, backup := Some(e.backup), version := o.version + 1), o.version, None)
    case ReleasingRuntime =>
      SaveBoth(o, w, o.(status := Succeeded, phase := Complete),
               Cleared(w).(status := Sleeping, stored := o.stored, emptySince := None))
    case _ => Stop(Unsupported)
  }

  function PlanRecoveryStep(o: Operation, w: World, e: Outside): Plan {
    if o.runtime.None? then Stop(NoRuntime) else
    match o.phase
    case Requested => Move(o, StartingGame)
    case StartingGame => Move(o, CheckingGameHealth)
    case CheckingGameHealth =>
      var exhausted := o.attempt >= RECOVERY_LIMIT;
      SaveBoth(o, w,
               o.(status := if e.healthy then Succeeded else if exhausted then NeedsAttention else Failed, phase := Complete),
               w.(status := if e.healthy then Online else if exhausted then Attention else Waking))
    case _ => Stop(Unsupported)
  }

  function PlanAdvance(o: Operation, w: World, e: Outside): Plan {
    if !Live(o) then Done else
    match o.kind
    case Wake => PlanWakeStep(o, w, e)
    case Sleep => PlanSleepStep(o, w, e)
    case Recover => PlanRecoveryStep(o, w, e)
  }

  /** The effects of an advance with their answers, in order; each happens before the write. */
  function AdvanceEffects(o: Operation, w: World, e: Outside): seq<Effect> {
    if !Live(o) || (o.runtime.None? && !(o.kind.Wake? && (o.phase.Requested? || o.phase.ProvisioningRuntime?))) then [] else
    match o.kind
    case Wake =>
      (match o.phase
       case ProvisioningRuntime => [Provision(e.runtime)]
       case RestoringWorld => [Restore(o.runtime.value)]
       case ApplyingConfiguration => [Configure(Effective(w))]
       case StartingGame => [Start]
       case StoppingGame => [StopGame]
       case ReleasingRuntime => [ReleaseRuntime(o.runtime.value), CloseSession(false)]
       case _ => [])
    case Sleep =>
      (match o.phase
       case SavingGame => [SaveGame]
       case StoppingGame => [StopGame]
       case PersistingWorld => [Persist(e.stored, e.validated)]
       case CreatingBackup => if o.stored.None? then [] else [Backup(o.stored.value, e.backup)]
       case ReleasingRuntime => [ReleaseRuntime(o.runtime.value), CloseSession(true)]
       case _ => [])
    case Recover => if o.phase.StartingGame? then [Start] else []
  }

  function PlanAttention(o: Operation, w: World): Plan {
    if !Live(o) then Done else
    if o.kind.Wake? then SaveBoth(o, w, o.(status := NeedsAttention), Cleared(w).(status := Attention))
    else PlanNeedsAttention(o, w)
  }

  function AttentionEffects(o: Operation): seq<Effect> {
    if !Live(o) || !o.kind.Wake? then [] else
    if o.runtime.Some? then [ReleaseRuntime(o.runtime.value), CloseSession(false)] else [CancelSession]
  }

  /** What is left of an operation: each advance that returns lowers it. */
  function Rank(o: Operation): nat {
    if !Live(o) then 0 else
    match o.kind
    case Wake =>
      (match o.phase
       case Requested => 8 case ProvisioningRuntime => 7 case RestoringWorld => 6 case ApplyingConfiguration => 5
       case StartingGame => 4 case CheckingGameHealth => 3 case StoppingGame => 2 case _ => 1)
    case Sleep =>
      (match o.phase
       case Requested => 7 case CheckingPlayers => 6 case SavingGame => 5 case StoppingGame => 4
       case PersistingWorld => 3 case CreatingBackup => 2 case _ => 1)
    case Recover =>
      (match o.phase case Requested => 3 case StartingGame => 2 case _ => 1)
  }
}
