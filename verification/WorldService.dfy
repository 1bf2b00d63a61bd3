/** The service calls that users, detectors and schedulers make on Worlds and their data: each reads the
    repository and makes at most one write, the one its plan says. */
module WorldService {
  import opened Base
  import opened WorldModel
  import opened WorldPlans
  import opened WorldLaws
  import opened WorldProtocol
  import opened Rivals
  import Archive

  /** What the caller of a request gets: the operation begun or found, or why there is none. */
  function Answer(r: Repo, p: Plan): Result<Option<Operation>> {
    match p
    case BeginOp(after, o, expected) =>
      var began := Begin(r, after, o, expected).1;
      if began.Ok? then Ok(Some(began.value)) else Err(began.error)
    case Stop(error) => Err(error)
    case _ => Ok(None)
  }

  /** What a caller may rely on about an operation it was answered: it is the stored one, and while it lives
      its World shows it, holds its runtime, and has no other live operation. */
  ghost predicate Shown(r: Repo, o: Operation) {
    && o.id in r.operations && r.operations[o.id] == o
    && (Live(o) ==>
          && KeyFor(o) in r.worlds && Coupled(r.worlds[KeyFor(o)], o)
          && forall id :: id in r.operations && KeyFor(r.operations[id]) == KeyFor(o) && Live(r.operations[id]) ==> id == o.id)
  }

  lemma StoredIsShown(r: Repo, o: Operation)
    requires Consistent(r) && o.id in r.operations && r.operations[o.id] == o
    ensures Shown(r, o)
  {
    if Live(o) {
      LiveIsCoupled(r, o);
    }
  }

  /** What a request leaves a caller with, from a consistent repository and a fresh identifier. */
  ghost predicate Answered(before: Repo, after: Repo, id: Id, r: Result<Option<Operation>>) {
    Consistent(before) && id !in before.operations ==>
      Consistent(after) && (r.Ok? && r.value.Some? ==> Shown(after, r.value.value))
  }

  lemma RequestKeeps(r: Repo, k: WorldKey, i: Intent, id: Id)
    requires k in r.worlds && NewId(i) == Some(id)
    ensures var p := PlanFor(Memory(None, Some(r.worlds[k]), Some(Recoveries(r, k))), i);
            Answered(r, Apply(r, p), id, Answer(r, p))
  {
    hide PlanFor, Consistent, Shown, Recoveries;
    if Consistent(r) && id !in r.operations {
      var m := Memory(None, Some(r.worlds[k]), Some(Recoveries(r, k)));
      var p := PlanFor(m, i);
      assert Filed(r) && IndexExact(r) by { Unfold(r); }
      ActKeeps(r, {}, m, i);
      KeptConsistent(r, Apply(r, p), NewId(i));
      var answer := Answer(r, p);
      if answer.Ok? && answer.value.Some? {
        BegunIsStored(r, p);
        StoredIsShown(Apply(r, p), answer.value.value);
      }
    }
  }

  lemma KeptConsistent(r: Repo, s: Repo, added: Option<Id>)
    requires Kept(r, s, added)
    ensures Consistent(s)
  {
  }

  lemma BegunIsStored(r: Repo, p: Plan)
    requires Filed(r) && Answer(r, p).Ok? && Answer(r, p).value.Some?
    ensures var o := Answer(r, p).value.value; o.id in Apply(r, p).operations && Apply(r, p).operations[o.id] == o
  {
  }

  lemma NothingRequested(r: Repo, id: Id, error: Error)
    ensures Answered(r, r, id, Err(error))
  {
  }

  /** A call that writes one World, read just now. */
  lemma WriteKeeps(r: Repo, k: WorldKey, i: Intent)
    requires k in r.worlds && NewId(i).None?
    ensures Consistent(r) ==> Consistent(Apply(r, PlanFor(Memory(None, Some(r.worlds[k]), None), i)))
  {
    hide PlanFor, Consistent;
    if Consistent(r) {
      var m := Memory(None, Some(r.worlds[k]), None);
      assert Filed(r) by { Unfold(r); }
      ActKeeps(r, {}, m, i);
      KeptConsistent(r, Apply(r, PlanFor(m, i)), None);
    }
  }

  /** No live operation is at work on the World. */
  ghost predicate Idle(r: Repo, k: WorldKey) {
    forall id :: id in r.operations && KeyFor(r.operations[id]) == k ==> !Live(r.operations[id])
  }

  /** Attaching from records that rivals may have superseded keeps the repository consistent. */
  lemma AttachKeeps(r: Repo, mid: Repo, id: Id, session: BillingSession)
    requires id in r.operations && KeyFor(r.operations[id]) in r.worlds
    ensures Consistent(r) && Consistent(mid) && Progress(r, mid) ==>
              var after := Apply(mid, PlanAttach(r.operations[id], r.worlds[KeyFor(r.operations[id])], session));
              Consistent(after) && forall o: Operation :: o.id in after.operations && after.operations[o.id] == o ==> Shown(after, o)
  {
    if Consistent(r) && Consistent(mid) && Progress(r, mid) {
      var o := r.operations[id];
      var w := r.worlds[KeyFor(o)];
      assert Filed(r) && Filed(mid);
      hide Consistent, Shown;
      AttachActs(mid, o, w, session);
      var after := Apply(mid, PlanAttach(o, w, session));
      KeptConsistent(mid, after, None);
      forall o: Operation | o.id in after.operations && after.operations[o.id] == o ensures Shown(after, o) {
        StoredIsShown(after, o);
      }
    }
  }

  /** attach_billing_session that read `before` and wrote after rivals had made it `mid`: a write lost to a
      rival that attached the same session succeeds. */
  ghost predicate AttachOutcome(before: Repo, mid: Repo, account: Id, id: Id, session: BillingSession, after: Repo,
                                r: Result<Operation>) {
    if id !in before.operations || before.operations[id].account != account then after == before && r == Err(Missing)
    else
      var o := before.operations[id];
      if !o.kind.Wake? || (o.session.Some? && o.session.value != session) || (o.session.None? && !o.phase.Requested?) then
        after == before && r == Err(Invalid)
      else if o.session.Some? then after == before && r == Ok(o)
      else if KeyFor(o) !in before.worlds then after == before && r == Err(Missing)
      else
        var p := PlanAttach(o, before.worlds[KeyFor(o)], session);
        var saved := SaveOperation(mid, p.saved, p.expectedOp, p.write).1;
        && after == Apply(mid, p)
        && r == (if saved.Ok? then Ok(p.saved)
                 else if saved.error.Conflict? && id in mid.operations && mid.operations[id].account == account
                         && mid.operations[id].session == Some(session) then Ok(mid.operations[id])
                 else if saved.error.Conflict? && (id !in mid.operations || mid.operations[id].account != account) then Err(Missing)
                 else saved)
  }

  /** Whoever is answered a session finds it on the stored operation, shown by its World while it lives. */
  lemma OutcomeShown(before: Repo, mid: Repo, account: Id, id: Id, session: BillingSession, after: Repo,
                     r: Result<Operation>)
    requires AttachOutcome(before, mid, account, id, session, after, r) && r.Ok?
    requires Consistent(before) && Consistent(mid) && Progress(before, mid)
    ensures Shown(after, r.value) && r.value.session == Some(session) && Consistent(after)
  {
    assert Filed(before) && Filed(mid);
    hide Consistent, Progress, Shown;
    var o := before.operations[id];
    if o.session.Some? {
      StoredIsShown(before, o);
    } else {
      AttachKeeps(before, mid, id, session);
      assert r.value.id in after.operations && after.operations[r.value.id] == r.value;
    }
  }

  /** Failing a live wake's preflight leaves its World asleep with nothing at work on it. */
  lemma PreflightLeaves(r: Repo, id: Id)
    ensures Consistent(r) && id in r.operations && Live(r.operations[id]) ==>
              var o := r.operations[id];
              && KeyFor(o) in r.worlds
              && var p := PlanPreflightFailure(o, r.worlds[KeyFor(o)]);
                 var s := Apply(r, p);
                 && Consistent(s) && SaveOperation(r, p.saved, p.expectedOp, p.write).1 == Ok(p.saved)
                 && KeyFor(p.saved) == KeyFor(o) && p.saved.status.Failed?
                 && KeyFor(o) in s.worlds && s.worlds[KeyFor(o)].status.Sleeping? && Idle(s, KeyFor(o))
  {
    if Consistent(r) && id in r.operations && Live(r.operations[id]) {
      var o := r.operations[id];
      assert Filed(r) by { Unfold(r); }
      LiveIsCoupled(r, o);
      var w := r.worlds[KeyFor(o)];
      var m := Memory(Some(o), Some(w), None);
      hide Consistent, Idle;
      ActKeeps(r, {id}, m, FailPreflight);
      var s := Apply(r, PlanPreflightFailure(o, w));
      KeptConsistent(r, s, None);
      assert s.worlds[KeyFor(o)].status.Sleeping?;
      SleepersAreIdle(s, KeyFor(o));
    }
  }

  lemma SleepersAreIdle(r: Repo, k: WorldKey)
    requires Consistent(r) && k in r.worlds && r.worlds[k].status in {Online, Sleeping, Attention, PendingDeletion}
    ensures Idle(r, k)
  {
    QuietStatuses(r, k);
  }

  /** A revision appended with a World read just now. */
  lemma RevisionKeeps(r: Repo, k: WorldKey, after: World, v: Revision)
    requires Consistent(r) && k in r.worlds
    requires after == r.worlds[k].(pendingConfiguration := after.pendingConfiguration, version := r.worlds[k].version + 1)
    ensures Consistent(AppendRevision(r, after, v, r.worlds[k].version).0)
  {
    assert Filed(r) by { Unfold(r); }
    var s := AppendRevision(r, after, v, r.worlds[k].version).0;
    if s != r {
      hide Consistent;
      TouchConsistent(r, r.worlds[k], after, s);
    }
  }

  class Worlds {
    const repository: WorldRepository

    constructor (repository: WorldRepository)
      ensures this.repository == repository
    {
      this.repository := repository;
    }

    method RequestWake(account: Id, world: Id, permitted: bool, storageOpen: bool, id: Id, key: string, now: Time)
      returns (r: Result<Option<Operation>>)
      modifies repository
      ensures var before, k := old(repository.View()), WorldKey(account, world);
              if k !in before.worlds then
                repository.View() == before
                && r == Err(if !permitted then Denied else if !storageOpen then Blocked else Missing)
              else
                var p := PlanWake(before.worlds[k], permitted, storageOpen, id, key, now);
                repository.View() == Apply(before, p) && r == Answer(before, p)
      ensures Answered(old(repository.View()), repository.View(), id, r)
    {
      hide Begin, Answered;
      ghost var before, k := repository.View(), WorldKey(account, world);
      NothingRequested(before, id, Denied);
      NothingRequested(before, id, Blocked);
      NothingRequested(before, id, Missing);
      if k in before.worlds {
        RequestKeeps(before, k, AskWake(permitted, storageOpen, id, key, now), id);
      }
      if !permitted {
        return Err(Denied);
      }
      if !storageOpen {
        return Err(Blocked);
      }
      var got := repository.Get(WorldKey(account, world));
      if got.Err? {
        return Err(Missing);
      }
      var w := got.value;
      var began := repository.BeginOperation(
        w.(status := Waking, emptySince := None, version := w.version + 1), NewOperation(w, Wake, id, key, now), w.version);
      r := if began.Ok? then Ok(Some(began.value)) else Err(began.error);
    }

    method RequestSleep(account: Id, world: Id, permitted: bool, id: Id, key: string, now: Time, force: bool)
      returns (r: Result<Option<Operation>>)
      modifies repository
      ensures var before, k := old(repository.View()), WorldKey(account, world);
              if k !in before.worlds then repository.View() == before && r == Err(if !permitted then Denied else Missing)
              else
                var p := PlanSleep(before.worlds[k], permitted, id, key, now, force);
                repository.View() == Apply(before, p) && r == Answer(before, p)
      ensures Answered(old(repository.View()), repository.View(), id, r)
    {
      hide Begin, Answered;
      ghost var before, k := repository.View(), WorldKey(account, world);
      NothingRequested(before, id, Denied);
      NothingRequested(before, id, Missing);
      if k in before.worlds {
        RequestKeeps(before, k, AskSleep(permitted, id, key, now, force), id);
      }
      if !permitted {
        return Err(Denied);
      }
      var got := repository.Get(WorldKey(account, world));
      if got.Err? {
        return Err(Missing);
      }
      var w := got.value;
      if !w.status.Online? {
        return Err(Invalid);
      }
      var began := repository.BeginOperation(
        w.(status := GoingToSleep, version := w.version + 1), SleepOperation(w, id, key, now, force), w.version);
      r := if began.Ok? then Ok(Some(began.value)) else Err(began.error);
    }

    method RequestAutomaticRecovery(account: Id, world: Id, detectedAt: Time, id: Id, key: string)
      returns (r: Result<Option<Operation>>)
      modifies repository
      ensures var before, k := old(repository.View()), WorldKey(account, world);
              if k !in before.worlds then repository.View() == before && r == Err(Missing)
              else
                var p := PlanRecover(before.worlds[k], |Recent(Recoveries(before, k), detectedAt)|, id, key, detectedAt);
                repository.View() == Apply(before, p) && r == Answer(before, p)
      ensures Answered(old(repository.View()), repository.View(), id, r)
    {
      hide Begin, Answered;
      var k := WorldKey(account, world);
      NothingRequested(repository.View(), id, Missing);
      if k in repository.worlds {
        RequestKeeps(repository.View(), k, AskRecovery(id, key, detectedAt), id);
      }
      var got := repository.Get(k);
      if got.Err? {
        return Err(Missing);
      }
      var w := got.value;
      var operations := repository.operations;
      var recent := set o | o in operations && KeyFor(operations[o]) == k && operations[o].kind.Recover?
                            && operations[o].createdAt >= detectedAt - RECOVERY_WINDOW;
      assert recent == Recent(Recoveries(repository.View(), k), detectedAt);
      if |recent| >= RECOVERY_LIMIT || w.status.Attention? {
        return Ok(None);
      }
      if !w.status.Online? && !w.status.Waking? {
        return Err(Invalid);
      }
      var began := repository.BeginOperation(
        w.(status := Waking, version := w.version + 1),
        NewOperation(w, Recover, id, key, detectedAt).(runtime := w.runtime, attempt := |recent| + 1), w.version);
      r := if began.Ok? then Ok(Some(began.value)) else Err(began.error);
    }

    method AttachBillingSession(account: Id, id: Id, session: BillingSession, rivals: seq<Plan>)
      returns (r: Result<Operation>)
      modifies repository
      ensures AttachOutcome(old(repository.View()), ApplyAll(old(repository.View()), rivals), account, id, session,
                            repository.View(), r)
      ensures var before := old(repository.View());
              var mid := ApplyAll(before, rivals);
              Consistent(before) && Consistent(mid) && Progress(before, mid) && r.Ok? ==>
                Shown(repository.View(), r.value) && r.value.session == Some(session) && Consistent(repository.View())
    {
      hide Consistent, Progress, Shown;
      ghost var before, mid := repository.View(), ApplyAll(repository.View(), rivals);
      r := AttachOnce(account, id, session, rivals);
      if Consistent(before) && Consistent(mid) && Progress(before, mid) && r.Ok? {
        OutcomeShown(before, mid, account, id, session, repository.View(), r);
      }
    }

    /** The call itself: read both records, write both, and on a lost write look again. */
    method AttachOnce(account: Id, id: Id, session: BillingSession, rivals: seq<Plan>) returns (r: Result<Operation>)
      modifies repository
      ensures AttachOutcome(old(repository.View()), ApplyAll(old(repository.View()), rivals), account, id, session,
                            repository.View(), r)
    {
      hide ApplyAll;
      var found := repository.GetOperation(account, id);
      if found.Err? {
        return found;
      }
      var o := found.value;
      if !o.kind.Wake? {
        return Err(Invalid);
      }
      if o.session.Some? {
        return if o.session.value == session then Ok(o) else Err(Invalid);
      }
      if !o.phase.Requested? {
        return Err(Invalid);
      }
      var got := repository.Get(KeyFor(o));
      if got.Err? {
        return Err(Missing);
      }
      var w := got.value;
      Meanwhile(repository, rivals);
      r := repository.SaveOp(
        o.(session := Some(session), version := o.version + 1), o.version,
        Some(WorldWrite(w.(session := Some(session), version := w.version + 1), w.version)));
      if r == Err(Conflict) {
        var current := repository.GetOperation(account, id);
        if current.Err? || current.value.session == Some(session) {
          r := current;
        }
      }
    }

    method FailWakePreflight(account: Id, id: Id) returns (r: Result<Operation>)
      modifies repository
      ensures var before := old(repository.View());
              if id !in before.operations || before.operations[id].account != account then
                repository.View() == before && r == Err(Missing)
              else
                var o := before.operations[id];
                if !Live(o) then repository.View() == before && r == Ok(o)
                else if KeyFor(o) !in before.worlds then repository.View() == before && r == Err(Missing)
                else
                  var p := PlanPreflightFailure(o, before.worlds[KeyFor(o)]);
                  repository.View() == Apply(before, p) && r == SaveOperation(before, p.saved, p.expectedOp, p.write).1
      ensures old(Consistent(repository.View())) && r.Ok? ==>
                && Consistent(repository.View()) && !Live(r.value)
                && (id in old(repository.operations) && Live(old(repository.operations)[id]) ==>
                      && KeyFor(r.value) in repository.worlds && repository.worlds[KeyFor(r.value)].status.Sleeping?
                      && r.value.status.Failed? && Idle(repository.View(), KeyFor(r.value)))
    {
      hide Consistent, Idle;
      PreflightLeaves(repository.View(), id);
      var found := repository.GetOperation(account, id);
      if found.Err? {
        return found;
      }
      var o := found.value;
      if !Live(o) {
        return Ok(o);
      }
      var got := repository.Get(KeyFor(o));
      if got.Err? {
        return Err(Missing);
      }
      var w := got.value;
      r := repository.SaveOp(
        o.(status := Failed, phase := Complete, version := o.version + 1), o.version,
        Some(WorldWrite(w.(status := Sleeping, session := None, startedAt := None, version := w.version + 1), w.version)));
    }

    method UpdateRuntimeSettings(account: Id, world: Id, permitted: bool, minutes: Option<int>)
      returns (r: Result<World>)
      modifies repository
      ensures var before, k := old(repository.View()), WorldKey(account, world);
              if k !in before.worlds then r.Err? && repository.View() == before
              else
                var p := PlanSettings(before.worlds[k], permitted, minutes);
                && repository.View() == Apply(before, p)
                && r == if p.Touch? then SaveWorld(before, p.touched, p.expectedWorld).1 else Err(p.error)
      ensures old(Consistent(repository.View())) ==> Consistent(repository.View())
      ensures repository.View().operations == old(repository.View()).operations
      ensures repository.View().active == old(repository.View()).active
    {
      hide Consistent;
      if WorldKey(account, world) in repository.worlds {
        WriteKeeps(repository.View(), WorldKey(account, world), ChangeSettings(permitted, minutes));
      }
      if minutes.Some? && minutes.value !in {10, 20, 30, 60} {
        return Err(Invalid);
      }
      if !permitted {
        return Err(Denied);
      }
      var got := repository.Get(WorldKey(account, world));
      if got.Err? {
        return got;
      }
      var w := got.value;
      r := repository.Save(w.(autoSleep := minutes, version := w.version + 1), w.version);
    }

    /** update_configuration reads the World for its preview and again for its write; `rivals` come between. */
    method UpdateConfiguration(account: Id, world: Id, permitted: bool, changes: map<string, Setting>, c: Catalog,
                               id: Id, key: string, rivals: seq<Plan>)
      returns (r: Result<Revision>)
      modifies repository
      ensures var before, k := old(repository.View()), WorldKey(account, world);
              var mid := ApplyAll(before, rivals);
              if !permitted then repository.View() == before && r == Err(Denied)
              else if k !in before.worlds || Effective(before.worlds[k]) !in before.revisions then
                repository.View() == before && r == Err(Missing)
              else
                var base := before.revisions[Effective(before.worlds[k])];
                if Propose(c, base, changes).None? then repository.View() == before && r == Err(Invalid)
                else if k !in mid.worlds || base.id !in mid.revisions then repository.View() == mid && r == Err(Missing)
                else
                  var p := PlanConfigure(before.worlds[k], mid.worlds[k], mid.revisions[base.id], changes, c, true, id, key);
                  mid.revisions[base.id] == base ==>
                    && repository.View() == Apply(mid, p)
                    && r == AppendRevision(mid, p.based, p.revision, p.expectedBase).1
      ensures old(Consistent(repository.View())) && Consistent(ApplyAll(old(repository.View()), rivals)) ==>
              Consistent(repository.View())
    {
      hide Consistent;
      hide Propose, ApplyAll, Begin, SaveOperation, Delete, SaveWorld, Effective, AppendRevision;
      if !permitted {
        return Err(Denied);
      }
      var k := WorldKey(account, world);
      var got := repository.Get(k);
      if got.Err? {
        return Err(Missing);
      }
      var previewed := got.value;
      if Effective(previewed) !in repository.revisions {
        return Err(Missing);
      }
      var base := repository.revisions[Effective(previewed)];
      var entries := Propose(c, base, changes);
      if entries.None? {
        return Err(Invalid);
      }
      Meanwhile(repository, rivals);
      var again := repository.Get(k);
      if again.Err? || base.id !in repository.revisions {
        return Err(Missing);
      }
      var w := again.value;
      var number := repository.revisions[base.id].number + 1;
      if Consistent(repository.View()) {
        RevisionKeeps(repository.View(), k, w.(pendingConfiguration := Some(id), version := w.version + 1),
                      Revision(id, w.account, w.id, number, entries.value, key));
      }
      r := repository.AppendConfiguration(
        w.(pendingConfiguration := Some(id), version := w.version + 1),
        Revision(id, w.account, w.id, number, entries.value, key), w.version);
    }
  }

  /** The state of one of a World's backups. */
  ghost function StateOf(backups: seq<Archive.Backup>, account: Id, world: Id, id: Id): Option<Stored> {
    if exists b :: b in backups && Archive.OfWorld(account, world)(b) && b.id == id
    then var b :| b in backups && Archive.OfWorld(account, world)(b) && b.id == id; Some(b.state)
    else None
  }

  function RestorePointKey(key: string): string { key + ":restore-point" }
  function FinalKey(key: string): string { key + ":final-backup" }

  /** Under `key` the archive holds a backup: of this kind and state of the World, if the key was new. */
  ghost predicate BackedUp(backups: seq<Archive.Backup>, before: seq<Archive.Backup>, known: bool, at: Id, w: World,
                           kind: Archive.BackupKind) {
    && before <= backups
    && exists b :: b in backups && b.id == at
                   && (!known ==> b.account == w.account && b.world == w.id && b.kind == kind && w.stored == Some(b.state))
  }

  /** A World written alone, asleep or pending deletion before and after. */
  lemma QuietKeeps(r: Repo, k: WorldKey, after: World)
    requires k in r.worlds && KeyOf(after) == KeyOf(r.worlds[k]) && after.runtime == r.worlds[k].runtime
    requires r.worlds[k].status in {Sleeping, PendingDeletion} && after.status in {Sleeping, PendingDeletion}
    requires after.version == r.worlds[k].version + 1
    ensures Consistent(r) ==>
              var (s, answer) := SaveWorld(r, after, r.worlds[k].version);
              Consistent(s) && answer == Ok(after) && k in s.worlds && s.worlds[k] == after && Idle(s, k)
  {
    if Consistent(r) {
      assert Filed(r) by { Unfold(r); }
      var s := SaveWorld(r, after, r.worlds[k].version).0;
      hide Consistent, Idle;
      TouchConsistent(r, r.worlds[k], after, s);
      SleepersAreIdle(s, k);
    }
  }

  lemma NamesState(backups: seq<Archive.Backup>, account: Id, world: Id, b: Archive.Backup)
    requires Distinct(backups, Archive.BackupId()) && b in backups && Archive.OfWorld(account, world)(b)
    ensures StateOf(backups, account, world, b.id) == Some(b.state)
  {
    forall c | c in backups && c.id == b.id ensures c == b {
      Archive.SameId(backups, c, b);
    }
  }

  class WorldData {
    const repository: WorldRepository
    const archive: Archive.WorldArchiveStore

    constructor (repository: WorldRepository, archive: Archive.WorldArchiveStore)
      ensures this.repository == repository && this.archive == archive
    {
      this.repository, this.archive := repository, archive;
    }

    /** A restore puts the backup's state in the World, once per key, and never loses the state it replaces:
        that is in a restore point first. A state the archive restores without validating it is refused. `id` is
        the restore point's identifier. */
    method RestoreBackup(account: Id, world: Id, permitted: bool, backup: Id, key: string, validated: bool, id: Id,
                         now: Time)
      returns (r: Result<World>)
      requires archive.Valid() && forall b :: b in archive.backups ==> b.id != id
      modifies repository, archive
      ensures archive.Valid() && old(archive.backups) <= archive.backups
      ensures r.Err? ==> repository.View() == old(repository.View())
      ensures r.Ok? ==>
                var k := WorldKey(account, world);
                && k in old(repository.worlds)
                && repository.View() == Apply(old(repository.View()), PlanRestore(old(repository.worlds)[k], permitted, key,
                                                                         StateOf(old(archive.backups), account, world, backup)))
      ensures old(Consistent(repository.View())) ==> Consistent(repository.View())
      ensures old(Consistent(repository.View())) && r.Ok? && key !in old(repository.worlds)[WorldKey(account, world)].applied ==>
                && validated && r.value.stored == StateOf(old(archive.backups), account, world, backup) && r.value.stored.Some?
                && RestorePointKey(key) in archive.commands
                && BackedUp(archive.backups, old(archive.backups), RestorePointKey(key) in old(archive.commands),
                            archive.commands[RestorePointKey(key)], old(repository.worlds)[WorldKey(account, world)],
                            Archive.RestorePoint)
                && Idle(repository.View(), WorldKey(account, world))
    {
      hide Consistent, Idle;
      if !permitted {
        return Err(Denied);
      }
      var k := WorldKey(account, world);
      var got := repository.Get(k);
      if got.Err? {
        return got;
      }
      var w := got.value;
      if !w.status.Sleeping? {
        return Err(Invalid);
      }
      if key in w.applied {
        return Ok(w);
      }
      var listed := archive.ListBackups(account, world);
      var found := Find(listed, Archive.HasId(backup));
      if found.None? {
        return Err(Missing);
      }
      NamesState(archive.backups, account, world, found.value);
      if w.stored.None? {
        return Err(NoState);
      }
      var point := archive.Create(w, w.stored.value, true, Archive.RestorePoint, RestorePointKey(key), id, now);
      if point.Err? {
        return Err(point.error);
      }
      if !validated {
        return Err(Invalid);
      }
      var updated := w.(stored := Some(found.value.state), applied := w.applied + [key], version := w.version + 1);
      QuietKeeps(repository.View(), k, updated);
      r := repository.Save(updated, w.version);
    }

    /** A deletion is scheduled only for a World at rest, seven days ahead, with a final backup of its state
        in the archive. `id` is that backup's identifier. */
    method ScheduleDeletion(account: Id, world: Id, permitted: bool, confirmed: bool, key: string, id: Id, now: Time)
      returns (r: Result<World>)
      requires archive.Valid() && forall b :: b in archive.backups ==> b.id != id
      modifies repository, archive
      ensures archive.Valid() && old(archive.backups) <= archive.backups
      ensures r.Err? ==> repository.View() == old(repository.View())
      ensures r.Ok? ==>
                var k := WorldKey(account, world);
                && k in old(repository.worlds)
                && var final := if FinalKey(key) in archive.commands then archive.commands[FinalKey(key)] else "";
                   repository.View() == Apply(old(repository.View()),
                                             PlanDeletion(old(repository.worlds)[k], permitted, confirmed, final, now))
      ensures old(Consistent(repository.View())) ==> Consistent(repository.View())
      ensures old(Consistent(repository.View())) && r.Ok? ==>
                var k := WorldKey(account, world);
                && permitted && confirmed && k in old(repository.worlds) && k in repository.worlds
                && repository.worlds[k] == r.value && r.value.status.PendingDeletion? && Idle(repository.View(), k)
                && var w := old(repository.worlds)[k];
                   if w.status.PendingDeletion? then repository.View() == old(repository.View())
                   else
                     && FinalKey(key) in archive.commands
                     && r.value == w.(status := PendingDeletion, deletionAt := Some(now + DELETION_DELAY),
                                      finalBackup := Some(archive.commands[FinalKey(key)]), version := w.version + 1)
                     && BackedUp(archive.backups, old(archive.backups), FinalKey(key) in old(archive.commands),
                                 archive.commands[FinalKey(key)], w, Archive.Final)
    {
      hide Consistent, Idle;
      if !permitted {
        return Err(Denied);
      }
      var k := WorldKey(account, world);
      var got := repository.Get(k);
      if got.Err? {
        return got;
      }
      var w := got.value;
      if !confirmed {
        return Err(Denied);
      }
      if w.status.PendingDeletion? {
        if Consistent(repository.View()) {
          SleepersAreIdle(repository.View(), k);
        }
        return Ok(w);
      }
      if !w.status.Sleeping? {
        return Err(Invalid);
      }
      if w.stored.None? {
        return Err(NoState);
      }
      var final := archive.Create(w, w.stored.value, true, Archive.Final, FinalKey(key), id, now);
      if final.Err? {
        return Err(final.error);
      }
      var pending := w.(status := PendingDeletion, deletionAt := Some(now + DELETION_DELAY), finalBackup := Some(final.value.id),
                        version := w.version + 1);
      QuietKeeps(repository.View(), k, pending);
      r := repository.Save(pending, w.version);
    }

    /** A cancelled deletion leaves the World asleep with nothing at work on it and no date or final backup. */
    method CancelDeletion(account: Id, world: Id, permitted: bool) returns (r: Result<World>)
      modifies repository
      ensures r.Err? ==> repository.View() == old(repository.View())
      ensures old(Consistent(repository.View())) ==> Consistent(repository.View())
      ensures old(Consistent(repository.View())) ==>
                var k := WorldKey(account, world);
                && (r.Ok? <==> permitted && k in old(repository.worlds) && old(repository.worlds)[k].status.PendingDeletion?)
                && (r.Ok? ==>
                      && repository.View() == old(repository.View()).(worlds := old(repository.worlds)[k := r.value])
                      && r.value == old(repository.worlds)[k].(status := Sleeping, deletionAt := None, finalBackup := None,
                                                               version := r.value.version)
                      && Idle(repository.View(), k))
    {
      hide Consistent, Idle;
      if !permitted {
        return Err(Denied);
      }
      var k := WorldKey(account, world);
      var got := repository.Get(k);
      if got.Err? {
        return got;
      }
      var w := got.value;
      if !w.status.PendingDeletion? {
        return Err(Invalid);
      }
      var restored := w.(status := Sleeping, deletionAt := None, finalBackup := None, version := w.version + 1);
      QuietKeeps(repository.View(), k, restored);
      r := repository.Save(restored, w.version);
    }

    /** A purge decides on its read, whatever rivals then make of the World: a World read as pending and due
        goes from both stores with every record, operation and backup; any other is left alone. */
    method PurgeDueDeletion(account: Id, world: Id, observedAt: Time, rivals: seq<Plan>) returns (r: Result<bool>)
      requires archive.Valid()
      modifies repository, archive
      ensures archive.Valid()
      ensures old(Consistent(repository.View())) && Consistent(ApplyAll(old(repository.View()), rivals)) ==>
              Consistent(repository.View())
      ensures var before, k := old(repository.View()), WorldKey(account, world);
              var mid := ApplyAll(before, rivals);
              if k !in before.worlds then repository.View() == before && archive.backups == old(archive.backups) && r == Err(Missing)
              else if Due(before.worlds[k], observedAt) then
                && r == (if k in mid.worlds then Ok(true) else Err(Missing))
                && repository.View() == Delete(mid, k).0 && k !in repository.worlds
                && (k in mid.worlds ==> forall id :: id in repository.operations ==> KeyFor(repository.operations[id]) != k)
                && (forall b :: b in archive.backups <==> b in old(archive.backups) && !Archive.OfWorld(account, world)(b))
              else repository.View() == before && archive.backups == old(archive.backups) && r == Ok(false)
    {
      hide Consistent, ApplyAll;
      var k := WorldKey(account, world);
      var got := repository.Get(k);
      if got.Err? {
        return Err(Missing);
      }
      var w := got.value;
      if !w.status.PendingDeletion? || w.deletionAt.None? || observedAt < w.deletionAt.value {
        return Ok(false);
      }
      Meanwhile(repository, rivals);
      if Consistent(repository.View()) {
        DeleteConsistent(repository.View(), k);
      }
      archive.DeleteWorldData(account, world);
      var deleted := repository.DeleteWorld(k);
      r := if deleted.Ok? then Ok(true) else Err(Missing);
    }
  }

  /** A wake requested twice under one key begins one operation: the second call, whatever was written in
      between by requests that do not remove the World, answers with the stored first operation. */
  lemma WakeIsIdempotent(r: Repo, s: Repo, w: World, seen: World, id: Id, again: Id, key: string, now: Time,
                         later: Time)
    requires KeyOf(w) in r.worlds && r.worlds[KeyOf(w)] == w && KeyOf(seen) == KeyOf(w)
    requires CommandKey(w.account, key) !in r.commands && KeyOf(w) !in r.active
    requires var first := Apply(r, PlanWake(w, true, true, id, key, now));
             && (forall c :: c in first.commands ==> c in s.commands && s.commands[c] == first.commands[c])
             && first.operations.Keys <= s.operations.Keys
    ensures Answer(r, PlanWake(w, true, true, id, key, now)).Ok?
    ensures var p := PlanWake(seen, true, true, again, key, later);
            Apply(s, p) == s && Answer(s, p) == Ok(Some(s.operations[id]))
  {
  }

  /** The race of a cancellation and a purge. A World is pending and due; its deletion is cancelled, which
      makes it an ordinary Sleeping World; a purge that read it before still deletes it. */
  lemma CancelledIsPurged(r: Repo, w: World, observedAt: Time)
    requires Consistent(r) && KeyOf(w) in r.worlds && r.worlds[KeyOf(w)] == w
    requires Due(w, observedAt)
    ensures var cancelled := Apply(r, PlanCancelDeletion(w, true));
            && Consistent(cancelled) && KeyOf(w) in cancelled.worlds
            && cancelled.worlds[KeyOf(w)].status.Sleeping? && cancelled.worlds[KeyOf(w)].deletionAt.None?
            && Apply(cancelled, PlanPurge(cancelled.worlds[KeyOf(w)], observedAt)) == cancelled
    ensures var purged := Apply(Apply(r, PlanCancelDeletion(w, true)), PlanPurge(w, observedAt));
            && Consistent(purged) && KeyOf(w) !in purged.worlds
            && forall id :: id in purged.operations ==> KeyFor(purged.operations[id]) != KeyOf(w)
  {
    hide Consistent;
    var restored := w.(status := Sleeping, deletionAt := None, finalBackup := None, version := w.version + 1);
    QuietKeeps(r, KeyOf(w), restored);
    var cancelled := Apply(r, PlanCancelDeletion(w, true));
    DeleteConsistent(cancelled, KeyOf(w));
  }
}
