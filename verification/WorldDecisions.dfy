/** When each request, observation and change of World data is granted and what it then writes, told from the
    World it read, the caller's permission and the clock. */
module WorldDecisions {
  import opened Base
  import opened WorldModel
  import opened WorldPlans
  import opened WorldProtocol

  /** A new operation of this World, waiting. */
  predicate Waiting(o: Operation, w: World, kind: OperationKind, id: Id, key: string, at: Time) {
    && o.id == id && (o.account, o.world) == (w.account, w.id) && o.kind == kind && o.key == key && o.createdAt == at
    && (o.status, o.phase, o.version) == (Pending, Requested, 1) && (o.stored, o.backup) == (None, None)
  }

  /** A wake needs the permission and an open gate, whatever the World shows, and starts without runtime and session. */
  lemma WakeAskedExactly(m: Memory, i: Intent)
    requires i.AskWake? && m.world.Some?
    ensures var p, w := PlanFor(m, i), m.world.value;
            && (p.BeginOp? <==> i.permitted && i.storageOpen)
            && (p == Stop(Denied) <==> !i.permitted) && (p == Stop(Blocked) <==> i.permitted && !i.storageOpen)
            && (p.BeginOp? ==>
                  && p.expected == w.version && p.after == w.(status := Waking, emptySince := None, version := w.version + 1)
                  && Waiting(p.operation, w, Wake, i.id, i.key, i.now) && !p.operation.force && p.operation.attempt == 0
                  && (p.operation.runtime, p.operation.session, p.operation.startedAt) == (None, None, None))
  {
  }

  /** A sleep that was asked for or that the monitor begins: it takes over what runs, and the World goes to sleep. */
  predicate BeginsSleep(p: Plan, w: World, id: Id, key: string, at: Time, force: bool, emptySince: Option<Time>) {
    && p.BeginOp? && p.expected == w.version
    && p.after == w.(status := GoingToSleep, emptySince := emptySince, version := w.version + 1)
    && Waiting(p.operation, w, Sleep, id, key, at) && p.operation.force == force && p.operation.attempt == 0
    && (p.operation.runtime, p.operation.session, p.operation.startedAt) == (w.runtime, w.session, w.startedAt)
  }

  lemma SleepAskedExactly(m: Memory, i: Intent)
    requires i.AskSleep? && m.world.Some?
    ensures var p, w := PlanFor(m, i), m.world.value;
            && (p.BeginOp? <==> i.permitted && w.status == Online)
            && (p == Stop(Denied) <==> !i.permitted) && (p == Stop(Invalid) <==> i.permitted && w.status != Online)
            && (p.BeginOp? ==> BeginsSleep(p, w, i.id, i.key, i.now, i.force, w.emptySince))
  {
  }

  /** The recoveries listed of the last quarter of an hour, to the microsecond. */
  function Lately(listed: map<Id, Time>, at: Time): set<Id> { set id | id in listed && at - listed[id] <= 900_000_000 }

  /** A recovery begins exactly as the first, second or third of the last quarter of an hour, on a World that is
      online or still waking; it is numbered so. */
  lemma RecoveryAskedExactly(m: Memory, i: Intent)
    requires i.AskRecovery? && m.world.Some? && m.listed.Some?
    ensures var p, w, recent := PlanFor(m, i), m.world.value, |Lately(m.listed.value, i.detectedAt)|;
            && (p.BeginOp? <==> recent <= 2 && w.status in {Online, Waking})
            && (p.Done? <==> recent >= 3 || w.status == Attention)
            && (p == Stop(Invalid) <==> recent <= 2 && w.status !in {Online, Waking, Attention})
            && (p.BeginOp? ==>
                  && p.expected == w.version && p.after == w.(status := Waking, version := w.version + 1)
                  && Waiting(p.operation, w, Recover, i.id, i.key, i.detectedAt) && !p.operation.force
                  && p.operation.attempt == recent + 1 && p.operation.runtime == w.runtime
                  && (p.operation.session, p.operation.startedAt) == (None, None))
  {
    assert Recent(m.listed.value, i.detectedAt) == Lately(m.listed.value, i.detectedAt);
  }

  // ----- the monitor

  /** The mark after an observation: none while somebody plays, else the earlier one or this instant. */
  predicate MarkedSince(mark: Option<Time>, before: Option<Time>, players: nat, now: Time) {
    if players > 0 then mark == None else mark == (if before == None then Some(now) else before)
  }

  /** Nobody has played for the limit in minutes: the caller's, or the World's own where the caller has none. */
  predicate IdleTooLong(w: World, i: Intent)
    requires i.Observe?
  {
    var limit := if i.idle.Some? then i.idle else w.autoSleep;
    i.players == 0 && limit.Some? && i.now - (if w.emptySince.Some? then w.emptySince.value else i.now) >= limit.value * 60_000_000
  }

  predicate BadLimit(w: World, i: Intent)
    requires i.Observe?
  {
    (i.idle.Some? && i.idle.value <= 0) || (i.idle.None? && w.autoSleep.Some? && w.autoSleep.value <= 0)
  }

  /** An observation of a running World begins a sleep exactly when the guard asks for it, then by force, or when
      nobody has played for too long, then gently; otherwise it only moves the mark. */
  lemma ObservedExactly(m: Memory, i: Intent)
    requires i.Observe? && m.world.Some?
    ensures var p, w := PlanFor(m, i), m.world.value;
            && (p == Stop(Invalid) <==> BadLimit(w, i))
            && (p == Stop(NoRuntime) <==> !BadLimit(w, i) && w.status == Online && w.runtime == None)
            && (p.BeginOp? <==>
                  !BadLimit(w, i) && w.status == Online && w.runtime != None && (i.guardSleeps || IdleTooLong(w, i)))
            && (p.BeginOp? ==>
                  exists mark :: MarkedSince(mark, w.emptySince, i.players, i.now)
                    && BeginsSleep(p, w, i.id,
                                   "monitor:" + w.id + (if i.guardSleeps then ":balance:" else ":idle:") + i.minute,
                                   i.now, i.guardSleeps, mark))
            && (p.Touch? <==>
                  && !BadLimit(w, i) && w.status == Online && w.runtime != None && !i.guardSleeps && !IdleTooLong(w, i)
                  && !MarkedSince(w.emptySince, w.emptySince, i.players, i.now))
            && (p.Touch? ==>
                  && p.expectedWorld == w.version && MarkedSince(p.touched.emptySince, w.emptySince, i.players, i.now)
                  && p.touched == w.(emptySince := p.touched.emptySince, version := w.version + 1))
            && (p.Done? || p.Touch? || p.BeginOp? || p.Stop?)
  {
    var w := m.world.value;
    assert MarkedSince(EmptySince(w, i.now, i.players), w.emptySince, i.players, i.now);
    assert IdleElapsed(w, i.now, i.idle, i.players) <==> IdleTooLong(w, i);
    hide IdleElapsed, IdleTooLong;
    assert "monitor:" + w.id + ":" + (if i.guardSleeps then "balance" else "idle") + ":" + i.minute
        == "monitor:" + w.id + (if i.guardSleeps then ":balance:" else ":idle:") + i.minute;
  }

  // ----- the World's data

  predicate Selectable(minutes: Option<int>) {
    minutes == None || minutes == Some(10) || minutes == Some(20) || minutes == Some(30) || minutes == Some(60)
  }

  lemma SettingsChangedExactly(m: Memory, i: Intent)
    requires i.ChangeSettings? && m.world.Some?
    ensures var p, w := PlanFor(m, i), m.world.value;
            && (p.Touch? <==> i.permitted && Selectable(i.minutes))
            && (p.Touch? ==> p.expectedWorld == w.version && p.touched == w.(autoSleep := i.minutes, version := w.version + 1))
            && (p == Stop(Invalid) <==> !Selectable(i.minutes))
            && (p.Touch? || p == Stop(Invalid) || p == Stop(Denied))
  {
  }

  lemma RestoredExactly(m: Memory, i: Intent)
    requires i.RestoreData? && m.world.Some?
    ensures var p, w := PlanFor(m, i), m.world.value;
            && (p.Touch? <==> i.permitted && w.status == Sleeping && i.key !in w.applied && i.backup.Some? && w.stored.Some?)
            && (p.Touch? ==>
                  && p.expectedWorld == w.version
                  && p.touched == w.(stored := i.backup, applied := w.applied + [i.key], version := w.version + 1))
            && (p.Done? <==> i.permitted && w.status == Sleeping && i.key in w.applied)
            && (p == Stop(Denied) <==> !i.permitted) && (p == Stop(Invalid) <==> i.permitted && w.status != Sleeping)
            && (p.Touch? || p.Done? || p.Stop?)
  {
  }

  /** A deletion waits for seven days with its final backup, and a cancelled one leaves a sleeping World. */
  lemma DeletionExactly(m: Memory, i: Intent)
    requires (i.ScheduleDeletion? || i.CancelDeletion? || i.Purge?) && m.world.Some?
    ensures var p, w := PlanFor(m, i), m.world.value;
            && (i.ScheduleDeletion? ==>
                  && (p.Touch? <==> i.permitted && i.confirmed && w.status == Sleeping && w.stored != None)
                  && (p.Touch? ==>
                        && p.expectedWorld == w.version
                        && p.touched == w.(status := PendingDeletion, deletionAt := Some(i.now + 604_800_000_000),
                                           finalBackup := Some(i.finalBackup), version := w.version + 1))
                  && (p.Done? <==> i.permitted && i.confirmed && w.status == PendingDeletion)
                  && (p == Stop(Denied) <==> !i.permitted || !i.confirmed))
            && (i.CancelDeletion? ==>
                  && (p.Touch? <==> i.permitted && w.status == PendingDeletion)
                  && (p.Touch? ==>
                        && p.expectedWorld == w.version
                        && p.touched == w.(status := Sleeping, deletionAt := None, finalBackup := None, version := w.version + 1))
                  && (p == Stop(Denied) <==> !i.permitted))
            && (i.Purge? ==>
                  (p == Remove(KeyOf(w)) <==> w.status == PendingDeletion && w.deletionAt != None && w.deletionAt.value <= i.observedAt)
                  && (p.Remove? || p.Done?))
            && (p.Touch? || p.Done? || p.Stop? || p.Remove?)
  {
  }

  // ----- configuration

  /** Every value is of a field of the template and is accepted by it. */
  ghost predicate Accepted(c: Catalog, values: map<string, Setting>) {
    forall f :: f in values ==> f in c.fields && c.parse(f, values[f]).Some?
  }

  /** What a change makes of a revision's entries: each changed field its normalized new value, every other its own. */
  ghost predicate Overrides(c: Catalog, base: map<string, Setting>, changes: map<string, Setting>, merged: map<string, Setting>) {
    && merged.Keys == base.Keys + changes.Keys
    && (forall f :: f in changes ==> c.parse(f, changes[f]) == Some(merged[f]))
    && (forall f :: f in base && f !in changes ==> merged[f] == base[f])
  }

  /** A configuration update appends exactly when every changed value is accepted and the merged entries are
      complete and accepted as a whole; the revision holds them normalized, and the World points to it. */
  lemma ConfiguredExactly(m: Memory, i: Intent)
    requires i.ChangeConfiguration? && m.world.Some?
    ensures var p, w := PlanFor(m, i), m.world.value;
            && (p.Append? <==>
                  && i.permitted && Accepted(i.catalog, i.changes)
                  && exists merged :: Overrides(i.catalog, i.base.entries, i.changes, merged)
                                      && merged.Keys == i.catalog.fields && Accepted(i.catalog, merged))
            && (p.Append? ==>
                  && p.expectedBase == w.version && p.based == w.(pendingConfiguration := Some(i.id), version := w.version + 1)
                  && p.revision == Revision(i.id, w.account, w.id, i.base.number + 1, p.revision.entries, i.key)
                  && (exists merged ::
                        Overrides(i.catalog, i.base.entries, i.changes, merged) && merged.Keys == i.catalog.fields
                        && p.revision.entries.Keys == merged.Keys
                        && forall f :: f in merged ==> i.catalog.parse(f, merged[f]) == Some(p.revision.entries[f])))
            && (p == Stop(Denied) <==> !i.permitted) && (p.Append? || p == Stop(Denied) || p == Stop(Invalid))
  {
    var c, base := i.catalog, i.base.entries;
    if Accepted(c, i.changes) {
      var normalized := map f | f in i.changes :: c.parse(f, i.changes[f]).value;
      assert Validate(c, i.changes, true) == Some(normalized);
      var merged := base + normalized;
      assert Overrides(c, base, i.changes, merged);
      forall other | Overrides(c, base, i.changes, other) ensures other == merged {
      }
      assert Validate(c, merged, false).Some? <==> merged.Keys == c.fields && Accepted(c, merged);
    }
  }
}
