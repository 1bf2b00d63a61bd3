/** What removes a World and what ends a live operation: the exact actions, told from the state before them,
    and the exact runs. */
module Endings {
  import opened Base
  import opened WorldModel
  import opened WorldPlans
  import opened WorldLaws
  import opened WorldProtocol
  import opened RecoveryWindow

  // ----- a World

  /** A purge by a client that remembers the World as pending, with a date not after the purge's clock. */
  predicate PurgesWorld(s: System, e: Event, k: WorldKey) {
    && e.Act? && e.intent.Purge?
    && var w := MemoryOf(s, e.client).world;
       w.Some? && KeyOf(w.value) == k && Due(w.value, e.intent.observedAt)
  }

  lemma RemovesExactly(m: Memory, i: Intent)
    ensures PlanFor(m, i).Remove? <==>
              i.Purge? && m.world.Some? && Due(m.world.value, i.observedAt)
    ensures PlanFor(m, i).Remove? ==> PlanFor(m, i).key == KeyOf(m.world.value)
  {
    hide EmptySince, IdleElapsed, Propose, Recent;
  }

  /** No action makes a World, and only a removal takes one. */
  lemma WorldsAfter(r: Repo, p: Plan)
    ensures Apply(r, p).worlds.Keys == if p.Remove? then r.worlds.Keys - {p.key} else r.worlds.Keys
  {
  }

  /** One action: a World is there afterwards if and only if it was and the action does not purge it. What
      the World has become since the purge's client read it does not matter. */
  lemma WorldStaysExactly(s: System, e: Event, k: WorldKey)
    ensures k in Next(s, e).repo.worlds <==> k in s.repo.worlds && !PurgesWorld(s, e, k)
  {
    if e.Act? {
      var m := MemoryOf(s, e.client);
      RemovesExactly(m, e.intent);
      hide PlanFor;
      WorldsAfter(s.repo, PlanFor(m, e.intent));
      hide Apply;
    }
  }

  ghost predicate NeverPurged(s: System, events: seq<Event>, k: WorldKey) {
    forall i :: 0 <= i < |events| ==> !PurgesWorld(Exec(s, events[..i]), events[i], k)
  }

  /** Whole runs: a World is there at the end if and only if no action of the run purged it. */
  lemma {:induction false} RunWorldStaysExactly(s: System, events: seq<Event>, k: WorldKey)
    requires k in s.repo.worlds
    ensures k in Exec(s, events).repo.worlds <==> NeverPurged(s, events, k)
  {
    hide Next, PurgesWorld;
    if |events| > 0 {
      var n := |events| - 1;
      RunWorldStaysExactly(s, events[..n], k);
      WorldStaysExactly(Exec(s, events[..n]), events[n], k);
      NeverPurgedLast(s, events, k);
    }
  }

  lemma NeverPurgedLast(s: System, events: seq<Event>, k: WorldKey)
    requires |events| > 0
    ensures var n := |events| - 1;
            NeverPurged(s, events, k) <==> NeverPurged(s, events[..n], k) && !PurgesWorld(Exec(s, events[..n]), events[n], k)
  {
    hide Exec, PurgesWorld;
    var n := |events| - 1;
    assert forall i :: 0 <= i < n ==> events[..n][..i] == events[..i] && events[..n][i] == events[i];
  }

  /** A cancelled deletion. Once the cancellation of a pending World is committed, the World is Sleeping
      without a date, and after any further actions of any clients it is still there if and only if none of
      them was a purge by a client that remembered it pending and due. */
  lemma CancelledStaysExactly(s: System, client: nat, k: WorldKey, events: seq<Event>)
    requires Invariant(s) && k in s.repo.worlds && s.repo.worlds[k].status.PendingDeletion?
    requires MemoryOf(s, client).world == Some(s.repo.worlds[k])
    ensures var t := Next(s, Act(client, CancelDeletion(true)));
            && k in t.repo.worlds && t.repo.worlds[k].status.Sleeping? && t.repo.worlds[k].deletionAt.None?
            && (k in Exec(t, events).repo.worlds <==> NeverPurged(t, events, k))
  {
    assert Filed(s.repo);
    var t := Next(s, Act(client, CancelDeletion(true)));
    assert k in t.repo.worlds && t.repo.worlds[k].status.Sleeping? && t.repo.worlds[k].deletionAt.None?;
    hide Next, Invariant, Filed, NeverPurged, Exec;
    RunWorldStaysExactly(t, events, k);
  }

  /** A purge by a client that read the World after the cancellation deletes nothing: what it remembers is
      not pending. */
  lemma FreshPurgeSpares(s: System, e: Event, k: WorldKey)
    requires k in s.repo.worlds && !s.repo.worlds[k].status.PendingDeletion?
    requires MemoryOf(s, e.client).world == Some(s.repo.worlds[k])
    ensures k in Next(s, e).repo.worlds
  {
    WorldStaysExactly(s, e, k);
  }

  // ----- an operation

  /** The phases and answers in which an advance finishes its operation. */
  predicate Finishing(o: Operation, e: Outside) {
    match o.kind
    case Wake => (o.phase.CheckingGameHealth? && e.healthy) || o.phase.ReleasingRuntime?
    case Sleep =>
      || (o.phase.CheckingPlayers? && e.players > 0 && !o.force) || (o.phase.PersistingWorld? && !e.validated)
      || o.phase.ReleasingRuntime?
    case Recover => o.phase.CheckingGameHealth?
  }

  predicate EndingIntent(o: Operation, i: Intent) {
    i.FailPreflight? || i.GiveUp? || (i.Advance? && Finishing(o, i.outside))
  }

  /** The action ends a live operation: its client remembers operation and World as they are and fails the
      operation's preflight, gives it up, or takes its last step; or it purges the World. */
  predicate Ends(s: System, e: Event, id: Id)
    requires id in s.repo.operations
  {
    var o := s.repo.operations[id];
    || PurgesWorld(s, e, KeyFor(o))
    || (&& e.Act? && EndingIntent(o, e.intent)
        && var m := MemoryOf(s, e.client);
           m.operation == Some(o) && m.world.Some? && KeyFor(o) in s.repo.worlds && m.world.value == s.repo.worlds[KeyFor(o)])
  }

  ghost predicate LiveIn(r: Repo, id: Id) { id in r.operations && Live(r.operations[id]) }

  /** What the save of a live operation's plan leaves of it. */
  lemma SavesEnd(m: Memory, i: Intent)
    requires PlanFor(m, i).SaveOp? && Live(m.operation.value)
    ensures var p, o := PlanFor(m, i), m.operation.value;
            && m.world.Some? && KeyFor(o) == KeyOf(m.world.value)
            && p.saved.id == o.id && p.expectedOp == o.version && KeyFor(p.saved) == KeyFor(o)
            && (!Live(p.saved) <==> EndingIntent(o, i))
            && (!Live(p.saved) ==>
                  p.write.Some? && p.write.value.expected == m.world.value.version && KeyOf(p.write.value.after) == KeyFor(o))
  {
    hide EmptySince, IdleElapsed, Propose, Recent;
    var o, w := m.operation.value, m.world.value;
    if i.Advance? {
      match o.kind
      case Wake => assert PlanFor(m, i) == PlanWakeStep(o, w, i.outside);
      case Sleep => assert PlanFor(m, i) == PlanSleepStep(o, w, i.outside);
      case Recover => assert PlanFor(m, i) == PlanRecoveryStep(o, w, i.outside);
    }
  }

  lemma EndingsSave(m: Memory, i: Intent)
    requires m.operation.Some? && m.world.Some? && KeyFor(m.operation.value) == KeyOf(m.world.value)
    requires Live(m.operation.value) && Ready(m.operation.value) && EndingIntent(m.operation.value, i)
    ensures PlanFor(m, i).SaveOp?
  {
  }

  lemma SaveLeavesLive(s: System, e: Event, id: Id)
    requires Invariant(s) && LiveIn(s.repo, id) && e.Act? && PlanFor(MemoryOf(s, e.client), e.intent).SaveOp?
    ensures LiveIn(Next(s, e).repo, id) <==> !Ends(s, e, id)
  {
    var r, m := s.repo, MemoryOf(s, e.client);
    var o, p := r.operations[id], PlanFor(m, e.intent);
    RecallClient(s, e.client);
    assert Filed(r) && IndexExact(r);
    LiveIsCoupled(r, o);
    SaveTouches(m, e.intent);
    RemovesExactly(m, e.intent);
    hide Invariant, PlanFor, Consistent, EndingIntent;
    if m.operation.value.id == id && r.operations[id].version == p.expectedOp {
      assert m.operation.value == o;
      SavesEnd(m, e.intent);
    }
  }

  lemma OthersLeaveLive(s: System, e: Event, id: Id)
    requires Invariant(s) && FreshEvent(s, e) && LiveIn(s.repo, id) && e.Act?
    requires !PlanFor(MemoryOf(s, e.client), e.intent).SaveOp?
    ensures LiveIn(Next(s, e).repo, id) <==> !Ends(s, e, id)
  {
    var r, m := s.repo, MemoryOf(s, e.client);
    var o, p := r.operations[id], PlanFor(m, e.intent);
    RecallClient(s, e.client);
    assert Filed(r) && IndexExact(r) && r.operations.Keys <= s.used;
    LiveIsCoupled(r, o);
    RemovesExactly(m, e.intent);
    if m.operation == Some(o) && m.world == Some(r.worlds[KeyFor(o)]) && EndingIntent(o, e.intent) {
      EndingsSave(m, e.intent);
    }
    if p.BeginOp? {
      BeginsItself(m, e.intent);
    }
    hide Invariant, PlanFor, Consistent, EndingIntent, Begin;
    AppliesOnce(r, p);
  }

  /** One action: a live operation is stored and live afterwards if and only if the action does not end it. */
  lemma LiveStaysExactly(s: System, e: Event, id: Id)
    requires Invariant(s) && FreshEvent(s, e) && LiveIn(s.repo, id)
    ensures LiveIn(Next(s, e).repo, id) <==> !Ends(s, e, id)
  {
    if e.Act? {
      hide Invariant, PlanFor, Next, Ends;
      if PlanFor(MemoryOf(s, e.client), e.intent).SaveOp? {
        SaveLeavesLive(s, e, id);
      } else {
        OthersLeaveLive(s, e, id);
      }
    }
  }

  /** What is over, or gone, stays so. */
  lemma DeadStays(s: System, e: Event, id: Id)
    requires Invariant(s) && FreshEvent(s, e) && id in s.used && !LiveIn(s.repo, id)
    ensures !LiveIn(Next(s, e).repo, id) && id in Next(s, e).used
  {
    RecallClient(s, e.client);
    assert Consistent(s.repo) && s.repo.operations.Keys <= s.used;
    hide Invariant, PlanFor, Apply, Consistent, MemoryCoherent;
    if e.Act? {
      var m := MemoryOf(s, e.client);
      if PlanFor(m, e.intent).BeginOp? {
        BeginsItself(m, e.intent);
      }
      ActAdvances(s.repo, s.used, m, e.intent);
    }
  }

  ghost predicate NeverEnded(s: System, events: seq<Event>, id: Id) {
    forall i :: 0 <= i < |events| ==>
      id in Exec(s, events[..i]).repo.operations ==> !Ends(Exec(s, events[..i]), events[i], id)
  }

  /** One event on an operation whose identifier is taken. */
  lemma EventLiveExactly(s: System, e: Event, id: Id)
    requires Invariant(s) && FreshEvent(s, e) && id in s.used
    ensures Invariant(Next(s, e)) && id in Next(s, e).used
    ensures LiveIn(Next(s, e).repo, id) <==>
              LiveIn(s.repo, id) && (id in s.repo.operations ==> !Ends(s, e, id))
  {
    hide Invariant, Next, Ends, LiveIn, FreshEvent;
    NextKeeps(s, e);
    UsedStays(s, e, id);
    if LiveIn(s.repo, id) {
      LiveIsStored(s.repo, id);
      LiveStaysExactly(s, e, id);
    } else {
      DeadStays(s, e, id);
    }
  }

  /** Whole runs: a live operation is stored and live at the end if and only if no action of the run ended it. */
  lemma {:induction false} RunLiveExactly(s: System, events: seq<Event>, id: Id)
    requires Invariant(s) && FreshRun(s, events) && LiveIn(s.repo, id)
    ensures LiveIn(Exec(s, events).repo, id) <==> NeverEnded(s, events, id)
    ensures Invariant(Exec(s, events)) && id in Exec(s, events).used
  {
    if |events| == 0 {
      assert s.repo.operations.Keys <= s.used;
    } else {
      hide Invariant, Next, Ends, LiveIn, FreshEvent, NeverEnded;
      var n := |events| - 1;
      forall i | 0 <= i < n ensures FreshEvent(Exec(s, events[..n][..i]), events[..n][i]) {
        assert events[..n][..i] == events[..i];
      }
      RunLiveExactly(s, events[..n], id);
      assert FreshEvent(Exec(s, events[..n]), events[n]);
      EventLiveExactly(Exec(s, events[..n]), events[n], id);
      NeverEndedLast(s, events, id);
    }
  }

  lemma LiveIsStored(r: Repo, id: Id)
    requires LiveIn(r, id)
    ensures id in r.operations
  {
  }

  lemma UsedStays(s: System, e: Event, id: Id)
    requires id in s.used
    ensures id in Next(s, e).used
  {
    hide Apply, PlanFor;
  }

  lemma NeverEndedLast(s: System, events: seq<Event>, id: Id)
    requires |events| > 0
    ensures var n := |events| - 1;
            NeverEnded(s, events, id) <==>
              && NeverEnded(s, events[..n], id)
              && (id in Exec(s, events[..n]).repo.operations ==> !Ends(Exec(s, events[..n]), events[n], id))
  {
    hide Exec, Ends;
    var n := |events| - 1;
    assert forall i :: 0 <= i < n ==> events[..n][..i] == events[..i] && events[..n][i] == events[i];
  }
}
