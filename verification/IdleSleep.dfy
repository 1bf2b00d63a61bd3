/** Auto Sleep over whole runs: a monitor puts a World to sleep for idleness only after an unbroken row of
    observations without players, as long as the limit, all inside one session. */
module IdleSleep {
  import opened Base
  import opened WorldModel
  import opened WorldPlans
  import opened WorldLaws
  import opened WorldProtocol

  /** What counts about a World, in order: observations that took effect, and the instants a session ends
      or begins. */
  datatype Note = Seen(at: Time, players: nat) | Reset

  datatype Watch = Watch(system: System, notes: map<WorldKey, seq<Note>>)

  function NotesOf(s: Watch, k: WorldKey): seq<Note> { if k in s.notes then s.notes[k] else [] }

  predicate EndsSession(p: Plan) {
    p.SaveOp? && !p.saved.kind.Recover? && (p.saved.status.Succeeded? || p.saved.status.Cancelled?)
  }

  /** The note an action leaves: an observation counts when it was committed, or agreed with the stored
      World; a wake, and a sleep or wake that ends, start afresh. */
  function NoteFor(r: Repo, m: Memory, i: Intent): Option<Note> {
    var p := PlanFor(m, i);
    var committed := Apply(r, p) != r;
    if m.world.None? then None else
    var w := m.world.value;
    match i
    case Observe(now, idle, players, guardSleeps, id, minute) =>
      if committed || (p.Done? && w.status.Online? && KeyOf(w) in r.worlds && r.worlds[KeyOf(w)] == w)
      then Some(Seen(now, players)) else None
    case AskWake(_, _, _, _, _) => if committed then Some(Reset) else None
    case Advance(_) =>
      if committed && EndsSession(p) then Some(Reset) else None
    case _ => None
  }

  function NextWatch(s: Watch, e: Event): Watch {
    var t := Next(s.system, e);
    if !e.Act? then s.(system := t) else
    var m := MemoryOf(s.system, e.client);
    var note := NoteFor(s.system.repo, m, e.intent);
    if note.None? then s.(system := t) else
    var k := KeyOf(m.world.value);
    Watch(t, s.notes[k := NotesOf(s, k) + [note.value]])
  }

  /** From position `i` on: an empty observation at `t`, then nothing but empty observations. */
  ghost predicate QuietFrom(notes: seq<Note>, i: nat, t: Time) {
    && i < |notes| && notes[i] == Seen(t, 0)
    && forall j :: i <= j < |notes| ==> notes[j].Seen? && notes[j].players == 0
  }

  ghost predicate Quiet(notes: seq<Note>, t: Time) { exists i :: QuietFrom(notes, i, t) }

  ghost predicate Marked(s: Watch) {
    forall k :: k in s.system.repo.worlds && s.system.repo.worlds[k].emptySince.Some? ==>
                  Quiet(NotesOf(s, k), s.system.repo.worlds[k].emptySince.value)
  }

  /** The mark a plan writes: the observation's, or the one read, or none; and none where a session turns. */
  lemma MarksWritten(m: Memory, i: Intent)
    requires m.world.Some? && Written(PlanFor(m, i)).Some?
    ensures var p, w := PlanFor(m, i), m.world.value;
            var after := Written(p).value;
            && (i.Observe? ==> after.emptySince == EmptySince(w, i.now, i.players))
            && (!i.Observe? ==> after.emptySince == w.emptySince || after.emptySince.None?)
            && (i.AskWake? ==> after.emptySince.None?)
            && (EndsSession(p) && i.Advance? && Live(m.operation.value) ==> after.emptySince.None?)
  {
    hide EmptySince, IdleElapsed, Propose, Recent;
  }

  lemma AdvancesLive(m: Memory, i: Intent)
    requires i.Advance? && PlanFor(m, i).SaveOp?
    ensures m.operation.Some? && Live(m.operation.value)
    ensures EndsSession(PlanFor(m, i)) ==> PlanFor(m, i).write.Some?
  {
  }

  lemma QuietMore(notes: seq<Note>, t: Time, at: Time)
    requires Quiet(notes, t)
    ensures Quiet(notes + [Seen(at, 0)], t)
  {
    var i :| QuietFrom(notes, i, t);
    assert QuietFrom(notes + [Seen(at, 0)], i, t);
  }

  lemma QuietNow(notes: seq<Note>, at: Time)
    ensures Quiet(notes + [Seen(at, 0)], at)
  {
    assert QuietFrom(notes + [Seen(at, 0)], |notes|, at);
  }

  /** An observation and its mark fit the notes it leaves. */
  lemma ObservationFits(notes: seq<Note>, w: World, now: Time, players: nat)
    requires w.emptySince.Some? ==> Quiet(notes, w.emptySince.value)
    ensures EmptySince(w, now, players).Some? ==> Quiet(notes + [Seen(now, players)], EmptySince(w, now, players).value)
  {
    if players == 0 {
      if w.emptySince.Some? {
        QuietMore(notes, w.emptySince.value, now);
      } else {
        QuietNow(notes, now);
      }
    }
  }

  lemma NextMarked(s: Watch, e: Event)
    requires Invariant(s.system) && Marked(s) && FreshEvent(s.system, e)
    ensures Marked(NextWatch(s, e))
  {
    var t := NextWatch(s, e);
    if e.Act? {
      var r, m, i := s.system.repo, MemoryOf(s.system, e.client), e.intent;
      RecallClient(s.system, e.client);
      assert Filed(r) && IndexExact(r);
      hide Invariant, PlanFor, Apply, Quiet, MemoryCoherent, EmptySince;
      if m.world.Some? {
        ActMarked(s, m, i);
      } else {
        assert PlanFor(m, i) == Done by { BlindDoesNothing(m, i); }
        assert t.system.repo == r by { DoneIsStill(r); }
        forall k | k in r.worlds && r.worlds[k].emptySince.Some? ensures Quiet(NotesOf(t, k), r.worlds[k].emptySince.value) {
          assert NotesOf(t, k) == NotesOf(s, k);
        }
      }
    }
  }

  lemma BlindDoesNothing(m: Memory, i: Intent)
    requires m.world.None?
    ensures PlanFor(m, i) == Done
  {
  }

  lemma DoneIsStill(r: Repo)
    ensures Apply(r, Done) == r
  {
  }

  lemma ActMarked(s: Watch, m: Memory, i: Intent)
    requires Marked(s) && Filed(s.system.repo) && IndexExact(s.system.repo)
    requires m.world.Some? && SeenWorld(s.system.repo, m.world.value)
    ensures var r, k := s.system.repo, KeyOf(m.world.value);
            var note, after := NoteFor(r, m, i), Apply(r, PlanFor(m, i));
            forall j :: j in after.worlds && after.worlds[j].emptySince.Some? ==>
                          Quiet(if j == k && note.Some? then NotesOf(s, k) + [note.value] else NotesOf(s, j),
                                after.worlds[j].emptySince.value)
  {
    var r, w, p := s.system.repo, m.world.value, PlanFor(m, i);
    var k, note, after := KeyOf(w), NoteFor(r, m, i), Apply(r, p);
    PlansFitReads(m, i);
    OneWorldWritten(r, w, p);
    ReadMarked(s, k);
    hide Apply, PlanFor, Quiet, EmptySince, Marked;
    if i.Observe? {
      ObservationFits(if k in r.worlds && r.worlds[k] == w then NotesOf(s, k) else [],
                      if k in r.worlds && r.worlds[k] == w then w else w.(emptySince := None), i.now, i.players);
    }
    forall j | j in after.worlds && after.worlds[j].emptySince.Some?
      ensures Quiet(if j == k && note.Some? then NotesOf(s, k) + [note.value] else NotesOf(s, j),
            after.worlds[j].emptySince.value)
    {
      ReadMarked(s, j);
      if after.worlds[j] == r.worlds[j] {
        if j == k && note.Some? {
          UnwrittenNote(r, m, i);
        }
      } else {
        MarksWritten(m, i);
        if i.Advance? && p.SaveOp? {
          AdvancesLive(m, i);
        }
      }
    }
  }

  lemma ReadMarked(s: Watch, k: WorldKey)
    requires Marked(s)
    ensures k in s.system.repo.worlds && s.system.repo.worlds[k].emptySince.Some? ==>
              Quiet(NotesOf(s, k), s.system.repo.worlds[k].emptySince.value)
  {
  }

  /** A note without a write of the World comes from an observation that agreed with it. */
  lemma UnwrittenNote(r: Repo, m: Memory, i: Intent)
    requires Filed(r) && IndexExact(r) && m.world.Some? && SeenWorld(r, m.world.value) && NoteFor(r, m, i).Some?
    requires var k := KeyOf(m.world.value);
             k in r.worlds && k in Apply(r, PlanFor(m, i)).worlds && Apply(r, PlanFor(m, i)).worlds[k] == r.worlds[k]
    ensures i.Observe? && NoteFor(r, m, i) == Some(Seen(i.now, i.players))
    ensures r.worlds[KeyOf(m.world.value)] == m.world.value
    ensures EmptySince(m.world.value, i.now, i.players) == m.world.value.emptySince
  {
    var w, p := m.world.value, PlanFor(m, i);
    PlansFitReads(m, i);
    OneWorldWritten(r, w, p);
    hide Filed, IndexExact, Apply, PlanFor, EmptySince;
    assert Written(p).Some? ==> Apply(r, p) == r;
    if i.Observe? {
      ObserveWritesOrAgrees(m, i);
      StillUnlessWritten(r, p);
    } else if i.Advance? {
      AdvancesLive(m, i);
    } else {
      WakesWrite(m, i);
      StillUnlessWritten(r, p);
    }
  }

  lemma StillUnlessWritten(r: Repo, p: Plan)
    ensures p.Done? || p.Stop? ==> Apply(r, p) == r
  {
  }

  lemma WakesWrite(m: Memory, i: Intent)
    requires m.world.Some? && i.AskWake?
    ensures PlanFor(m, i).BeginOp? || PlanFor(m, i).Stop?
  {
  }

  lemma ObserveWritesOrAgrees(m: Memory, i: Intent)
    requires m.world.Some? && i.Observe?
    ensures var p := PlanFor(m, i); Written(p).Some? || p.Done? || p.Stop?
    ensures PlanFor(m, i).Done? && m.world.value.status.Online? ==>
              EmptySince(m.world.value, i.now, i.players) == m.world.value.emptySince
  {
    hide IdleElapsed;
  }

  /** The marks of all Worlds over any run of any clients. */
  lemma {:induction false} RunMarked(s: Watch, events: seq<Event>)
    requires Invariant(s.system) && Marked(s)
    requires forall i :: 0 <= i < |events| ==> FreshEvent(ExecWatch(s, events[..i]).system, events[i])
    ensures Invariant(ExecWatch(s, events).system) && Marked(ExecWatch(s, events))
  {
    hide Invariant, Marked, FreshEvent, NextWatch;
    if |events| > 0 {
      var n := |events| - 1;
      forall i | 0 <= i < n ensures FreshEvent(ExecWatch(s, events[..n][..i]).system, events[..n][i]) {
        assert events[..n][..i] == events[..i];
      }
      RunMarked(s, events[..n]);
      var t := ExecWatch(s, events[..n]);
      NextMarked(t, events[n]);
      NextKeeps(t.system, events[n]);
      assert NextWatch(t, events[n]).system == Next(t.system, events[n]) by { WatchFollows(t, events[n]); }
    }
  }

  function ExecWatch(s: Watch, events: seq<Event>): Watch {
    if |events| == 0 then s else NextWatch(ExecWatch(s, events[..|events| - 1]), events[|events| - 1])
  }

  lemma WatchFollows(s: Watch, e: Event)
    ensures NextWatch(s, e).system == Next(s.system, e)
  {
    hide Next, NoteFor;
  }

  // ----- what the marks say

  /** Observations are made at nondecreasing times. */
  ghost predicate InOrder(notes: seq<Note>) {
    forall i, j :: 0 <= i < j < |notes| && notes[i].Seen? && notes[j].Seen? ==> notes[i].at <= notes[j].at
  }

  /** A sleep the monitor begins for idleness is earned: some observation `t` at least the limit ago began
      a row of observations in which nobody played, unbroken by a new wake, a cancelled or a finished
      sleep; and when times never go back, every counted observation after `t` saw nobody. */
  lemma IdleSleepIsEarned(s: Watch, e: Event)
    requires Invariant(s.system) && Marked(s) && FreshEvent(s.system, e)
    requires e.Act? && e.intent.Observe? && !e.intent.guardSleeps
    requires var m := MemoryOf(s.system, e.client);
             PlanFor(m, e.intent).BeginOp? && Next(s.system, e).repo != s.system.repo
    ensures var w, i := MemoryOf(s.system, e.client).world.value, e.intent;
            var notes := NotesOf(NextWatch(s, e), KeyOf(w));
            && IdleLimit(w, i.idle).Some?
            && exists t, from: nat ::
                 && QuietFrom(notes, from, t) && notes[|notes| - 1] == Seen(i.now, 0)
                 && i.now - t >= IdleLimit(w, i.idle).value * MINUTE
                 && (InOrder(notes) ==> forall j :: 0 <= j < |notes| && notes[j].Seen? && notes[j].at > t ==> notes[j].players == 0)
  {
    var r, m, i := s.system.repo, MemoryOf(s.system, e.client), e.intent;
    var w := m.world.value;
    RecallClient(s.system, e.client);
    PlansFitReads(m, i);
    OneWorldWritten(r, w, PlanFor(m, i));
    ReadMarked(s, KeyOf(w));
    ObservationFits(NotesOf(s, KeyOf(w)), w, i.now, i.players);
    var t := EmptySince(w, i.now, i.players).value;
    var notes := NotesOf(NextWatch(s, e), KeyOf(w));
    assert notes == NotesOf(s, KeyOf(w)) + [Seen(i.now, 0)];
    assert Quiet(notes, t);
    var from: nat :| QuietFrom(notes, from, t);
    assert notes[|notes| - 1] == Seen(i.now, 0);
  }

  /** No mark survives a new wake, a wake or sleep that succeeds, or a cancelled sleep. */
  lemma SessionsStartUnmarked(s: Watch, e: Event)
    requires Invariant(s.system) && e.Act? && MemoryOf(s.system, e.client).world.Some?
    requires NoteFor(s.system.repo, MemoryOf(s.system, e.client), e.intent) == Some(Reset)
    ensures var t, k := Next(s.system, e).repo, KeyOf(MemoryOf(s.system, e.client).world.value);
            k in t.worlds && t.worlds[k].emptySince.None?
  {
    var r, m, i := s.system.repo, MemoryOf(s.system, e.client), e.intent;
    var w := m.world.value;
    RecallClient(s.system, e.client);
    assert Filed(r) && IndexExact(r);
    hide Invariant, MemoryCoherent, EmptySince;
    PlansFitReads(m, i);
    OneWorldWritten(r, w, PlanFor(m, i));
    hide Apply;
    if i.Advance? {
      AdvancesLive(m, i);
    } else {
      WakesWrite(m, i);
    }
    hide PlanFor;
    MarksWritten(m, i);
  }
}
