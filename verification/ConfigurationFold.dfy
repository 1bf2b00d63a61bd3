/** One World's configuration history as a fold of the accepted changes, over runs of all clients. */
module ConfigurationFold {
  import opened Base
  import opened WorldModel
  import opened WorldPlans
  import opened WorldLaws
  import opened WorldProtocol
  import Endings

  /** Parsing a value the template already accepted gives it back. */
  ghost predicate Stable(c: Catalog) {
    forall f, v :: c.parse(f, v).Some? ==> c.parse(f, c.parse(f, v).value) == c.parse(f, v)
  }

  /** Entries for exactly the template's fields, each in normal form. */
  ghost predicate Normal(c: Catalog, entries: map<string, Setting>) {
    entries.Keys == c.fields && forall f :: f in entries ==> c.parse(f, entries[f]) == Some(entries[f])
  }

  /** The defaults overridden by each accepted change in turn. */
  function Overridden(defaults: map<string, Setting>, accepted: seq<map<string, Setting>>): map<string, Setting> {
    if |accepted| == 0 then defaults else Overridden(defaults, accepted[..|accepted| - 1]) + accepted[|accepted| - 1]
  }

  /** A proposal is the base overridden by the normalized change, and in normal form again. */
  lemma ProposalOverrides(c: Catalog, base: Revision, changes: map<string, Setting>)
    requires Stable(c) && Normal(c, base.entries) && Propose(c, base, changes).Some?
    ensures Validate(c, changes, true).Some?
    ensures Propose(c, base, changes).value == base.entries + Validate(c, changes, true).value
    ensures Normal(c, Propose(c, base, changes).value)
  {
    var normalized := Validate(c, changes, true).value;
    var proposed := base.entries + normalized;
    assert forall f :: f in normalized ==> c.parse(f, normalized[f]) == Some(normalized[f]);
    assert forall f :: f in proposed ==> c.parse(f, proposed[f]) == Some(proposed[f]);
  }

  /** The history of World `key`: its revisions in order and the normalized changes that made them. */
  datatype History = History(system: System, chain: seq<Id>, accepted: seq<map<string, Setting>>)

  predicate Updates(s: History, key: WorldKey, e: Event) {
    e.Act? && e.intent.ChangeConfiguration?
    && MemoryOf(s.system, e.client).world.Some? && KeyOf(MemoryOf(s.system, e.client).world.value) == key
  }

  function NextHistory(s: History, key: WorldKey, e: Event): History {
    var t := Next(s.system, e);
    if CommitsUpdate(s, key, e) then
      var i := e.intent;
      History(t, s.chain + [i.id], s.accepted + [if Validate(i.catalog, i.changes, true).Some?
                    then Validate(i.catalog, i.changes, true).value else map[]])
    else s.(system := t)
  }

  predicate Belongs(v: Revision, k: WorldKey) { WorldKey(v.account, v.world) == k }

  ghost predicate Numbered(r: Repo, k: WorldKey, chain: seq<Id>) {
    && (forall i :: 0 <= i < |chain| ==>
          chain[i] in r.revisions && Belongs(r.revisions[chain[i]], k) && r.revisions[chain[i]].number == i + 1)
    && (forall id :: id in r.revisions && Belongs(r.revisions[id], k) ==> id in chain)
  }

  ghost predicate Folded(r: Repo, c: Catalog, chain: seq<Id>, defaults: map<string, Setting>, accepted: seq<map<string,
                         Setting>>) {
    && |accepted| == |chain| - 1
    && forall i :: 0 <= i < |chain| && chain[i] in r.revisions ==>
         r.revisions[chain[i]].entries == Overridden(defaults, accepted[..i]) && Normal(c, r.revisions[chain[i]].entries)
  }

  ghost predicate Faithful(s: History, k: WorldKey, c: Catalog, defaults: map<string, Setting>) {
    k in s.system.repo.worlds ==>
      && |s.chain| >= 1
      && Numbered(s.system.repo, k, s.chain) && Folded(s.system.repo, c, s.chain, defaults, s.accepted)
      && Effective(s.system.repo.worlds[k]) == s.chain[|s.chain| - 1]
      && s.system.repo.worlds[k].configuration in s.chain
  }

  /** What update_configuration does with what it reads: the proposal and the number come from the effective
      revision of the World it previewed, of this template; and a new revision has a new identifier. */
  ghost predicate Previews(s: History, k: WorldKey, c: Catalog, e: Event) {
    e.Act? && e.intent.ChangeConfiguration? ==>
      && e.intent.id !in s.system.repo.revisions
      && (Updates(s, k, e) ==>
            && e.intent.catalog == c && KeyOf(e.intent.previewed) == k && Belongs(e.intent.base, k)
            && (k in s.system.repo.worlds ==>
                  Effective(e.intent.previewed) in s.system.repo.revisions
                  && e.intent.base == s.system.repo.revisions[Effective(e.intent.previewed)]))
  }

  /** The update commits, that is, it adds a revision. */
  predicate CommitsUpdate(s: History, k: WorldKey, e: Event) {
    Updates(s, k, e) && Next(s.system, e).repo.revisions.Keys != s.system.repo.revisions.Keys
  }

  /** If the update commits, the revision it previewed is still the effective one. */
  predicate StillEffective(s: History, k: WorldKey, e: Event) {
    CommitsUpdate(s, k, e) && k in s.system.repo.worlds ==> Effective(e.intent.previewed) == Effective(s.system.repo.worlds[k])
  }

  // ----- what other commits do to configurations

  /** Other actions leave the effective revision, and change the current one only to it. */
  lemma ConfigurationKept(m: Memory, i: Intent)
    requires m.world.Some? && Written(PlanFor(m, i)).Some? && !i.ChangeConfiguration?
    ensures var w, after := m.world.value, Written(PlanFor(m, i)).value;
            Effective(after) == Effective(w) && after.configuration in {w.configuration, Effective(w)}
  {
    hide EmptySince, IdleElapsed, Recent;
  }

  /** The current revision only ever becomes one that apply_configuration was called with: a plan that
      changes it is an advance whose effects configure the game with exactly that revision. */
  lemma ConfigurationWasApplied(m: Memory, i: Intent)
    requires m.world.Some? && Written(PlanFor(m, i)).Some?
    requires Written(PlanFor(m, i)).value.configuration != m.world.value.configuration
    ensures i.Advance? && m.operation.Some?
    ensures Configure(Written(PlanFor(m, i)).value.configuration) in AdvanceEffects(m.operation.value, m.world.value, i.outside)
  {
    hide EmptySince, IdleElapsed, Recent, Propose;
  }

  lemma OnlyUpdatesAppend(m: Memory, i: Intent)
    ensures PlanFor(m, i).Append? ==> i.ChangeConfiguration? && m.world.Some?
    ensures i.ChangeConfiguration? ==> PlanFor(m, i).Append? || PlanFor(m, i).Stop? || PlanFor(m, i).Done?
    ensures PlanFor(m, i).Append? ==>
              && PlanFor(m, i).revision.id == i.id && Belongs(PlanFor(m, i).revision, KeyOf(m.world.value))
              && Propose(i.catalog, i.base, i.changes) == Some(PlanFor(m, i).revision.entries)
              && PlanFor(m, i).revision.number == i.base.number + 1
              && PlanFor(m, i).based.pendingConfiguration == Some(i.id)
              && PlanFor(m, i).based.configuration == m.world.value.configuration
  {
    hide EmptySince, IdleElapsed, Recent, Propose;
  }

  lemma RevisionsAfter(r: Repo, p: Plan)
    ensures var s := Apply(r, p);
            if p.Append? then s.revisions == r.revisions || s.revisions == r.revisions[p.revision.id := p.revision]
            else if p.Remove? then forall id :: id in s.revisions ==> id in r.revisions && s.revisions[id] == r.revisions[id]
            else s.revisions == r.revisions
    ensures p.Append? && Apply(r, p).revisions == r.revisions && p.revision.id !in r.revisions ==> Apply(r, p) == r
    ensures p.Remove? ==> forall id :: id in r.revisions && !Belongs(r.revisions[id], p.key) ==> id in Apply(r, p).revisions
    ensures p.Remove? ==> p.key !in Apply(r, p).worlds
  {
  }

  /** Nothing about World `k`'s configuration differs, but for the current revision catching up. */
  ghost predicate SameConfiguration(r: Repo, s: Repo, k: WorldKey) {
    k in s.worlds ==>
      && k in r.worlds
      && Effective(s.worlds[k]) == Effective(r.worlds[k])
      && s.worlds[k].configuration in {r.worlds[k].configuration, Effective(r.worlds[k])}
      && (forall id :: id in r.revisions && Belongs(r.revisions[id], k) ==> id in s.revisions && s.revisions[id] == r.revisions[id])
      && (forall id :: id in s.revisions && Belongs(s.revisions[id], k) ==> id in r.revisions && s.revisions[id] == r.revisions[id])
  }

  lemma StillFaithful(s: History, t: History, k: WorldKey, c: Catalog, defaults: map<string, Setting>)
    requires Faithful(s, k, c, defaults) && SameConfiguration(s.system.repo, t.system.repo, k)
    requires t.chain == s.chain && t.accepted == s.accepted
    ensures Faithful(t, k, c, defaults)
  {
    if k in t.system.repo.worlds {
      FoldedStill(s.system.repo, t.system.repo, c, s.chain, defaults, s.accepted);
    }
  }

  lemma OthersKeepConfiguration(r: Repo, m: Memory, i: Intent, k: WorldKey)
    requires Filed(r) && IndexExact(r) && m.world.Some? && SeenWorld(r, m.world.value)
    requires PlanFor(m, i).Append? ==> KeyOf(m.world.value) != k && i.id !in r.revisions
    ensures SameConfiguration(r, Apply(r, PlanFor(m, i)), k)
  {
    var p := PlanFor(m, i);
    hide PlanFor, Propose, Effective, Apply, Filed, IndexExact;
    OnlyUpdatesAppend(m, i);
    RevisionsAfter(r, p);
    PlansFitReads(m, i);
    OneWorldWritten(r, m.world.value, p);
    RemovedElsewhere(m, i);
    if Written(p).Some? && !i.ChangeConfiguration? {
      ConfigurationKept(m, i);
    }
  }

  lemma HistoryAfterOthers(s: History, k: WorldKey, c: Catalog, defaults: map<string, Setting>, e: Event)
    requires Invariant(s.system) && Faithful(s, k, c, defaults) && Previews(s, k, c, e)
    requires e.Act? && !(Updates(s, k, e) && PlanFor(MemoryOf(s.system, e.client), e.intent).Append?)
    ensures Faithful(NextHistory(s, k, e), k, c, defaults)
  {
    var r, m, i := s.system.repo, MemoryOf(s.system, e.client), e.intent;
    RecallClient(s.system, e.client);
    assert Filed(r) && IndexExact(r);
    hide Invariant, PlanFor, MemoryCoherent, Faithful, Filed, IndexExact;
    OnlyUpdatesAppend(m, i);
    if m.world.Some? {
      OthersKeepConfiguration(r, m, i, k);
    } else {
      assert PlanFor(m, i) == Done by { BlindPlan(m, i); }
    }
    RevisionsAfter(r, PlanFor(m, i));
    hide Apply;
    StillFaithful(s, NextHistory(s, k, e), k, c, defaults);
  }

  /** An update from the effective revision appends the next number and overrides by its normalized change. */
  lemma HistoryAfterUpdate(s: History, k: WorldKey, c: Catalog, defaults: map<string, Setting>, e: Event)
    requires Invariant(s.system) && Faithful(s, k, c, defaults) && Previews(s, k, c, e) && Stable(c)
    requires Updates(s, k, e) && PlanFor(MemoryOf(s.system, e.client), e.intent).Append? && StillEffective(s, k, e)
    ensures Faithful(NextHistory(s, k, e), k, c, defaults)
  {
    var r, m, i := s.system.repo, MemoryOf(s.system, e.client), e.intent;
    var w, p := m.world.value, PlanFor(m, i);
    RecallClient(s.system, e.client);
    assert Filed(r) && IndexExact(r);
    hide Invariant, PlanFor, MemoryCoherent, Filed, IndexExact, Propose, Validate, Numbered, Folded, Effective, Apply;
    OnlyUpdatesAppend(m, i);
    PlansFitReads(m, i);
    OneWorldWritten(r, w, p);
    RevisionsAfter(r, p);
    if Apply(r, p).revisions == r.revisions {
      assert Apply(r, p) == r;
    } else {
      assert Effective(p.based) == i.id by { PendingIsEffective(p.based, i.id); }
      LastInChain(s, k, c, defaults);
      ProposalOverrides(c, i.base, i.changes);
      hide Updates, Previews, Faithful;
      Appended(s, NextHistory(s, k, e), k, c, defaults, p.revision, Validate(c, i.changes, true).value);
    }
  }

  lemma Appended(s: History, t: History, k: WorldKey, c: Catalog, defaults: map<string, Setting>, v: Revision,
                 change: map<string, Setting>)
    requires Faithful(s, k, c, defaults) && k in s.system.repo.worlds && k in t.system.repo.worlds
    requires var r := s.system.repo; v.id !in r.revisions && t.system.repo.revisions == r.revisions[v.id := v]
    requires Belongs(v, k) && v.number == |s.chain| + 1 && v.entries == Overridden(defaults, s.accepted) + change
    requires Normal(c, v.entries)
    requires t.chain == s.chain + [v.id] && t.accepted == s.accepted + [change]
    requires Effective(t.system.repo.worlds[k]) == v.id
    requires t.system.repo.worlds[k].configuration == s.system.repo.worlds[k].configuration
    ensures Faithful(t, k, c, defaults)
  {
    NumberedMore(s.system.repo, t.system.repo, k, s.chain, v);
    FoldedMore(s.system.repo, t.system.repo, c, s.chain, defaults, s.accepted, v, change);
    hide Numbered, Folded, Effective;
  }

  lemma PendingIsEffective(w: World, id: Id)
    requires w.pendingConfiguration == Some(id)
    ensures Effective(w) == id
  {
  }

  lemma LastInChain(s: History, k: WorldKey, c: Catalog, defaults: map<string, Setting>)
    requires Faithful(s, k, c, defaults) && k in s.system.repo.worlds
    ensures var r := s.system.repo;
            var last := Effective(r.worlds[k]);
            && last in r.revisions && r.revisions[last].number == |s.chain|
            && r.revisions[last].entries == Overridden(defaults, s.accepted) && Normal(c, r.revisions[last].entries)
  {
    assert s.accepted[..|s.chain| - 1] == s.accepted;
  }

  lemma NumberedMore(r: Repo, s: Repo, k: WorldKey, chain: seq<Id>, v: Revision)
    requires Numbered(r, k, chain) && v.id !in r.revisions && s.revisions == r.revisions[v.id := v]
    requires Belongs(v, k) && v.number == |chain| + 1
    ensures Numbered(s, k, chain + [v.id])
  {
    forall id | id in s.revisions && Belongs(s.revisions[id], k) ensures id in chain + [v.id] {
      if id != v.id {
        assert id in chain;
      }
    }
  }

  lemma FoldedMore(r: Repo, s: Repo, c: Catalog, chain: seq<Id>, defaults: map<string, Setting>,
                   accepted: seq<map<string, Setting>>, v: Revision, change: map<string, Setting>)
    requires Folded(r, c, chain, defaults, accepted) && v.id !in r.revisions && s.revisions == r.revisions[v.id := v]
    requires |chain| >= 1 && v.entries == Overridden(defaults, accepted) + change && Normal(c, v.entries)
    requires forall i :: 0 <= i < |chain| ==> chain[i] in r.revisions
    ensures Folded(s, c, chain + [v.id], defaults, accepted + [change])
  {
    var more := accepted + [change];
    assert more[..|more| - 1] == accepted;
    assert more[..|chain|] == more;
    forall i | 0 <= i < |chain| + 1
      ensures s.revisions[(chain + [v.id])[i]].entries == Overridden(defaults, more[..i])
      ensures Normal(c, s.revisions[(chain + [v.id])[i]].entries)
    {
      if i < |chain| {
        assert more[..i] == accepted[..i] && (chain + [v.id])[i] == chain[i] && chain[i] in r.revisions;
        assert s.revisions[chain[i]] == r.revisions[chain[i]];
      } else {
        assert (chain + [v.id])[i] == v.id;
      }
    }
  }

  lemma NextFaithful(s: History, k: WorldKey, c: Catalog, defaults: map<string, Setting>, e: Event)
    requires Invariant(s.system) && Faithful(s, k, c, defaults) && Previews(s, k, c, e) && Stable(c)
    requires StillEffective(s, k, e)
    ensures Faithful(NextHistory(s, k, e), k, c, defaults)
  {
    if e.Act? {
      if Updates(s, k, e) && PlanFor(MemoryOf(s.system, e.client), e.intent).Append? {
        HistoryAfterUpdate(s, k, c, defaults, e);
      } else {
        HistoryAfterOthers(s, k, c, defaults, e);
      }
    }
  }

  function ExecHistory(s: History, k: WorldKey, events: seq<Event>): History {
    if |events| == 0 then s else NextHistory(ExecHistory(s, k, events[..|events| - 1]), k, events[|events| - 1])
  }

  ghost predicate PreviewedRun(s: History, k: WorldKey, c: Catalog, events: seq<Event>) {
    forall i :: 0 <= i < |events| ==>
      FreshEvent(ExecHistory(s, k, events[..i]).system, events[i]) && Previews(ExecHistory(s, k, events[..i]), k, c, events[i])
  }

  ghost predicate EffectiveRun(s: History, k: WorldKey, events: seq<Event>) {
    forall i :: 0 <= i < |events| ==> StillEffective(ExecHistory(s, k, events[..i]), k, events[i])
  }

  lemma PreviewedFirst(s: History, k: WorldKey, c: Catalog, events: seq<Event>)
    requires |events| > 0 && PreviewedRun(s, k, c, events)
    ensures PreviewedRun(s, k, c, events[..|events| - 1])
  {
    hide FreshEvent, Previews, ExecHistory;
    var n := |events| - 1;
    assert forall i :: 0 <= i < n ==> events[..n][..i] == events[..i] && events[..n][i] == events[i];
  }

  lemma EffectiveLast(s: History, k: WorldKey, events: seq<Event>)
    requires |events| > 0
    ensures var n := |events| - 1;
            EffectiveRun(s, k, events) <==>
              EffectiveRun(s, k, events[..n]) && StillEffective(ExecHistory(s, k, events[..n]), k, events[n])
  {
    hide StillEffective, ExecHistory;
    var n := |events| - 1;
    assert forall i :: 0 <= i < n ==> events[..n][..i] == events[..i] && events[..n][i] == events[i];
  }

  lemma HistoryFollows(s: History, k: WorldKey, e: Event)
    ensures NextHistory(s, k, e).system == Next(s.system, e)
  {
    hide Next, Validate;
  }

  lemma {:induction false} RunHistoryKeeps(s: History, k: WorldKey, c: Catalog, events: seq<Event>)
    requires Invariant(s.system) && PreviewedRun(s, k, c, events)
    ensures Invariant(ExecHistory(s, k, events).system)
  {
    hide Invariant, FreshEvent, Previews, NextHistory;
    if |events| > 0 {
      var n := |events| - 1;
      PreviewedFirst(s, k, c, events);
      RunHistoryKeeps(s, k, c, events[..n]);
      var t := ExecHistory(s, k, events[..n]);
      NextKeeps(t.system, events[n]);
      HistoryFollows(t, k, events[n]);
    }
  }

  /** Over any run in which each committed update of the World was previewed from the revision that is still
      effective, among wakes, sleeps and every other action: its revisions are numbered 1 to n, the effective
      one is the nth, its entries are the defaults overridden by all accepted changes in order, and the
      current one is among them. */
  lemma {:induction false} RunFaithful(s: History, k: WorldKey, c: Catalog, defaults: map<string, Setting>,
                                       events: seq<Event>)
    requires Invariant(s.system) && Faithful(s, k, c, defaults) && Stable(c)
    requires PreviewedRun(s, k, c, events) && EffectiveRun(s, k, events)
    ensures Faithful(ExecHistory(s, k, events), k, c, defaults)
  {
    hide Invariant, Faithful, FreshEvent, Previews, NextHistory, StillEffective;
    if |events| > 0 {
      var n := |events| - 1;
      PreviewedFirst(s, k, c, events);
      EffectiveLast(s, k, events);
      RunFaithful(s, k, c, defaults, events[..n]);
      RunHistoryKeeps(s, k, c, events[..n]);
      NextFaithful(ExecHistory(s, k, events[..n]), k, c, defaults, events[n]);
    }
  }

  // ----- the two reads of update_configuration

  /** Some revision of the World carries a number other than its place. */
  ghost predicate Misnumbered(r: Repo, k: WorldKey, chain: seq<Id>) {
    exists i :: 0 <= i < |chain| && chain[i] in r.revisions && Belongs(r.revisions[chain[i]], k)
                && r.revisions[chain[i]].number != i + 1
  }

  /** What a committed update writes. */
  lemma CommitAppends(s: History, k: WorldKey, c: Catalog, e: Event)
    requires Invariant(s.system) && CommitsUpdate(s, k, e) && Previews(s, k, c, e)
    ensures var r, t := s.system.repo, NextHistory(s, k, e);
            && k in r.worlds && k in t.system.repo.worlds && e.intent.id !in r.revisions
            && t.chain == s.chain + [e.intent.id]
            && exists v: Revision :: v.id == e.intent.id && Belongs(v, k) && v.number == e.intent.base.number + 1
                                     && t.system.repo.revisions == r.revisions[v.id := v]
  {
    var r, m, i := s.system.repo, MemoryOf(s.system, e.client), e.intent;
    RecallClient(s.system, e.client);
    assert Filed(r) && IndexExact(r);
    hide Invariant, PlanFor, MemoryCoherent, Filed, IndexExact, Propose, Validate, Effective, Apply;
    OnlyUpdatesAppend(m, i);
    RevisionsAfter(r, PlanFor(m, i));
    PlansFitReads(m, i);
    OneWorldWritten(r, m.world.value, PlanFor(m, i));
  }

  /** Exactly when a committed update keeps the numbering: the effective revision its preview read is still
      the effective revision of the World it writes. */
  lemma NumberingKeptExactly(s: History, k: WorldKey, c: Catalog, defaults: map<string, Setting>, e: Event)
    requires Invariant(s.system) && Faithful(s, k, c, defaults) && Previews(s, k, c, e) && CommitsUpdate(s, k, e)
    ensures var t := NextHistory(s, k, e);
            && k in s.system.repo.worlds
            && (Numbered(t.system.repo, k, t.chain) <==> StillEffective(s, k, e))
            && (Misnumbered(t.system.repo, k, t.chain) <==> !StillEffective(s, k, e))
  {
    var r, t := s.system.repo, NextHistory(s, k, e);
    CommitAppends(s, k, c, e);
    LastInChain(s, k, c, defaults);
    var v: Revision :| v.id == e.intent.id && Belongs(v, k) && v.number == e.intent.base.number + 1
                       && t.system.repo.revisions == r.revisions[v.id := v];
    var seen := Effective(e.intent.previewed);
    hide Invariant, Effective, NextHistory, Folded;
    assert seen in s.chain && r.revisions[seen] == e.intent.base;
    var j :| 0 <= j < |s.chain| && s.chain[j] == seen;
    assert e.intent.base.number == j + 1;
    if StillEffective(s, k, e) {
      NumberedMore(r, t.system.repo, k, s.chain, v);
    } else {
      assert t.chain[|s.chain|] == v.id && t.system.repo.revisions[v.id].number != |s.chain| + 1;
    }
  }

  /** A wrong number stays while the World does. */
  lemma MisnumberedStays(s: History, k: WorldKey, c: Catalog, e: Event)
    requires Invariant(s.system) && Previews(s, k, c, e) && Misnumbered(s.system.repo, k, s.chain)
    requires k in NextHistory(s, k, e).system.repo.worlds
    ensures var t := NextHistory(s, k, e); Misnumbered(t.system.repo, k, t.chain)
  {
    var r, t := s.system.repo, NextHistory(s, k, e);
    var i :| 0 <= i < |s.chain| && s.chain[i] in r.revisions
             && Belongs(r.revisions[s.chain[i]], k) && r.revisions[s.chain[i]].number != i + 1;
    assert t.chain[i] == s.chain[i];
    hide Invariant, Validate;
    if e.Act? {
      var m := MemoryOf(s.system, e.client);
      hide PlanFor;
      OnlyUpdatesAppend(m, e.intent);
      RevisionsAfter(r, PlanFor(m, e.intent));
      hide Apply;
      assert t.system.repo.revisions[s.chain[i]] == r.revisions[s.chain[i]];
    }
  }

  lemma StaysInWorlds(s: History, k: WorldKey, e: Event)
    requires k in NextHistory(s, k, e).system.repo.worlds
    ensures k in s.system.repo.worlds
  {
    HistoryFollows(s, k, e);
    hide NextHistory, Next;
    Endings.WorldStaysExactly(s.system, e, k);
  }

  /** Whole runs, exactly. While the World exists, its history is numbered and folded as promised if and only
      if every committed update previewed the revision that was still effective at its write; and from the
      first that did not, some number is wrong for good. */
  lemma {:induction false} RunFaithfulExactly(s: History, k: WorldKey, c: Catalog, defaults: map<string, Setting>,
                                              events: seq<Event>)
    requires Invariant(s.system) && Faithful(s, k, c, defaults) && Stable(c) && PreviewedRun(s, k, c, events)
    requires k in ExecHistory(s, k, events).system.repo.worlds
    ensures var t := ExecHistory(s, k, events);
            && (Faithful(t, k, c, defaults) <==> EffectiveRun(s, k, events))
            && (Misnumbered(t.system.repo, k, t.chain) <==> !EffectiveRun(s, k, events))
  {
    hide Invariant, Faithful, FreshEvent, Previews, NextHistory, StillEffective, Misnumbered, CommitsUpdate;
    var t := ExecHistory(s, k, events);
    if |events| == 0 {
      assert EffectiveRun(s, k, events);
      FaithfulIsNumbered(t, k, c, defaults);
    } else {
      var n := |events| - 1;
      var u := ExecHistory(s, k, events[..n]);
      PreviewedFirst(s, k, c, events);
      EffectiveLast(s, k, events);
      StaysInWorlds(u, k, events[n]);
      RunFaithfulExactly(s, k, c, defaults, events[..n]);
      RunHistoryKeeps(s, k, c, events[..n]);
      assert Previews(u, k, c, events[n]);
      if !EffectiveRun(s, k, events[..n]) {
        MisnumberedStays(u, k, c, events[n]);
      } else if StillEffective(u, k, events[n]) {
        NextFaithful(u, k, c, defaults, events[n]);
      } else {
        assert CommitsUpdate(u, k, events[n]) by { NotEffectiveCommits(u, k, events[n]); }
        NumberingKeptExactly(u, k, c, defaults, events[n]);
      }
      FaithfulIsNumbered(t, k, c, defaults);
    }
  }

  lemma NotEffectiveCommits(s: History, k: WorldKey, e: Event)
    requires !StillEffective(s, k, e)
    ensures CommitsUpdate(s, k, e)
  {
  }

  lemma FaithfulIsNumbered(s: History, k: WorldKey, c: Catalog, defaults: map<string, Setting>)
    requires k in s.system.repo.worlds
    ensures Faithful(s, k, c, defaults) ==> !Misnumbered(s.system.repo, k, s.chain)
  {
  }

  /** Two updates that previewed the same World and then wrote one after the other both commit: they carry
      the same number, and every field the second did not name is back to its value before the first. */
  lemma StalePreviewRepeatsNumber(r: Repo, w: World, base: Revision, first: map<string, Setting>, second: map<string,
                                  Setting>,
                                  c: Catalog, id1: Id, id2: Id, key1: string, key2: string, f: string)
    requires KeyOf(w) in r.worlds && r.worlds[KeyOf(w)] == w && Stable(c) && Normal(c, base.entries)
    requires Propose(c, base, first).Some? && Propose(c, base, second).Some?
    requires id1 != id2 && id1 !in r.revisions && id2 !in r.revisions && key1 != key2
    requires CommandKey(w.account, key1) !in r.revisionCommands && CommandKey(w.account, key2) !in r.revisionCommands
    requires f in c.fields && f !in second
    ensures var r1 := Apply(r, PlanConfigure(w, w, base, first, c, true, id1, key1));
            && KeyOf(w) in r1.worlds
            && var w1 := r1.worlds[KeyOf(w)];
               var r2 := Apply(r1, PlanConfigure(w, w1, base, second, c, true, id2, key2));
               && Effective(w1) == id1 && Effective(r2.worlds[KeyOf(w)]) == id2
               && id1 in r2.revisions && id2 in r2.revisions
               && r2.revisions[id1].number == r2.revisions[id2].number == base.number + 1
               && f in r2.revisions[id2].entries && r2.revisions[id2].entries[f] == base.entries[f]
  {
    ProposalOverrides(c, base, first);
    ProposalOverrides(c, base, second);
    hide Propose;
  }

  lemma BlindPlan(m: Memory, i: Intent)
    requires m.world.None?
    ensures PlanFor(m, i) == Done
  {
  }

  lemma RemovedElsewhere(m: Memory, i: Intent)
    requires m.world.Some?
    ensures PlanFor(m, i).Remove? ==> PlanFor(m, i).key == KeyOf(m.world.value)
  {
    hide EmptySince, IdleElapsed, Recent, Propose;
  }

  lemma FoldedStill(r: Repo, s: Repo, c: Catalog, chain: seq<Id>, defaults: map<string, Setting>,
                    accepted: seq<map<string, Setting>>)
    requires Folded(r, c, chain, defaults, accepted)
    requires forall i :: 0 <= i < |chain| && chain[i] in s.revisions ==>
               chain[i] in r.revisions && s.revisions[chain[i]] == r.revisions[chain[i]]
    ensures Folded(s, c, chain, defaults, accepted)
  {
  }

  // ----- what the game was configured with

  /** The revisions an action's effects configure the World's game with. */
  function AppliedBy(s: System, e: Event, k: WorldKey): set<Id> {
    var m := MemoryOf(s, e.client);
    if !e.Act? || !e.intent.Advance? || m.operation.None? || m.world.None? || KeyOf(m.world.value) != k then {} else
    var effects := AdvanceEffects(m.operation.value, m.world.value, e.intent.outside);
    set i | 0 <= i < |effects| && effects[i].Configure? :: effects[i].revision
  }

  ghost predicate AppliedIn(s: System, events: seq<Event>, k: WorldKey, id: Id) {
    exists i :: 0 <= i < |events| && id in AppliedBy(Exec(s, events[..i]), events[i], k)
  }

  lemma StepApplied(s: System, e: Event, k: WorldKey)
    requires Invariant(s) && k in Next(s, e).repo.worlds
    ensures k in s.repo.worlds
    ensures var now := Next(s, e).repo.worlds[k].configuration;
            now == s.repo.worlds[k].configuration || now in AppliedBy(s, e, k)
  {
    RecallClient(s, e.client);
    assert Filed(s.repo) && IndexExact(s.repo);
    hide Invariant, PlanFor, Apply, AdvanceEffects, Filed, IndexExact;
    if e.Act? {
      var m := MemoryOf(s, e.client);
      var p := PlanFor(m, e.intent);
      if m.world.None? {
        BlindPlan(m, e.intent);
        assert Apply(s.repo, p) == s.repo by { DoneApplies(s.repo); }
      } else {
        PlansFitReads(m, e.intent);
        OneWorldWritten(s.repo, m.world.value, p);
        if Next(s, e).repo.worlds[k].configuration != s.repo.worlds[k].configuration {
          ConfigurationWasApplied(m, e.intent);
          var effects := AdvanceEffects(m.operation.value, m.world.value, e.intent.outside);
          var i :| 0 <= i < |effects| && effects[i] == Configure(Next(s, e).repo.worlds[k].configuration);
        }
      }
    }
  }

  lemma DoneApplies(r: Repo)
    ensures Apply(r, Done) == r
  {
  }

  lemma AppliedLater(s: System, events: seq<Event>, k: WorldKey, id: Id)
    requires |events| > 0 && AppliedIn(s, events[..|events| - 1], k, id)
    ensures AppliedIn(s, events, k, id)
  {
    hide Exec, AppliedBy;
    var n := |events| - 1;
    var i :| 0 <= i < n && id in AppliedBy(Exec(s, events[..n][..i]), events[..n][i], k);
    assert events[..n][..i] == events[..i] && events[..n][i] == events[i];
  }

  /** Over any run the current revision of a World is the one it started with, or one that some advance called
      apply_configuration with. */
  lemma {:induction false} RunApplied(s: System, events: seq<Event>, k: WorldKey)
    requires Invariant(s) && FreshRun(s, events) && k in Exec(s, events).repo.worlds
    ensures k in s.repo.worlds
    ensures var now := Exec(s, events).repo.worlds[k].configuration;
            now == s.repo.worlds[k].configuration || AppliedIn(s, events, k, now)
  {
    hide Invariant, FreshEvent, Next, AppliedBy;
    if |events| > 0 {
      var n := |events| - 1;
      forall i | 0 <= i < n ensures FreshEvent(Exec(s, events[..n][..i]), events[..n][i]) {
        assert events[..n][..i] == events[..i];
      }
      RunKeeps(s, events[..n]);
      var t := Exec(s, events[..n]);
      StepApplied(t, events[n], k);
      RunApplied(s, events[..n], k);
      if AppliedIn(s, events[..n], k, t.repo.worlds[k].configuration) {
        AppliedLater(s, events, k, t.repo.worlds[k].configuration);
      }
    }
  }
}
