/** Backups of Worlds: creation under a key, listing by age, usage, and pruning of automatic backups. */
module Archive {
  import opened Base
  import opened WorldModel

  datatype BackupKind = Automatic | Manual | RestorePoint | Final

  datatype Backup = Backup(id: Id, account: Id, world: Id, state: Stored, kind: BackupKind, size: nat, at: Time)

  function BackupId(): Backup -> Id { (b: Backup) => b.id }
  function SizeOf(): Backup -> int { (b: Backup) => b.size }

  function OtherThan(id: Id): Backup -> bool { (b: Backup) => b.id != id }

  /** Deleting the backup with one identifier takes its own term out of any sum. */
  lemma DeleteSum(xs: seq<Backup>, b: Backup, f: Backup -> int)
    requires Distinct(xs, BackupId()) && b in xs
    ensures Sum(Filter(xs, OtherThan(b.id)), f) == Sum(xs, f) - f(b)
  {
    var i :| 0 <= i < |xs| && xs[i] == b;
    assert forall j :: 0 <= j < |xs| ==> (BackupId()(xs[j]) == BackupId()(xs[i]) <==> j == i);
    FilterOneOut(xs, i, OtherThan(b.id), f);
  }

  // ----- age

  /** Insertion after every backup that is not younger. */
  function Insert(s: seq<Backup>, b: Backup): seq<Backup> {
    if |s| == 0 || s[|s| - 1].at <= b.at then s + [b] else Insert(s[..|s| - 1], b) + [s[|s| - 1]]
  }

  /** `sorted(..., key=created_at)`: oldest first, and backups of one instant in the order they came. */
  function ByAge(xs: seq<Backup>): seq<Backup> {
    if |xs| == 0 then [] else Insert(ByAge(xs[..|xs| - 1]), xs[|xs| - 1])
  }

  predicate Ordered(s: seq<Backup>) { forall i, j :: 0 <= i < j < |s| ==> s[i].at <= s[j].at }

  function CreatedAt(t: Time): Backup -> bool { (b: Backup) => b.at == t }

  lemma AppendOrdered(s: seq<Backup>, b: Backup)
    requires Ordered(s) && (forall x :: x in s ==> x.at <= b.at)
    ensures Ordered(s + [b])
  {
  }

  lemma {:induction false} InsertOrders(s: seq<Backup>, b: Backup)
    requires Ordered(s)
    ensures Ordered(Insert(s, b)) && multiset(Insert(s, b)) == multiset(s) + multiset{b}
  {
    if |s| > 0 && s[|s| - 1].at > b.at {
      var n := |s| - 1;
      InsertOrders(s[..n], b);
      assert s == s[..n] + [s[n]];
      forall x | x in Insert(s[..n], b) ensures x.at <= s[n].at {
        assert x in multiset(Insert(s[..n], b));
        assert x in s[..n] || x == b;
      }
      AppendOrdered(Insert(s[..n], b), s[n]);
    } else {
      AppendOrdered(s, b);
    }
  }

  lemma {:induction false} InsertIsStable(s: seq<Backup>, b: Backup, t: Time)
    ensures Filter(Insert(s, b), CreatedAt(t)) == Filter(s, CreatedAt(t)) + if b.at == t then [b] else []
  {
    hide Filter;
    if |s| == 0 || s[|s| - 1].at <= b.at {
      FilterLast(s, b, CreatedAt(t));
    } else {
      var n := |s| - 1;
      assert s == s[..n] + [s[n]];
      FilterLast(s[..n], s[n], CreatedAt(t));
      InsertIsStable(s[..n], b, t);
      FilterLast(Insert(s[..n], b), s[n], CreatedAt(t));
      hide Insert;
    }
  }

  /** The listing is a permutation, ordered by age, and stable. */
  lemma {:induction false} ByAgeSorts(xs: seq<Backup>)
    ensures Ordered(ByAge(xs)) && multiset(ByAge(xs)) == multiset(xs)
    ensures forall t :: Filter(ByAge(xs), CreatedAt(t)) == Filter(xs, CreatedAt(t))
  {
    if |xs| > 0 {
      var n := |xs| - 1;
      ByAgeSorts(xs[..n]);
      InsertOrders(ByAge(xs[..n]), xs[n]);
      assert xs == xs[..n] + [xs[n]];
      forall t ensures Filter(ByAge(xs), CreatedAt(t)) == Filter(xs, CreatedAt(t)) {
        InsertIsStable(ByAge(xs[..n]), xs[n], t);
      }
    }
  }

  lemma DistinctByCount(xs: seq<Backup>)
    requires forall b :: b in xs ==> multiset(xs)[b] == 1
    requires forall b, c :: b in xs && c in xs && b.id == c.id ==> b == c
    ensures Distinct(xs, BackupId())
  {
    forall i, j | 0 <= i < j < |xs| ensures BackupId()(xs[i]) != BackupId()(xs[j]) {
      assert xs == xs[..j] + [xs[j]] + xs[j + 1..];
      assert multiset(xs)[xs[j]] == multiset(xs[..j])[xs[j]] + 1 + multiset(xs[j + 1..])[xs[j]];
      assert xs[j] !in xs[..j];
      assert xs[..j][i] == xs[i];
    }
  }

  lemma {:induction false} CountsOne(xs: seq<Backup>)
    requires Distinct(xs, BackupId())
    ensures forall b :: b in xs ==> multiset(xs)[b] == 1
  {
    if |xs| > 0 {
      var n := |xs| - 1;
      CountsOne(xs[..n]);
      assert xs == xs[..n] + [xs[n]];
      assert forall i :: 0 <= i < n ==> xs[..n][i] == xs[i] && BackupId()(xs[i]) != BackupId()(xs[n]);
    }
  }

  lemma ByAgeKeeps(xs: seq<Backup>)
    requires Distinct(xs, BackupId())
    ensures Distinct(ByAge(xs), BackupId()) && forall b :: b in ByAge(xs) <==> b in xs
  {
    ByAgeSorts(xs);
    CountsOne(xs);
    forall b ensures b in ByAge(xs) <==> b in xs {
      assert b in multiset(ByAge(xs)) <==> b in multiset(xs);
    }
    forall b, c | b in xs && c in xs && b.id == c.id ensures b == c {
      var i :| 0 <= i < |xs| && xs[i] == b;
      var j :| 0 <= j < |xs| && xs[j] == c;
      assert BackupId()(xs[i]) == BackupId()(xs[j]);
    }
    DistinctByCount(ByAge(xs));
  }

  // ----- usage

  function ActiveIds(worlds: seq<World>): set<Id> {
    set i | 0 <= i < |worlds| && !worlds[i].status.PendingDeletion? :: worlds[i].id
  }

  function Counted(account: Id, active: set<Id>): Backup -> int {
    (b: Backup) => if b.account == account && b.world in active then b.size else 0
  }

  function StateSize(sizes: map<Id, nat>, active: set<Id>): World -> int {
    (w: World) => if w.id in active && w.stored.Some? && w.stored.value.id in sizes then sizes[w.stored.value.id] else 0
  }

  function Usage(backups: seq<Backup>, sizes: map<Id, nat>, account: Id, worlds: seq<World>): int {
    Sum(worlds, StateSize(sizes, ActiveIds(worlds))) + Sum(backups, Counted(account, ActiveIds(worlds)))
  }

  // ----- pruning

  function Prunable(account: Id, active: set<Id>): Backup -> bool {
    (b: Backup) => b.account == account && b.world in active && b.kind.Automatic?
  }

  /** What may be pruned, oldest first. */
  function Candidates(backups: seq<Backup>, account: Id, worlds: seq<World>): seq<Backup> {
    ByAge(Filter(backups, Prunable(account, ActiveIds(worlds))))
  }

  function Outside(ids: set<Id>): Backup -> bool { (b: Backup) => b.id !in ids }

  function Ids(bs: seq<Backup>): set<Id> { set i | 0 <= i < |bs| :: bs[i].id }

  /** The pruned backups are the shortest oldest-first prefix that frees the target, or all of them. */
  ghost predicate ExactPrefix(candidates: seq<Backup>, pruned: seq<Backup>, target: int) {
    && pruned <= candidates
    && (Sum(pruned, SizeOf()) >= target || pruned == candidates)
    && (|pruned| > 0 ==> Sum(pruned[..|pruned| - 1], SizeOf()) < target)
  }

  /** There is only one such prefix. */
  lemma ExactPrefixUnique(candidates: seq<Backup>, a: seq<Backup>, b: seq<Backup>, target: int)
    requires ExactPrefix(candidates, a, target) && ExactPrefix(candidates, b, target) && |a| <= |b|
    ensures a == b
  {
    if |a| < |b| {
      assert a <= b[..|b| - 1];
      assert b[..|b| - 1] == a + b[|a|..|b| - 1];
      SumConcat(a, b[|a|..|b| - 1], SizeOf());
      SumNonNegative(b[|a|..|b| - 1], SizeOf());
    }
  }

  /** What pruning has done so far: the backups left, and the bytes freed. */
  ghost predicate PrunedSoFar(start: seq<Backup>, left: seq<Backup>, pruned: seq<Backup>, f: Backup -> int,
                              freed: int) {
    && left == Filter(start, Outside(Ids(pruned))) && Distinct(left, BackupId())
    && freed == Sum(pruned, SizeOf()) && Sum(left, f) == Sum(start, f) - freed
  }

  lemma NothingPruned(start: seq<Backup>, f: Backup -> int)
    requires Distinct(start, BackupId())
    ensures PrunedSoFar(start, start, [], f, 0)
  {
    FilterAll(start, Outside(Ids([])));
  }

  /** One more backup deleted. */
  lemma DeleteOne(start: seq<Backup>, left: seq<Backup>, pruned: seq<Backup>, b: Backup, f: Backup -> int, freed: int)
    requires Distinct(start, BackupId()) && PrunedSoFar(start, left, pruned, f, freed)
    requires b in start && b.id !in Ids(pruned) && f(b) == b.size
    ensures PrunedSoFar(start, Filter(left, OtherThan(b.id)), pruned + [b], f, freed + b.size)
  {
    FilterDistinct(start, Outside(Ids(pruned)), BackupId());
    FilterDistinct(left, OtherThan(b.id), BackupId());
    DeleteSum(left, b, f);
    IdsAppend(pruned, b);
    FilterTwice(start, Outside(Ids(pruned)), OtherThan(b.id), Outside(Ids(pruned + [b])));
    SumAppend(pruned, b, SizeOf());
  }

  lemma CandidateIsNext(start: seq<Backup>, account: Id, worlds: seq<World>, n: nat)
    requires Distinct(start, BackupId()) && n < |Candidates(start, account, worlds)|
    ensures var candidates := Candidates(start, account, worlds);
            && candidates[n] in start && candidates[n].id !in Ids(candidates[..n])
            && Counted(account, ActiveIds(worlds))(candidates[n]) == candidates[n].size
  {
    FilterDistinct(start, Prunable(account, ActiveIds(worlds)), BackupId());
    ByAgeKeeps(Filter(start, Prunable(account, ActiveIds(worlds))));
    var candidates := Candidates(start, account, worlds);
    assert candidates[n] in Filter(start, Prunable(account, ActiveIds(worlds)));
    NotYet(candidates, n);
  }

  function OfWorld(account: Id, world: Id): Backup -> bool { (b: Backup) => b.account == account && b.world == world }
  function Elsewhere(account: Id, world: Id): Backup -> bool { (b: Backup) => b.account != account || b.world != world }
  function HasId(id: Id): Backup -> bool { (b: Backup) => b.id == id }

  lemma RemovedUsage(before: seq<Backup>, account: Id, world: Id, counted: Id, worlds: seq<World>)
    ensures Sum(Filter(before, Elsewhere(account, world)), Counted(counted, ActiveIds(worlds)))
         == Sum(before, Counted(counted, ActiveIds(worlds)))
              - if counted == account && world in ActiveIds(worlds) then Sum(Filter(before, OfWorld(account, world)), SizeOf()) else 0
  {
    var f := Counted(counted, ActiveIds(worlds));
    FilterSplitsSum(before, OfWorld(account, world), Elsewhere(account, world), f);
    if counted == account && world in ActiveIds(worlds) {
      SumAgree(Filter(before, OfWorld(account, world)), f, SizeOf());
    } else {
      SumZero(Filter(before, OfWorld(account, world)), f);
    }
  }

  // ----- which backups count and which may go, told from the records

  /** The account's backup of a listed World that is not waiting to be deleted. */
  ghost predicate BackedUpHere(b: Backup, account: Id, worlds: seq<World>) {
    b.account == account && exists w :: w in worlds && w.id == b.world && w.status != PendingDeletion
  }

  /** Only old automatic backups of the account's listed Worlds went; whatever else was there still is, in
      its place, and if the target was missed nothing more of the kind is left. */
  ghost predicate PrunedOnly(before: seq<Backup>, after: seq<Backup>, pruned: seq<Backup>, account: Id, worlds: seq<World>,
                             target: int) {
    && (forall b :: b in pruned ==> b in before && b.kind == Automatic && BackedUpHere(b, account, worlds))
    && (forall b :: b in after <==> b in before && b !in pruned)
    && (forall b :: b in before && (b.kind == Manual || b.kind == RestorePoint || b.kind == Final) ==> b in after)
    && (forall b, p | b in after && b.kind == Automatic && BackedUpHere(b, account, worlds) && p in pruned :: p.at <= b.at)
    && (Sum(pruned, SizeOf()) < target ==> forall b :: b in after && BackedUpHere(b, account, worlds) ==> b.kind != Automatic)
  }

  lemma ActiveExactly(worlds: seq<World>, id: Id)
    ensures id in ActiveIds(worlds) <==> exists w :: w in worlds && w.id == id && w.status != PendingDeletion
  {
    if w :| w in worlds && w.id == id && w.status != PendingDeletion {
      var i :| 0 <= i < |worlds| && worlds[i] == w;
    }
  }

  lemma PrunableExactly(b: Backup, account: Id, worlds: seq<World>)
    ensures Prunable(account, ActiveIds(worlds))(b) <==> b.kind == Automatic && BackedUpHere(b, account, worlds)
  {
    ActiveExactly(worlds, b.world);
  }

  lemma PrunedAreMay(before: seq<Backup>, account: Id, worlds: seq<World>, pruned: seq<Backup>, target: int)
    requires Distinct(before, BackupId()) && ExactPrefix(Candidates(before, account, worlds), pruned, target)
    ensures forall b :: b in pruned ==> b in before && Prunable(account, ActiveIds(worlds))(b)
    ensures forall b :: b in Filter(before, Outside(Ids(pruned))) <==> b in before && b !in pruned
  {
    hide ByAge, Prunable, ActiveIds;
    var may := Prunable(account, ActiveIds(worlds));
    FilterDistinct(before, may, BackupId());
    ByAgeKeeps(Filter(before, may));
    hide Filter, Distinct, Ids;
    forall b | b in before ensures b.id in Ids(pruned) <==> b in pruned {
      ByIdOrItself(before, pruned, b);
    }
  }

  /** What pruning may take, by kind, account and World. */
  lemma PrunesOnlyAutomatic(before: seq<Backup>, account: Id, worlds: seq<World>, pruned: seq<Backup>, target: int)
    requires Distinct(before, BackupId()) && ExactPrefix(Candidates(before, account, worlds), pruned, target)
    ensures PrunedOnly(before, Filter(before, Outside(Ids(pruned))), pruned, account, worlds, target)
  {
    hide Filter, ByAge, Prunable, BackedUpHere, ActiveIds, Distinct, Ids, ExactPrefix, Candidates;
    PrunedAreMay(before, account, worlds, pruned, target);
    PruningSpares(before, account, worlds, pruned, target);
    forall b ensures Prunable(account, ActiveIds(worlds))(b) <==> b.kind == Automatic && BackedUpHere(b, account, worlds) {
      PrunableExactly(b, account, worlds);
    }
  }

  /** The sizes that count: a backup's when it is the account's and of a listed World that is not waiting to
      be deleted, and the stored state of such a World. */
  ghost predicate CountsSizes(worlds: seq<World>, sizes: map<Id, nat>, account: Id, f: Backup -> int, g: World -> int) {
    && (forall b :: f(b) == if BackedUpHere(b, account, worlds) then b.size else 0)
    && (forall w :: g(w) == if exists v :: v in worlds && v.id == w.id && v.status != PendingDeletion
                            then StoredSize(w, sizes) else 0)
  }

  function StoredSize(w: World, sizes: map<Id, nat>): int {
    match w.stored
    case None => 0
    case Some(state) => if state.id in sizes then sizes[state.id] else 0
  }

  /** Usage is the sum of exactly those sizes. */
  lemma UsageCounts(backups: seq<Backup>, sizes: map<Id, nat>, account: Id, worlds: seq<World>, f: Backup -> int,
                    g: World -> int)
    requires CountsSizes(worlds, sizes, account, f, g)
    ensures Usage(backups, sizes, account, worlds) == Sum(worlds, g) + Sum(backups, f)
  {
    forall id ensures id in ActiveIds(worlds) <==> exists w :: w in worlds && w.id == id && w.status != PendingDeletion {
      ActiveExactly(worlds, id);
    }
    hide ActiveIds;
    SumAgree(worlds, StateSize(sizes, ActiveIds(worlds)), g);
    SumAgree(backups, Counted(account, ActiveIds(worlds)), f);
  }

  class WorldArchiveStore {
    /** The dictionary of backups in insertion order. */
    var backups: seq<Backup>
    var commands: map<string, Id>
    const sizes: map<Id, nat>

    ghost predicate Valid()
      reads this
    {
      Distinct(backups, BackupId())
    }

    constructor (sizes: map<Id, nat>)
      ensures Valid() && backups == [] && commands == map[] && this.sizes == sizes
    {
      backups, commands, this.sizes := [], map[], sizes;
    }

    method Create(w: World, state: Stored, validated: bool, kind: BackupKind, key: string, id: Id, now: Time)
      returns (r: Result<Backup>)
      requires Valid() && forall b :: b in backups ==> b.id != id
      modifies this
      ensures Valid()
      ensures if key in old(commands) then
                && backups == old(backups) && commands == old(commands)
                && (r.Ok? ==> r.value in backups && r.value.id == commands[key])
                && (r.Err? ==> forall b :: b in backups ==> b.id != commands[key])
              else if !validated then backups == old(backups) && commands == old(commands) && r == Err(Invalid)
              else
                var b := Backup(id, w.account, w.id, state, kind, if state.id in sizes then sizes[state.id] else 0, now);
                r == Ok(b) && backups == old(backups) + [b] && commands == old(commands)[key := id]
    {
      if key in commands {
        var found := commands[key];
        var existing := Find(backups, (b: Backup) => b.id == found);
        return if existing.Some? then Ok(existing.value) else Err(Missing);
      }
      if !validated {
        return Err(Invalid);
      }
      var b := Backup(id, w.account, w.id, state, kind, if state.id in sizes then sizes[state.id] else 0, now);
      DistinctAppend(backups, b, BackupId());
      backups := backups + [b];
      commands := commands[key := id];
      r := Ok(b);
    }

    /** Exactly the World's backups, each once, oldest first. */
    method ListBackups(account: Id, world: Id) returns (listed: seq<Backup>)
      requires Valid()
      ensures Ordered(listed) && Distinct(listed, BackupId())
      ensures forall b :: b in listed <==> b in backups && OfWorld(account, world)(b)
    {
      FilterDistinct(backups, OfWorld(account, world), BackupId());
      ByAgeSorts(Filter(backups, OfWorld(account, world)));
      ByAgeKeeps(Filter(backups, OfWorld(account, world)));
      listed := ByAge(Filter(backups, OfWorld(account, world)));
    }

    /** No backup of the World remains and every other one stays, in its place; the account's usage falls by
        the sizes of the World's backups if it was counted, and no other account's usage moves. */
    method DeleteWorldData(account: Id, world: Id)
      requires Valid()
      modifies this`backups
      ensures Valid()
      ensures forall b :: b in backups <==> b in old(backups) && !OfWorld(account, world)(b)
      ensures backups == Filter(old(backups), Elsewhere(account, world))
      ensures forall worlds ::
                Usage(backups, sizes, account, worlds) == Usage(old(backups), sizes, account, worlds)
                  - if world in ActiveIds(worlds) then Sum(Filter(old(backups), OfWorld(account, world)), SizeOf()) else 0
      ensures forall other, worlds :: other != account ==>
                Usage(backups, sizes, other, worlds) == Usage(old(backups), sizes, other, worlds)
    {
      ghost var before := backups;
      FilterDistinct(backups, Elsewhere(account, world), BackupId());
      backups := Filter(backups, Elsewhere(account, world));
      forall worlds
        ensures Usage(backups, sizes, account, worlds) == Usage(before, sizes, account, worlds)
                  - if world in ActiveIds(worlds) then Sum(Filter(before, OfWorld(account, world)), SizeOf()) else 0
      {
        RemovedUsage(before, account, world, account, worlds);
      }
      forall other, worlds | other != account
        ensures Usage(backups, sizes, other, worlds) == Usage(before, sizes, other, worlds)
      {
        RemovedUsage(before, account, world, other, worlds);
      }
    }

    method StorageUsage(account: Id, worlds: seq<World>) returns (used: int)
      ensures used == Usage(backups, sizes, account, worlds) && used >= 0
    {
      used := Usage(backups, sizes, account, worlds);
      SumNonNegative(worlds, StateSize(sizes, ActiveIds(worlds)));
      SumNonNegative(backups, Counted(account, ActiveIds(worlds)));
    }

    /** Pruning frees exactly the sizes of the pruned prefix, stops as soon as the target is met, and
        touches no other backup. */
    method PruneOldestAutomatic(account: Id, worlds: seq<World>, target: int) returns (pruned: seq<Backup>)
      requires Valid()
      modifies this`backups
      ensures Valid()
      ensures ExactPrefix(Candidates(old(backups), account, worlds), pruned, target)
      ensures PrunedOnly(old(backups), backups, pruned, account, worlds, target)
      ensures backups == Filter(old(backups), Outside(Ids(pruned)))
      ensures Usage(backups, sizes, account, worlds) == Usage(old(backups), sizes, account, worlds) - Sum(pruned, SizeOf())
    {
      var active := ActiveIds(worlds);
      var candidates := Candidates(backups, account, worlds);
      hide Candidates, ByAge, ActiveIds, Counted, Filter, Outside, Ids, Distinct, StateSize;
      ghost var start, f := backups, Counted(account, active);
      NothingPruned(start, f);
      var freed, n := 0, 0;
      pruned := [];
      while n < |candidates| && freed < target
        invariant 0 <= n <= |candidates| && pruned == candidates[..n]
        invariant |pruned| > 0 ==> Sum(pruned[..|pruned| - 1], SizeOf()) < target
        invariant PrunedSoFar(start, backups, pruned, f, freed)
      {
        hide PrunedSoFar, Candidates, Ids, Filter;
        var b := candidates[n];
        CandidateIsNext(start, account, worlds, n);
        DeleteOne(start, backups, pruned, b, f, freed);
        assert freed == Sum(pruned, SizeOf()) by { FreedIsSum(start, backups, pruned, f, freed); }
        assert (pruned + [b])[..|pruned|] == pruned;
        backups := Filter(backups, OtherThan(b.id));
        pruned := pruned + [b];
        freed := freed + b.size;
        n := n + 1;
      }
      PrunesOnlyAutomatic(start, account, worlds, pruned, target);
    }
  }

  lemma FreedIsSum(start: seq<Backup>, left: seq<Backup>, pruned: seq<Backup>, f: Backup -> int, freed: int)
    requires PrunedSoFar(start, left, pruned, f, freed)
    ensures freed == Sum(pruned, SizeOf())
  {
  }

  lemma IdsAppend(bs: seq<Backup>, b: Backup)
    ensures Ids(bs + [b]) == Ids(bs) + {b.id}
  {
    forall x | x in Ids(bs) + {b.id} ensures x in Ids(bs + [b]) {
      if x == b.id {
        assert (bs + [b])[|bs|].id == x;
      } else {
        var i :| 0 <= i < |bs| && bs[i].id == x;
        assert (bs + [b])[i].id == x;
      }
    }
  }

  lemma NotYet(candidates: seq<Backup>, n: nat)
    requires n < |candidates| && Distinct(candidates, BackupId())
    ensures candidates[n].id !in Ids(candidates[..n])
  {
    assert forall i :: 0 <= i < n ==> candidates[..n][i] == candidates[i] && BackupId()(candidates[i]) != BackupId()(candidates[n]);
  }

  /** What pruning leaves: every backup that was not prunable, and only younger or equally old ones of the
      prunable; when nothing is left to prune, the target may still be missed. */
  lemma PruningSpares(before: seq<Backup>, account: Id, worlds: seq<World>, pruned: seq<Backup>, target: int)
    requires Distinct(before, BackupId()) && ExactPrefix(Candidates(before, account, worlds), pruned, target)
    ensures forall b :: b in before && !Prunable(account, ActiveIds(worlds))(b) ==> b in Filter(before, Outside(Ids(pruned)))
    ensures forall b, p | b in Filter(before, Outside(Ids(pruned)))
                           && Prunable(account, ActiveIds(worlds))(b) && p in pruned :: p.at <= b.at
    ensures Sum(pruned, SizeOf()) < target ==>
              forall b :: b in Filter(before, Outside(Ids(pruned))) ==> !Prunable(account, ActiveIds(worlds))(b)
  {
    var may := Prunable(account, ActiveIds(worlds));
    var candidates := Candidates(before, account, worlds);
    FilterDistinct(before, may, BackupId());
    ByAgeKeeps(Filter(before, may));
    ByAgeSorts(Filter(before, may));
    hide Filter, ByAge, Prunable;
    forall b | b in before ensures b.id in Ids(pruned) <==> b in pruned {
      ByIdOrItself(before, pruned, b);
    }
    forall b, p | b in candidates && b !in pruned && p in pruned ensures p.at <= b.at {
      PrefixIsOlder(candidates, pruned, b, p);
    }
  }

  lemma PrefixIsOlder(candidates: seq<Backup>, pruned: seq<Backup>, b: Backup, p: Backup)
    requires Ordered(candidates) && pruned <= candidates && b in candidates && b !in pruned && p in pruned
    ensures p.at <= b.at
  {
    var i :| 0 <= i < |pruned| && pruned[i] == p;
    var j :| 0 <= j < |candidates| && candidates[j] == b;
    assert forall n :: 0 <= n < |pruned| ==> candidates[n] == pruned[n] && pruned[n] != b;
  }

  lemma ByIdOrItself(before: seq<Backup>, pruned: seq<Backup>, b: Backup)
    requires Distinct(before, BackupId()) && b in before && forall p :: p in pruned ==> p in before
    ensures b.id in Ids(pruned) <==> b in pruned
  {
    if b.id in Ids(pruned) {
      var i :| 0 <= i < |pruned| && pruned[i].id == b.id;
      SameId(before, b, pruned[i]);
    }
    if b in pruned {
      var i :| 0 <= i < |pruned| && pruned[i] == b;
      assert pruned[i].id in Ids(pruned);
    }
  }

  lemma SameId(xs: seq<Backup>, a: Backup, b: Backup)
    requires Distinct(xs, BackupId()) && a in xs && b in xs && a.id == b.id
    ensures a == b
  {
    var i :| 0 <= i < |xs| && xs[i] == a;
    var j :| 0 <= j < |xs| && xs[j] == b;
    assert BackupId()(xs[i]) == BackupId()(xs[j]);
  }
}
