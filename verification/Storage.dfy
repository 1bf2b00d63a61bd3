/** The storage policy: a grace period when an account outgrows its allowance, then pruning, then a block. */
module Storage {
  import opened Base
  import opened WorldModel
  import opened Archive

  const DAY := 24 * 60 * 60 * 1_000_000

  datatype Grace = Grace(account: Id, startedAt: Time, version: nat)

  datatype Status = Status(account: Id, used: int, allowance: nat, excess: int, graceStartedAt: Option<Time>,
                           graceEndsAt: Option<Time>, manualBackupsBlocked: bool, newWorldsBlocked: bool, wakeBlocked: bool,
                           prunedIds: seq<Id>)

  class StoragePolicyRepository {
    var states: map<Id, Grace>
    var statuses: map<Id, Status>

    constructor ()
      ensures states == map[] && statuses == map[]
    {
      states, statuses := map[], map[];
    }

    function VersionOf(account: Id): nat
      reads this
    {
      if account in states then states[account].version else 0
    }

    method Save(state: Grace, expected: nat) returns (saved: bool)
      modifies this`states
      ensures saved <==> old(VersionOf(state.account)) == expected
      ensures states == if saved then old(states)[state.account := state.(version := expected + 1)] else old(states)
    {
      var current := if state.account in states then states[state.account].version else 0;
      saved := current == expected;
      if saved {
        states := states[state.account := Grace(state.account, state.startedAt, expected + 1)];
      }
    }

    method Clear(account: Id, expected: nat) returns (cleared: bool)
      modifies this`states
      ensures cleared <==> old(VersionOf(account)) == expected
      ensures states == if cleared then old(states) - {account} else old(states)
    {
      var current := if account in states then states[account].version else 0;
      cleared := current == expected;
      if cleared {
        states := states - {account};
      }
    }

    method SaveStatus(status: Status)
      modifies this`statuses
      ensures statuses == old(statuses)[status.account := status]
    {
      statuses := statuses[status.account := status];
    }
  }

  function IdsInOrder(bs: seq<Backup>): seq<Id> { seq(|bs|, i requires 0 <= i < |bs| => bs[i].id) }

  /** From `before` to `after` exactly the backups `ids` went, the shortest oldest-first prefix of what may
      be pruned that meets the target, and their sizes add up to `freed`. */
  ghost predicate PrunedTo(before: seq<Backup>, after: seq<Backup>, account: Id, worlds: seq<World>, target: int,
                           ids: seq<Id>, freed: int) {
    exists pruned ::
      && ExactPrefix(Candidates(before, account, worlds), pruned, target)
      && after == Filter(before, Outside(Ids(pruned))) && ids == IdsInOrder(pruned) && freed == Sum(pruned, SizeOf())
  }

  ghost predicate NothingPrunable(backups: seq<Backup>, account: Id, worlds: seq<World>) {
    forall b :: b in backups ==> !Prunable(account, ActiveIds(worlds))(b)
  }

  /** The backups that went, by identifier: old automatic ones of the account's Worlds that are not waiting to
      be deleted, none of them younger than such a one that stays. */
  ghost predicate OnlyAutomaticWent(before: seq<Backup>, after: seq<Backup>, account: Id, worlds: seq<World>, ids: seq<Id>) {
    && (forall b :: b in after ==> b in before)
    && (forall b :: b in before ==> (b.id in ids <==> b !in after))
    && (forall b :: b in before && b !in after ==> b.kind == Automatic && BackedUpHere(b, account, worlds))
    && (forall b, p | b in after && b.kind == Automatic && BackedUpHere(b, account, worlds) && p in before && p !in after ::
          p.at <= b.at)
  }

  lemma WentById(before: seq<Backup>, after: seq<Backup>, pruned: seq<Backup>, account: Id, worlds: seq<World>, target: int)
    requires Distinct(before, BackupId()) && PrunedOnly(before, after, pruned, account, worlds, target)
    ensures OnlyAutomaticWent(before, after, account, worlds, IdsInOrder(pruned))
  {
    hide BackedUpHere;
    var ids := IdsInOrder(pruned);
    forall b | b in before ensures b.id in ids <==> b in pruned {
      ByIdOrItself(before, pruned, b);
      assert b.id in Ids(pruned) <==> b.id in ids by {
        if b.id in ids {
          var i :| 0 <= i < |ids| && ids[i] == b.id;
          assert pruned[i].id == b.id;
        }
        if b.id in Ids(pruned) {
          var i :| 0 <= i < |pruned| && pruned[i].id == b.id;
          assert ids[i] == b.id;
        }
      }
    }
  }

  lemma NothingWent(backups: seq<Backup>, account: Id, worlds: seq<World>)
    ensures OnlyAutomaticWent(backups, backups, account, worlds, [])
  {
  }

  class StoragePolicyService {
    const archive: WorldArchiveStore
    const repository: StoragePolicyRepository
    const allowance: nat
    const graceDays: int

    constructor (archive: WorldArchiveStore, repository: StoragePolicyRepository, allowance: nat, graceDays: int)
      requires graceDays > 0
      ensures this.archive == archive && this.repository == repository
      ensures this.allowance == allowance && this.graceDays == graceDays
    {
      this.archive, this.repository, this.allowance, this.graceDays := archive, repository, allowance, graceDays;
    }

    function StatusOf(account: Id, used: int, grace: Option<Grace>, pruned: seq<Id>, wakeBlocked: bool): Status {
      Status(account, used, allowance, Larger(0, used - allowance),
             if grace.Some? then Some(grace.value.startedAt) else None,
             if grace.Some? then Some(grace.value.startedAt + graceDays * DAY) else None,
             grace.Some?, grace.Some?, wakeBlocked, pruned)
    }

    /** The grace period an evaluation works with: the running one, or one that starts now. */
    function GraceFrom(observedAt: Time, account: Id): Time
      reads repository
    {
      if account in repository.states then repository.states[account].startedAt else observedAt
    }

    /** evaluate. Within the allowance, or funded: no grace and no block. Otherwise a grace period runs; when
        it is over the oldest automatic backups go, and either usage fits again and grace ends, or waking is
        blocked and nothing is left to prune. `worlds` are the account's Worlds. */
    method Evaluate(account: Id, worlds: seq<World>, canFund: bool, observedAt: Time) returns (status: Status)
      requires archive.Valid()
      modifies archive`backups, repository
      ensures archive.Valid()
      ensures repository.statuses == old(repository.statuses)[account := status]
      ensures repository.states - {account} == old(repository.states) - {account}
      ensures status.account == account && status.used == Usage(archive.backups, archive.sizes, account, worlds)
      ensures status.excess == Larger(0, status.used - allowance)
      ensures status.allowance == allowance
      ensures status.manualBackupsBlocked == status.newWorldsBlocked == (account in repository.states)
      ensures status.graceStartedAt == if account in repository.states then Some(repository.states[account].startedAt) else None
      ensures status.graceEndsAt ==
              if account in repository.states then Some(repository.states[account].startedAt + graceDays * 86_400_000_000) else None
      ensures account in repository.states ==>
                repository.states[account].startedAt ==
                if account in old(repository.states) then old(repository.states)[account].startedAt else observedAt
      ensures OnlyAutomaticWent(old(archive.backups), archive.backups, account, worlds, status.prunedIds)
      ensures status.wakeBlocked ==>
                forall b :: b in archive.backups && BackedUpHere(b, account, worlds) ==> b.kind != Automatic
      ensures status.wakeBlocked ==> account in repository.states
      ensures status.wakeBlocked <==>
              !(status.used <= allowance || canFund || observedAt < old(GraceFrom(observedAt, account)) + graceDays * DAY)
      ensures var used := Usage(old(archive.backups), archive.sizes, account, worlds);
              var ends := old(GraceFrom(observedAt, account)) + graceDays * DAY;
              if used <= allowance || canFund then
                && account !in repository.states && !status.wakeBlocked
                && archive.backups == old(archive.backups) && status.prunedIds == []
              else if observedAt < ends then
                && account in repository.states && repository.states[account].startedAt == old(GraceFrom(observedAt, account))
                && !status.wakeBlocked && archive.backups == old(archive.backups) && status.prunedIds == []
              else
                && PrunedTo(old(archive.backups), archive.backups, account, worlds,
                            used - allowance, status.prunedIds, used - status.used)
                && (status.used <= allowance ==> account !in repository.states && !status.wakeBlocked)
                && (status.used > allowance ==>
                      account in repository.states && status.wakeBlocked && NothingPrunable(archive.backups, account, worlds))
    {
      hide Usage, Candidates, PrunedTo, NothingPrunable, BackedUpHere, OnlyAutomaticWent;
      NothingWent(archive.backups, account, worlds);
      var used := archive.StorageUsage(account, worlds);
      if used <= allowance || canFund {
        if account in repository.states {
          var cleared := repository.Clear(account, repository.states[account].version);
        }
        status := StatusOf(account, used, None, [], false);
        repository.SaveStatus(status);
        return;
      }
      if account !in repository.states {
        var saved := repository.Save(Grace(account, observedAt, 0), 0);
      }
      var grace := repository.states[account];
      var ends := grace.startedAt + graceDays * DAY;
      if observedAt < ends {
        status := StatusOf(account, used, Some(grace), [], false);
        repository.SaveStatus(status);
        return;
      }
      status := PastGrace(account, worlds, used, grace);
    }

    /** The grace period is over: prune, then lift the grace or block waking. */
    method PastGrace(account: Id, worlds: seq<World>, used: int, grace: Grace) returns (status: Status)
      requires archive.Valid() && used == Usage(archive.backups, archive.sizes, account, worlds)
      requires account in repository.states && repository.states[account] == grace
      modifies archive`backups, repository
      ensures archive.Valid()
      ensures repository.statuses == old(repository.statuses)[account := status]
      ensures status == StatusOf(account, Usage(archive.backups, archive.sizes, account, worlds),
                                 if status.used <= allowance then None else Some(grace), status.prunedIds, status.used > allowance)
      ensures repository.states == if status.used <= allowance then old(repository.states) - {account} else old(repository.states)
      ensures PrunedTo(old(archive.backups), archive.backups, account, worlds, used - allowance, status.prunedIds, used - status.used)
      ensures status.used > allowance ==> NothingPrunable(archive.backups, account, worlds)
      ensures OnlyAutomaticWent(old(archive.backups), archive.backups, account, worlds, status.prunedIds)
      ensures status.used > allowance ==>
                forall b :: b in archive.backups && BackedUpHere(b, account, worlds) ==> b.kind != Automatic
    {
      hide Usage, Candidates, Filter, BackedUpHere, OnlyAutomaticWent;
      ghost var before := archive.backups;
      var pruned := archive.PruneOldestAutomatic(account, worlds, used - allowance);
      PruningSpares(before, account, worlds, pruned, used - allowance);
      WentById(before, archive.backups, pruned, account, worlds, used - allowance);
      var left := archive.StorageUsage(account, worlds);
      if left <= allowance {
        var cleared := repository.Clear(account, grace.version);
        status := StatusOf(account, left, None, IdsInOrder(pruned), false);
      } else {
        status := StatusOf(account, left, Some(grace), IdsInOrder(pruned), true);
      }
      repository.SaveStatus(status);
    }

    method CanWake(account: Id) returns (open: bool)
      ensures open <==> (account in repository.statuses ==> !repository.statuses[account].wakeBlocked)
    {
      open := account !in repository.statuses || !repository.statuses[account].wakeBlocked;
    }

    method CanCreateWorld(account: Id) returns (open: bool)
      ensures open <==> (account in repository.statuses ==> !repository.statuses[account].newWorldsBlocked)
    {
      open := account !in repository.statuses || !repository.statuses[account].newWorldsBlocked;
    }

    method CanCreateManualBackup(account: Id) returns (open: bool)
      ensures open <==> (account in repository.statuses ==> !repository.statuses[account].manualBackupsBlocked)
    {
      open := account !in repository.statuses || !repository.statuses[account].manualBackupsBlocked;
    }
  }

  function Larger(a: int, b: int): int { if a < b then b else a }
}
