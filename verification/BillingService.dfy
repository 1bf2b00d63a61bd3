/** The billing repository and the retry loop every billing command runs in. */
module BillingService {
  import opened Base
  import opened Wallet
  import opened Optimistic

  const ATTEMPTS := 100

  datatype Answer = Answered(reply: Reply) | Failed(error: Error)

  function AnswerOf(o: Outcome): Answer {
    match o
    case Save(_, reply) => Answered(reply)
    case Return(reply) => Answered(reply)
    case Raise(error) => Failed(error)
  }

  /** A command executed atomically on the stored wallet. */
  function Commit(s: Versioned<Wallet>, m: Move, cal: Calendar): Versioned<Wallet> {
    match Attempt(s.value, m.command, m.env, cal)
    case Save(next, _) => Versioned(next, s.version + 1)
    case Return(_) => s
    case Raise(_) => s
  }

  function CommitAll(s: Versioned<Wallet>, moves: seq<Move>, cal: Calendar): (r: Versioned<Wallet>)
    ensures r.version >= s.version && (r.version == s.version ==> r == s)
  {
    if |moves| == 0 then s else Commit(CommitAll(s, moves[..|moves| - 1], cal), moves[|moves| - 1], cal)
  }

  /** Groups of rival commands, one group after the other. */
  function CommitGroups(s: Versioned<Wallet>, groups: seq<seq<Move>>, cal: Calendar): Versioned<Wallet> {
    if |groups| == 0 then s
    else CommitAll(CommitGroups(s, groups[..|groups| - 1], cal), groups[|groups| - 1], cal)
  }

  lemma NextGroup(s: Versioned<Wallet>, groups: seq<seq<Move>>, k: nat, cal: Calendar)
    requires k < |groups|
    ensures CommitGroups(s, groups[..k + 1], cal) == CommitAll(CommitGroups(s, groups[..k], cal), groups[k], cal)
  {
    assert groups[..k + 1][..k] == groups[..k];
  }

  class BillingRepository {
    var wallets: map<Id, Versioned<Wallet>>

    constructor ()
      ensures wallets == map[]
    {
      wallets := map[];
    }

    function Current(account: Id): Versioned<Wallet>
      reads this
    {
      if account in wallets then wallets[account] else Versioned(EmptyWallet, 0)
    }

    method Get(account: Id) returns (s: Versioned<Wallet>)
      ensures s == Current(account)
    {
      s := if account in wallets then wallets[account] else Versioned(EmptyWallet, 0);
    }

    method Save(account: Id, next: Wallet, expected: nat) returns (saved: bool)
      modifies this
      ensures saved <==> old(Current(account)).version == expected
      ensures wallets == if saved then old(wallets)[account := Versioned(next, expected + 1)] else old(wallets)
    {
      var current := Get(account);
      saved := current.version == expected;
      if saved {
        wallets := wallets[account := Versioned(next, expected + 1)];
      }
    }
  }

  class Billing {
    const repository: BillingRepository

    constructor (repository: BillingRepository)
      ensures this.repository == repository
    {
      this.repository := repository;
    }

    /** Other clients complete some commands on the account. */
    method Interfere(account: Id, moves: seq<Move>, cal: Calendar)
      modifies repository
      ensures repository.Current(account) == CommitAll(old(repository.Current(account)), moves, cal)
      ensures repository.wallets - {account} == old(repository.wallets) - {account}
    {
      hide Attempt;
      var i := 0;
      while i < |moves|
        invariant 0 <= i <= |moves|
        invariant repository.Current(account) == CommitAll(old(repository.Current(account)), moves[..i], cal)
        invariant repository.wallets - {account} == old(repository.wallets) - {account}
      {
        assert moves[..i + 1][..i] == moves[..i];
        var s := repository.Get(account);
        var o := Attempt(s.value, moves[i].command, moves[i].env, cal);
        if o.Save? {
          var saved := repository.Save(account, o.next, s.version);
        }
        i := i + 1;
      }
      assert moves[..i] == moves;
    }

    /** Read, compute, save if unchanged, else retry, at most a hundred times. Rivals may commit anything
        between each read and its save. The command takes effect once, atomically, on the wallet of its
        last read; it gives up only when a rival won every round. */
    method Execute(account: Id, c: Command, envs: seq<Env>, rivals: seq<seq<Move>>, cal: Calendar)
        returns (answer: Answer, rounds: nat)
      requires |envs| == ATTEMPTS && |rivals| == ATTEMPTS
      modifies repository
      ensures rounds <= ATTEMPTS
      ensures rounds < ATTEMPTS ==>
                var read := CommitGroups(old(repository.Current(account)), rivals[..rounds], cal);
                && repository.Current(account) == Commit(read, Move(c, envs[rounds]), cal)
                && answer == AnswerOf(Attempt(read.value, c, envs[rounds], cal))
      ensures rounds == ATTEMPTS ==>
                && answer == Failed(Conflict)
                && repository.Current(account) == CommitGroups(old(repository.Current(account)), rivals, cal)
      ensures forall k :: 0 <= k < rounds ==>
                CommitGroups(old(repository.Current(account)), rivals[..k + 1], cal)
                != CommitGroups(old(repository.Current(account)), rivals[..k], cal)
      ensures repository.wallets - {account} == old(repository.wallets) - {account}
    {
      hide Attempt;
      ghost var start := repository.Current(account);
      rounds := 0;
      while rounds < ATTEMPTS
        invariant 0 <= rounds <= ATTEMPTS
        invariant repository.Current(account) == CommitGroups(start, rivals[..rounds], cal)
        invariant forall k :: 0 <= k < rounds ==>
                    CommitGroups(start, rivals[..k + 1], cal) != CommitGroups(start, rivals[..k], cal)
        invariant repository.wallets - {account} == old(repository.wallets) - {account}
      {
        var s := repository.Get(account);
        var o := Attempt(s.value, c, envs[rounds], cal);
        if !o.Save? {
          return AnswerOf(o), rounds;
        }
        Interfere(account, rivals[rounds], cal);
        NextGroup(start, rivals, rounds, cal);
        var saved := repository.Save(account, o.next, s.version);
        if saved {
          return AnswerOf(o), rounds;
        }
        rounds := rounds + 1;
      }
      assert rivals[..rounds] == rivals;
      answer := Failed(Conflict);
    }

    /** The same call with nobody in between. */
    method Call(account: Id, c: Command, env: Env, cal: Calendar) returns (answer: Answer)
      modifies repository
      ensures repository.Current(account) == Commit(old(repository.Current(account)), Move(c, env), cal)
      ensures answer == AnswerOf(Attempt(old(repository.Current(account)).value, c, env, cal))
      ensures repository.wallets - {account} == old(repository.wallets) - {account}
    {
      hide Attempt;
      ghost var start := repository.Current(account);
      var rivals: seq<seq<Move>> := seq(ATTEMPTS, i => []);
      NextGroup(start, rivals, 0, cal);
      assert CommitGroups(start, rivals[..0 + 1], cal) == CommitGroups(start, rivals[..0], cal);
      var rounds;
      answer, rounds := Execute(account, c, seq(ATTEMPTS, i => env), rivals, cal);
    }
  }

  /** `_world_budget_spent`: for every usage of the World in the month, its charge less its credits. */
  method WorldBudgetSpent(w: Wallet, world: Id, observedAt: Time, cal: Calendar) returns (spent: int)
    ensures spent == Spent(w, world, cal(observedAt), cal)
  {
    var period := cal(observedAt);
    var i := 0;
    spent := 0;
    while i < |w.usages|
      invariant 0 <= i <= |w.usages|
      invariant spent == Sum(w.usages[..i], SpentOn(w.entries, world, period, cal))
    {
      var u := w.usages[i];
      assert w.usages[..i + 1] == w.usages[..i] + [u];
      SumAppend(w.usages[..i], u, SpentOn(w.entries, world, period, cal));
      if u.world == world && cal(u.releasedAt) == period {
        var credits, j := 0, 0;
        while j < |w.entries|
          invariant 0 <= j <= |w.entries|
          invariant credits == Sum(w.entries[..j], CreditOf(u.id))
        {
          assert w.entries[..j + 1] == w.entries[..j] + [w.entries[j]];
          SumAppend(w.entries[..j], w.entries[j], CreditOf(u.id));
          if CreditsUsage(w.entries[j], u.id) {
            credits := credits + w.entries[j].amount;
          }
          j := j + 1;
        }
        assert w.entries[..j] == w.entries;
        spent := spent + Max(0, u.amount - credits);
      }
      i := i + 1;
    }
    assert w.usages[..i] == w.usages;
  }
}
