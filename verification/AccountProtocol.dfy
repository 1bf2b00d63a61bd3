/** Many accounts in one repository, many clients that each work on the snapshot they last read: every account
    stays governed, and a Discord guild belongs to one account at most. */
module AccountProtocol {
  import opened Base
  import opened Optimistic
  import opened AccountModel
  import opened AccountLaws
  import opened AccountService

  /** The stored accounts, and the snapshot each client last read. */
  datatype Hub = Hub(store: Store, held: map<nat, Versioned<Snapshot>>)

  datatype Action =
    | Creates(account: Account, owner: Id, member: Id, assignment: Id)
    | Looks(client: nat, id: Id)
    | Acts(client: nat, command: Command, env: Env)

  /** A save replaces the account it read, unless somebody changed it or another account took its guild. */
  function SaveTo(m: Store, next: Snapshot, expected: nat): Store {
    var id := next.account.id;
    if id !in m || m[id].version != expected || LinkedElsewhere(m, id, next.account.guild) then m
    else m[id := Versioned(next, expected + 1)]
  }

  function Take(s: Hub, a: Action): Hub {
    match a
    case Creates(account, owner, member, assignment) =>
      if LinkedElsewhere(s.store, account.id, account.guild) then s
      else s.(store := s.store[account.id := Versioned(NewSnapshot(account, owner, member, assignment), 1)])
    case Looks(c, account) => if account in s.store then s.(held := s.held[c := s.store[account]]) else s
    case Acts(c, command, env) =>
      if c !in s.held then s else
      match Attempt(s.held[c].value, command, env)
      case Save(next) => s.(store := SaveTo(s.store, next, s.held[c].version))
      case Return => s
      case Raise(_) => s
  }

  function TakeAll(s: Hub, actions: seq<Action>): Hub {
    if |actions| == 0 then s else Take(TakeAll(s, actions[..|actions| - 1]), actions[|actions| - 1])
  }

  /** A snapshot somebody holds is of an account on file: an old version of it, or the current one. */
  ghost predicate HeldOnFile(m: Store, h: Versioned<Snapshot>) {
    h.value.account.id in m && (h.version < m[h.value.account.id].version || h == m[h.value.account.id])
  }

  ghost predicate Ordered(s: Hub) { InOrder(s.store) && forall c :: c in s.held ==> HeldOnFile(s.store, s.held[c]) }

  /** New accounts and new records get new identifiers. */
  ghost predicate FreshAction(s: Hub, a: Action) {
    match a
    case Creates(account, _, _, _) => account.id !in s.store
    case Looks(_, _) => true
    case Acts(c, _, env) => c in s.held && s.held[c].value.account.id in s.store ==>
          Fresh(s.store[s.held[c].value.account.id].value, env)
  }

  lemma OnFile(m: Store, account: Id)
    requires InOrder(m) && account in m
    ensures HeldOnFile(m, m[account])
  {
  }

  lemma CreateKeeps(s: Hub, a: Action)
    requires Ordered(s) && a.Creates? && FreshAction(s, a)
    ensures Ordered(Take(s, a))
  {
    hide Governed;
    if !LinkedElsewhere(s.store, a.account.id, a.account.guild) {
      assert Governed(NewSnapshot(a.account, a.owner, a.member, a.assignment)) by {
        NewIsGoverned(a.account, a.owner, a.member, a.assignment);
      }
      CreatedInOrder(s.store, NewSnapshot(a.account, a.owner, a.member, a.assignment));
    }
  }

  /** Only a save from the current snapshot is accepted, and it is one command on the account as it is. */
  lemma ActKeeps(s: Hub, a: Action)
    requires Ordered(s) && a.Acts? && FreshAction(s, a)
    ensures Ordered(Take(s, a))
  {
    hide Governed, Good, Attempt, InOrder, LinkedElsewhere;
    if a.client in s.held {
      var h := s.held[a.client];
      var o := Attempt(h.value, a.command, a.env);
      assert HeldOnFile(s.store, h);
      if o.Save? && Take(s, a) != s {
        HeldInOrder(s.store, h.value.account.id);
        AttemptSameAccount(h.value, a.command, a.env);
        assert h == s.store[h.value.account.id];
        AttemptGood(h.value, a.command, a.env);
        CommittedInOrder(s.store, h.value.account.id, o);
      }
    }
  }

  lemma AttemptSameAccount(s: Snapshot, c: Command, env: Env)
    ensures Attempt(s, c, env).Save? ==> Attempt(s, c, env).next.account.id == s.account.id
  {
    hide Effective, Sum, Filter, Invitations;
  }

  lemma TakeKeeps(s: Hub, a: Action)
    requires Ordered(s) && FreshAction(s, a)
    ensures Ordered(Take(s, a))
  {
    match a {
      case Creates(_, _, _, _) => CreateKeeps(s, a);
      case Looks(_, account) =>
        hide InOrder;
        if account in s.store {
          OnFile(s.store, account);
        }
      case Acts(_, _, _) => ActKeeps(s, a);
    }
  }

  /** No two accounts hold one guild. */
  ghost predicate OneEach(m: Store) {
    forall a, b | a in m && b in m && m[a].value.account.guild.Some? && m[a].value.account.guild == m[b].value.account.guild
      :: a == b
  }

  ghost predicate FreshActions(s: Hub, actions: seq<Action>) {
    forall i :: 0 <= i < |actions| ==> FreshAction(TakeAll(s, actions[..i]), actions[i])
  }

  /** Over any interleaving of any number of clients over any number of accounts, stale readers included: every
      account is governed, and no two accounts hold one guild. */
  lemma {:induction false} RunOrdered(s: Hub, actions: seq<Action>)
    requires Ordered(s) && FreshActions(s, actions)
    ensures Ordered(TakeAll(s, actions))
    ensures OneEach(TakeAll(s, actions).store)
  {
    hide Governed, FreshAction, Take;
    if |actions| > 0 {
      var n := |actions| - 1;
      forall i | 0 <= i < n ensures FreshAction(TakeAll(s, actions[..n][..i]), actions[..n][i]) {
        assert actions[..n][..i] == actions[..i];
      }
      RunOrdered(s, actions[..n]);
      TakeKeeps(TakeAll(s, actions[..n]), actions[n]);
    }
    OneGuild(TakeAll(s, actions).store);
  }

  lemma OneGuild(m: Store)
    requires InOrder(m)
    ensures OneEach(m)
  {
    hide Governed;
    forall a, b | a in m && b in m && m[a].value.account.guild.Some? && m[a].value.account.guild == m[b].value.account.guild
      ensures a == b
    {
      assert !LinkedElsewhere(m, a, m[a].value.account.guild);
    }
  }

  lemma NobodyIsOrdered()
    ensures Ordered(Hub(map[], map[]))
  {
  }

  /** From an empty repository. */
  lemma EveryRepositoryOrdered(actions: seq<Action>)
    requires FreshActions(Hub(map[], map[]), actions)
    ensures Ordered(TakeAll(Hub(map[], map[]), actions))
  {
    NobodyIsOrdered();
    RunOrdered(Hub(map[], map[]), actions);
  }

  /** When a client's link of a new guild takes effect: its snapshot is current, it was permitted, it saw the
      guild free, and the guild is free at its save. Two clients that saw it free cannot both have it. */
  lemma LinkTakesExactly(s: Hub, c: nat, g: Grant, guild: string, elsewhere: bool, env: Env)
    requires Ordered(s) && c in s.held
    requires var id := s.held[c].value.account.id; s.store[id].value.account.guild != Some(guild)
    ensures var id := s.held[c].value.account.id;
            var t := Take(s, Acts(c, LinkGuild(g, guild, true, elsewhere), env));
            && id in t.store
            && (t.store[id].value.account.guild == Some(guild) <==>
                  g.permitted && !elsewhere && s.held[c] == s.store[id] && !LinkedElsewhere(s.store, id, Some(guild)))
            && (t.store[id].value.account.guild != Some(guild) ==> t == s)
  {
    hide Governed;
    assert HeldOnFile(s.store, s.held[c]);
  }
}
