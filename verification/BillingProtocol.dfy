/** Any number of clients run billing commands against one wallet, each on the snapshot it last
    read. Every interleaving is equal to the accepted commands run one after another. */
module BillingProtocol {
  import opened Wallet
  import opened Solvency
  import opened Optimistic

  datatype Event = Reads(client: nat) | Commits(client: nat, command: Command, env: Env)

  function Next(s: System<Wallet>, e: Event, cal: Calendar): System<Wallet> {
    match e
    case Reads(c) => Read(s, c)
    case Commits(c, command, env) =>
      if c !in s.held then s else
      match Attempt(s.held[c].value, command, env, cal)
      case Save(next, _) => Optimistic.Save(s, c, next)
      case Return(_) => s
      case Raise(_) => s
  }

  function Exec(s: System<Wallet>, events: seq<Event>, cal: Calendar): System<Wallet> {
    if |events| == 0 then s
    else Next(Exec(s, events[..|events| - 1], cal), events[|events| - 1], cal)
  }

  /** The commands whose saves were accepted, in order. */
  function Accepted(s: System<Wallet>, events: seq<Event>, cal: Calendar): seq<Move> {
    if |events| == 0 then []
    else
      var before := Exec(s, events[..|events| - 1], cal);
      var e := events[|events| - 1];
      Accepted(s, events[..|events| - 1], cal)
      + if e.Commits? && Accepts(before, e.client) && Attempt(before.held[e.client].value, e.command, e.env, cal).Save?
        then [Move(e.command, e.env)] else []
  }

  lemma NextAtomic(s: System<Wallet>, e: Event, cal: Calendar)
    requires Coherent(s)
    ensures Coherent(Next(s, e, cal))
    ensures e.Commits? && Accepts(s, e.client) ==>
              Next(s, e, cal).current.value == Step(s.current.value, e.command, e.env, cal)
    ensures !(e.Commits? && Accepts(s, e.client) && Attempt(s.held[e.client].value, e.command, e.env, cal).Save?) ==>
              Next(s, e, cal).current == s.current
  {
    match e
    case Reads(c) => ReadCoherent(s, c);
    case Commits(c, command, env) =>
      if c in s.held {
        var o := Attempt(s.held[c].value, command, env, cal);
        if o.Save? {
          SaveCoherent(s, c, o.next);
        }
      }
  }

  /** Stale readers included, an interleaving has the effect of its accepted commands in order. */
  lemma {:induction false} Linearizable(s: System<Wallet>, events: seq<Event>, cal: Calendar)
    requires Coherent(s)
    ensures Coherent(Exec(s, events, cal))
    ensures Exec(s, events, cal).current.value == Run(s.current.value, Accepted(s, events, cal), cal)
  {
    hide Attempt;
    if |events| > 0 {
      var n := |events| - 1;
      var before := Exec(s, events[..n], cal);
      Linearizable(s, events[..n], cal);
      NextAtomic(before, events[n], cal);
      var moves := Accepted(s, events[..n], cal);
      var all := Accepted(s, events, cal);
      if |all| > |moves| {
        assert all[..|all| - 1] == moves && all[|all| - 1] == Move(events[n].command, events[n].env);
      } else {
        assert all == moves;
      }
    }
  }

  /** In every state reachable by any interleaving of any number of clients the wallet is funded, its
      ledger extends the earlier ledger, and no captured or released reservation has changed. */
  lemma InterleavingsSound(s: System<Wallet>, events: seq<Event>, cal: Calendar)
    requires Coherent(s) && Sound(s.current.value)
    requires FreshMoves(s.current.value, Accepted(s, events, cal), cal)
    ensures var w := Exec(s, events, cal).current.value;
            && Balance(w) - HeldTotal(w) >= 0
            && s.current.value.entries <= w.entries
            && (forall r :: r in s.current.value.reservations && !r.status.Active? ==> r in w.reservations)
            && Sound(w)
  {
    Linearizable(s, events, cal);
    RunSound(s.current.value, Accepted(s, events, cal), cal);
    var v, w := s.current.value, Exec(s, events, cal).current.value;
    forall r | r in v.reservations && !r.status.Active? ensures r in w.reservations {
      var i :| 0 <= i < |v.reservations| && v.reservations[i] == r;
      assert Continues(v.reservations[i], w.reservations[i]);
    }
  }

  /** From an account that never held anything: whatever any number of clients do, its wallet is funded. */
  lemma EveryWalletIsFunded(events: seq<Event>, cal: Calendar)
    requires FreshMoves(EmptyWallet, Accepted(System(Versioned(EmptyWallet, 0), map[]), events, cal), cal)
    ensures var w := Exec(System(Versioned(EmptyWallet, 0), map[]), events, cal).current.value;
            Sound(w) && Balance(w) - HeldTotal(w) >= 0
  {
    EmptyIsSound();
    InterleavingsSound(System(Versioned(EmptyWallet, 0), map[]), events, cal);
  }
}
