/** What becomes of the hold and the operation that callers racing under one key share: exactly which turns
    close the one and end the other, and what a failing call does to a finished one. */
module RaceOutcome {
  import opened Base
  import opened Money
  import W = Wallet
  import opened Solvency
  import opened WorldModel
  import opened WorldLaws
  import opened WorldProtocol
  import opened WakeSaga
  import opened HoldEndings
  import opened Endings
  import opened WakeRace

  // ----- what becomes of the hold

  /** The turn closes the hold: a failing caller gives it back, or another command closes it. */
  predicate ClosesHold(s: Race, t: Turn, id: Id) {
    match t
    case GiveBack(c, _) => CallerOf(s, c).stage.Failing? && CallerOf(s, c).hold == Some(id)
    case OtherCommand(m) => Closes(s.wallet, m.command, id)
    case _ => false
  }

  lemma MoveCloses(s: Race, t: Turn, id: Id, key: string)
    requires ActiveHold(s.wallet, id)
    ensures ClosesHold(s, t, id) <==> MoveOf(s, t, key).Some? && Closes(s.wallet, MoveOf(s, t, key).value.command, id)
  {
  }

  /** One turn on a hold on file: it is active afterwards if and only if it was and the turn does not close it. */
  lemma TurnActiveExactly(s: Race, t: Turn, id: Id, account: Id, key: string, cal: W.Calendar)
    requires Agreed(s, account, key) && FreshTurn(s, t, account, key)
    requires ActiveHold(s.wallet, id) || ClosedHold(s.wallet, id)
    ensures var v := TakeTurn(s, t, account, key, cal).wallet;
            && (ActiveHold(v, id) <==> ActiveHold(s.wallet, id) && !ClosesHold(s, t, id))
            && (ActiveHold(v, id) || ClosedHold(v, id))
  {
    var m := MoveOf(s, t, key);
    if ActiveHold(s.wallet, id) {
      MoveCloses(s, t, id, key);
    }
    hide MoveOf, EventOf, Learnt, Closes, ClosesHold, ActiveHold, ClosedHold, W.Step, Invariant, Indexed;
    hide SessionsSeen, Sound, Knows;
    if m.Some? {
      MoveActiveExactly(s.wallet, m.value, cal, id);
    }
  }

  ghost predicate NobodyCloses(s: Race, turns: seq<Turn>, id: Id, account: Id, key: string, cal: W.Calendar) {
    forall i :: 0 <= i < |turns| ==> !ClosesHold(RunAll(s, turns[..i], account, key, cal), turns[i], id)
  }

  lemma NobodyClosesLast(s: Race, turns: seq<Turn>, id: Id, account: Id, key: string, cal: W.Calendar)
    requires |turns| > 0
    ensures var n := |turns| - 1;
            NobodyCloses(s, turns, id, account, key, cal) <==>
              NobodyCloses(s, turns[..n], id, account, key, cal) && !ClosesHold(RunAll(s, turns[..n], account, key, cal), turns[n], id)
  {
    hide RunAll, ClosesHold;
    var n := |turns| - 1;
    assert forall i :: 0 <= i < n ==> turns[..n][..i] == turns[..i] && turns[..n][i] == turns[i];
  }

  /** Whole races: an active hold, a finished caller's or not, is active at the end if and only if no turn
      closed it. */
  lemma {:induction false} RaceActiveExactly(s: Race, turns: seq<Turn>, id: Id, account: Id, key: string,
                                             cal: W.Calendar)
    requires Agreed(s, account, key) && FreshTurns(s, turns, account, key, cal) && ActiveHold(s.wallet, id)
    ensures var v := RunAll(s, turns, account, key, cal).wallet;
            && (ActiveHold(v, id) <==> NobodyCloses(s, turns, id, account, key, cal))
            && (ActiveHold(v, id) || ClosedHold(v, id))
  {
    hide Agreed, FreshTurn, TakeTurn, ClosesHold, ActiveHold, ClosedHold;
    if |turns| > 0 {
      var n := |turns| - 1;
      FreshFirst(s, turns, n, account, key, cal);
      RaceAgrees(s, turns[..n], account, key, cal);
      RaceActiveExactly(s, turns[..n], id, account, key, cal);
      TurnActiveExactly(RunAll(s, turns[..n], account, key, cal), turns[n], id, account, key, cal);
      NobodyClosesLast(s, turns, id, account, key, cal);
    }
  }

  // ----- what becomes of the operation

  /** The turn ends the operation: a caller that has undone its hold fails it, or another client ends it. */
  predicate EndsWake(s: Race, t: Turn, id: Id, account: Id, key: string)
    requires id in s.system.repo.operations
  {
    (t.FailWake? || t.OtherClient?) && EventOf(s, t, account, key).Some? && Ends(s.system, EventOf(s, t, account, key).value, id)
  }

  lemma EventEnds(s: Race, t: Turn, id: Id, account: Id, key: string)
    requires id in s.system.repo.operations
    ensures EndsWake(s, t, id, account, key) <==>
              EventOf(s, t, account, key).Some? && Ends(s.system, EventOf(s, t, account, key).value, id)
  {
  }

  /** One turn: a live operation is stored and live afterwards if and only if the turn does not end it; what is
      over or gone stays so. */
  lemma TurnLiveExactly(s: Race, t: Turn, id: Id, account: Id, key: string, cal: W.Calendar)
    requires Agreed(s, account, key) && FreshTurn(s, t, account, key) && id in s.system.used
    ensures var u := TakeTurn(s, t, account, key, cal).system;
            && id in u.used
            && (LiveIn(u.repo, id) <==> LiveIn(s.system.repo, id) && !EndsWake(s, t, id, account, key))
  {
    var e := EventOf(s, t, account, key);
    if id in s.system.repo.operations {
      EventEnds(s, t, id, account, key);
    }
    hide EventOf, MoveOf, Learnt, Ends, EndsWake, Invariant, Sound, Indexed, SessionsSeen, Knows, Next;
    if e.Some? {
      EventLiveExactly(s.system, e.value, id);
    }
  }

  ghost predicate NobodyEnds(s: Race, turns: seq<Turn>, id: Id, account: Id, key: string, cal: W.Calendar) {
    forall i :: 0 <= i < |turns| ==>
      var u := RunAll(s, turns[..i], account, key, cal);
      id in u.system.repo.operations ==> !EndsWake(u, turns[i], id, account, key)
  }

  lemma NobodyEndsLast(s: Race, turns: seq<Turn>, id: Id, account: Id, key: string, cal: W.Calendar)
    requires |turns| > 0
    ensures var n := |turns| - 1;
            var u := RunAll(s, turns[..n], account, key, cal);
            NobodyEnds(s, turns, id, account, key, cal) <==>
              && NobodyEnds(s, turns[..n], id, account, key, cal)
              && (id in u.system.repo.operations ==> !EndsWake(u, turns[n], id, account, key))
  {
    hide RunAll, EndsWake;
    var n := |turns| - 1;
    assert forall i :: 0 <= i < n ==> turns[..n][..i] == turns[..i] && turns[..n][i] == turns[i];
  }

  /** Whole races: a live operation, a finished caller's or not, is live at the end if and only if no turn
      ended it. */
  lemma {:induction false} RaceLiveExactly(s: Race, turns: seq<Turn>, id: Id, account: Id, key: string, cal: W.Calendar)
    requires Agreed(s, account, key) && FreshTurns(s, turns, account, key, cal) && LiveIn(s.system.repo, id)
    ensures var u := RunAll(s, turns, account, key, cal).system;
            id in u.used && (LiveIn(u.repo, id) <==> NobodyEnds(s, turns, id, account, key, cal))
  {
    assert s.system.repo.operations.Keys <= s.system.used;
    hide Agreed, FreshTurn, TakeTurn, EndsWake, LiveIn;
    if |turns| == 0 {
      assert id in s.system.used by { LiveIsStored(s.system.repo, id); }
    } else {
      var n := |turns| - 1;
      var u := RunAll(s, turns[..n], account, key, cal);
      FreshFirst(s, turns, n, account, key, cal);
      RaceAgrees(s, turns[..n], account, key, cal);
      RaceLiveExactly(s, turns[..n], id, account, key, cal);
      TurnLiveExactly(u, turns[n], id, account, key, cal);
      NobodyEndsLast(s, turns, id, account, key, cal);
      if LiveIn(u.system.repo, id) {
        LiveIsStored(u.system.repo, id);
      }
    }
  }

  // ----- what a failing duplicate does to a finished caller

  /** The except branch of a failing caller: the hold, then the operation, read with its World. */
  function Undo(s: Race, b: nat, env: W.Env, account: Id, key: string, cal: W.Calendar): Race {
    var id := CallerOf(s, b).operation;
    var u := TakeTurn(s, GiveBack(b, env), account, key, cal);
    if id.None? || id.value !in u.system.repo.operations then u else
    var v := TakeTurn(u, OtherClient(ReadOperation(b, id.value)), account, key, cal);
    var w := TakeTurn(v, OtherClient(ReadWorld(b, KeyFor(u.system.repo.operations[id.value]))), account, key, cal);
    TakeTurn(w, FailWake(b), account, key, cal)
  }

  /** After the hold is given back: closed, and the caller goes on to fail the operation. */
  lemma GivesBack(s: Race, b: nat, env: W.Env, account: Id, key: string, cal: W.Calendar)
    requires Agreed(s, account, key) && b in s.callers && s.callers[b].stage.Failing? && s.callers[b].hold.Some?
    requires Fresh(s.wallet, env) && ActiveHold(s.wallet, s.callers[b].hold.value)
    ensures var u := TakeTurn(s, GiveBack(b, env), account, key, cal);
            && u.system == s.system && u.callers == s.callers[b := s.callers[b].(stage := Undoing)]
            && !ActiveHold(u.wallet, s.callers[b].hold.value)
  {
    var id := s.callers[b].hold.value;
    TurnActiveExactly(s, GiveBack(b, env), id, account, key, cal);
    assert !W.Attempt(s.wallet, W.Release(id), env, cal).Raise? by { ActiveReleases(s.wallet, id, env, cal); }
    hide W.Attempt, W.Step, Agreed, ActiveHold;
  }

  lemma ActiveReleases(w: W.Wallet, id: Id, env: W.Env, cal: W.Calendar)
    requires WellFormed(w) && ActiveHold(w, id)
    ensures !W.Attempt(w, W.Release(id), env, cal).Raise?
  {
    var r :| r in w.reservations && r.id == id && r.status.Active?;
    FoundById(w, r);
  }

  /** Failing the operation it has just read with its World. */
  lemma FailsIt(s: System, b: nat, o: Operation)
    requires Invariant(s) && o.id in s.repo.operations && s.repo.operations[o.id] == o && Live(o)
    requires MemoryOf(s, b).operation == Some(o) && KeyFor(o) in s.repo.worlds
    requires MemoryOf(s, b).world == Some(s.repo.worlds[KeyFor(o)])
    ensures var u := Next(s, Act(b, FailPreflight)).repo;
            && o.id in u.operations && u.operations[o.id] == o.(status := Failed, phase := Complete, version := o.version + 1)
            && KeyFor(o) in u.worlds && u.worlds[KeyFor(o)].status.Sleeping? && u.worlds[KeyFor(o)].session.None?
  {
    assert Filed(s.repo);
  }

  /** A finished caller's hold is active and its operation live; another call under the key, which obtained
      the same hold and operation, fails. Its undoing leaves the first with a session on a wake that FAILED,
      a World that sleeps without a session, and a hold that is not active. */
  lemma FailedDuplicateUndoesWinner(s: Race, a: nat, b: nat, env: W.Env, account: Id, key: string, cal: W.Calendar)
    requires Agreed(s, account, key) && Fresh(s.wallet, env) && a in s.callers && b in s.callers
    requires s.callers[a].stage.Answered? && ActiveHold(s.wallet, s.callers[a].stage.session.reservation)
    requires LiveIn(s.system.repo, s.callers[a].operation.value)
    requires s.callers[b].stage.Failing? && s.callers[b].hold.Some? && s.callers[b].operation.Some?
    ensures var t, x := Undo(s, b, env, account, key, cal), s.callers[a];
            var id := x.operation.value;
            && a in t.callers && t.callers[a] == x && b in t.callers && t.callers[b].stage.Over?
            && !ActiveHold(t.wallet, x.stage.session.reservation)
            && id in t.system.repo.operations && t.system.repo.operations[id].status.Failed?
            && t.system.repo.operations[id].session == Some(x.stage.session)
            && var k := KeyFor(t.system.repo.operations[id]);
               && k in t.system.repo.worlds && t.system.repo.worlds[k].status.Sleeping? && t.system.repo.worlds[k].session.None?
  {
    var x, y := s.callers[a], s.callers[b];
    OneOfEach(s, account, key, a, b);
    GivesBack(s, b, env, account, key, cal);
    var u := TakeTurn(s, GiveBack(b, env), account, key, cal);
    var o := s.system.repo.operations[x.operation.value];
    WinnerCoupled(s, o, account, key);
    assert o.session == Some(x.stage.session) && o.id == x.operation.value == y.operation.value;
    var read := Next(Next(s.system, ReadOperation(b, o.id)), ReadWorld(b, KeyFor(o)));
    ReadsBoth(s.system, b, o);
    FailsIt(read, b, o);
    UndoIs(s, u, b, env, o, account, key, cal);
    hide Agreed, Undo, TakeTurn, Next, ActiveHold, LiveIn;
  }

  lemma WinnerCoupled(s: Race, o: Operation, account: Id, key: string)
    requires Agreed(s, account, key) && Live(o)
    requires exists id :: id in s.system.repo.operations && s.system.repo.operations[id] == o
    ensures o.id in s.system.repo.operations && s.system.repo.operations[o.id] == o
    ensures KeyFor(o) in s.system.repo.worlds && KeyOf(s.system.repo.worlds[KeyFor(o)]) == KeyFor(o)
    ensures Invariant(s.system)
  {
    assert Filed(s.system.repo);
    hide Indexed, Sound, SessionsSeen, Knows;
    LiveIsCoupled(s.system.repo, o);
  }

  lemma ReadsBoth(s: System, b: nat, o: Operation)
    requires Invariant(s) && o.id in s.repo.operations && s.repo.operations[o.id] == o && KeyFor(o) in s.repo.worlds
    ensures var read := Next(Next(s, ReadOperation(b, o.id)), ReadWorld(b, KeyFor(o)));
            && Invariant(read) && read.repo == s.repo
            && MemoryOf(read, b).operation == Some(o) && MemoryOf(read, b).world == Some(s.repo.worlds[KeyFor(o)])
  {
    NextKeeps(s, ReadOperation(b, o.id));
    NextKeeps(Next(s, ReadOperation(b, o.id)), ReadWorld(b, KeyFor(o)));
    hide Invariant;
  }

  lemma UndoIs(s: Race, u: Race, b: nat, env: W.Env, o: Operation, account: Id, key: string, cal: W.Calendar)
    requires u == TakeTurn(s, GiveBack(b, env), account, key, cal) && u.system == s.system
    requires b in s.callers && s.callers[b].operation == Some(o.id) && o.id in s.system.repo.operations
    requires s.system.repo.operations[o.id] == o
    requires b in u.callers && u.callers[b] == s.callers[b].(stage := Undoing)
    requires MemoryOf(Next(Next(s.system, ReadOperation(b, o.id)), ReadWorld(b, KeyFor(o))), b).operation == Some(o)
    ensures var t := Undo(s, b, env, account, key, cal);
            && t.system == Next(Next(Next(s.system, ReadOperation(b, o.id)), ReadWorld(b, KeyFor(o))), Act(b, FailPreflight))
            && t.wallet == u.wallet && t.callers == u.callers[b := u.callers[b].(stage := Over)]
  {
    hide Next, W.Step, W.Attempt;
    var v := TakeTurn(u, OtherClient(ReadOperation(b, o.id)), account, key, cal);
    assert v == u.(system := Next(u.system, ReadOperation(b, o.id)));
    var w := TakeTurn(v, OtherClient(ReadWorld(b, KeyFor(o))), account, key, cal);
    assert w == v.(system := Next(v.system, ReadWorld(b, KeyFor(o))));
  }

  /** Pricing and reserving again under the key, before the quote expires, only look up what is there. */
  lemma DuplicateLooksUp(s: Race, a: nat, b: nat, w: World, rate: int, env: W.Env, later: W.Env, account: Id,
                         key: string, cal: W.Calendar)
    requires Agreed(s, account, key) && a in s.callers && s.callers[a].stage.Answered? && rate > 0
    requires b in s.callers && s.callers[b].stage.Open? && s.callers[b].quote.None? && s.callers[b].hold.None?
    requires forall q :: q in s.wallet.quotes && q.key == QuoteKeyFor(key) ==> later.now <= q.expiresAt
    ensures var t := TakeTurn(TakeTurn(s, Price(b, w, rate, env), account, key, cal), Reserve(b, later), account, key, cal);
            && t == s.(callers := t.callers) && a in t.callers && (a != b ==> t.callers[a] == s.callers[a])
            && b in t.callers && t.callers[b].stage.Open? && t.callers[b].hold.Some? && t.callers[b].operation == s.callers[b].operation
  {
    hide Invariant, SessionsSeen, Indexed, Sound, W.Attempt, Next;
    assert Knows(s.system, s.wallet, account, key, s.callers[a]);
    var wallet, session := s.wallet, s.callers[a].stage.session;
    var q :| q in wallet.quotes && q.id == session.quote && q.key == QuoteKeyFor(key);
    var h :| h in wallet.reservations && h.id == session.reservation && h.key == HoldKeyFor(key);
    LooksUp(wallet, q, h, key, w, rate, env, later, cal);
    hide Agreed, Knows;
    var p := TakeTurn(s, Price(b, w, rate, env), account, key, cal);
    assert p.wallet == s.wallet && p.system == s.system;
  }

  lemma LooksUp(wallet: W.Wallet, q: W.Quote, h: W.Reservation, key: string, w: World, rate: int, env: W.Env,
                later: W.Env, cal: W.Calendar)
    requires Sound(wallet) && q in wallet.quotes && q.key == QuoteKeyFor(key) && later.now <= q.expiresAt && rate > 0
    requires h in wallet.reservations && h.key == HoldKeyFor(key)
    ensures var o := W.Attempt(wallet, W.CreateQuote(w.id, w.profile, rate, QuoteKeyFor(key)), env, cal);
            o.Return? && o.reply.Quoted?
            && var r := W.Attempt(wallet, W.ReserveForWake(o.reply.quote.id, HoldKeyFor(key)), later, cal);
               r.Return? && r.reply.Held?
  {
    PriceIsAttempt(wallet, W.CreateQuote(w.id, w.profile, rate, QuoteKeyFor(key)), env, cal);
    ReserveIsAttempt(wallet, W.ReserveForWake(q.id, HoldKeyFor(key)), later, cal);
    hide W.Attempt;
    var quote := Find(wallet.quotes, W.QuoteKeyed(QuoteKeyFor(key))).value;
    assert QuoteKey()(quote) == QuoteKey()(q);
    var found := Find(wallet.quotes, W.QuoteIs(q.id)).value;
    assert QuoteId()(found) == QuoteId()(q);
    RateHolds(wallet, q);
    hide HoldFor, W.Available, W.BudgetAvailable;
  }

  lemma PriceIsAttempt(w: W.Wallet, c: W.Command, env: W.Env, cal: W.Calendar)
    requires c.CreateQuote?
    ensures W.Attempt(w, c, env, cal) == W.DoCreateQuote(w, c.world, c.profile, c.rate, c.key, env)
  {
    hide W.DoCreateQuote;
  }

  lemma ReserveIsAttempt(w: W.Wallet, c: W.Command, env: W.Env, cal: W.Calendar)
    requires c.ReserveForWake?
    ensures W.Attempt(w, c, env, cal) == W.DoReserveForWake(w, c.quote, c.key, env, cal)
  {
    hide W.DoReserveForWake;
  }

  /** From every agreeing state with a finished caller whose hold is active and whose operation lives: another
      call that found the operation under the key prices, reserves before the quote expires, is struck before
      it attaches, and undoes. The first call's hold and wake are gone. */
  lemma DuplicateUndoesWinner(s: Race, a: nat, b: nat, w: World, rate: int, env: W.Env, later: W.Env, last: W.Env,
                              account: Id, key: string, cal: W.Calendar)
    requires Agreed(s, account, key) && a in s.callers && s.callers[a].stage.Answered? && rate > 0
    requires ActiveHold(s.wallet, s.callers[a].stage.session.reservation)
    requires LiveIn(s.system.repo, s.callers[a].operation.value)
    requires b in s.callers && s.callers[b] == Caller(s.callers[a].operation, None, None, Open)
    requires Fresh(s.wallet, env) && Fresh(s.wallet, later) && Fresh(s.wallet, last)
    requires forall q :: q in s.wallet.quotes && q.key == QuoteKeyFor(key) ==> later.now <= q.expiresAt
    ensures var reserved := TakeTurn(TakeTurn(s, Price(b, w, rate, env), account, key, cal), Reserve(b, later), account, key, cal);
            var t := Undo(TakeTurn(reserved, Strike(b), account, key, cal), b, last, account, key, cal);
            var id := s.callers[a].operation.value;
            && a in t.callers && t.callers[a] == s.callers[a]
            && !ActiveHold(t.wallet, s.callers[a].stage.session.reservation)
            && id in t.system.repo.operations && t.system.repo.operations[id].status.Failed?
            && t.system.repo.operations[id].session == Some(s.callers[a].stage.session)
  {
    DuplicateLooksUp(s, a, b, w, rate, env, later, account, key, cal);
    var priced := TakeTurn(s, Price(b, w, rate, env), account, key, cal);
    var reserved := TakeTurn(priced, Reserve(b, later), account, key, cal);
    var struck := TakeTurn(reserved, Strike(b), account, key, cal);
    StrikeFails(reserved, b, account, key, cal);
    DuplicateAgrees(s, a, b, w, rate, env, later, account, key, cal);
    hide Agreed, TakeTurn, Undo, ActiveHold, LiveIn, Fresh;
    FailedDuplicateUndoesWinner(struck, a, b, last, account, key, cal);
  }

  lemma StrikeFails(s: Race, b: nat, account: Id, key: string, cal: W.Calendar)
    requires b in s.callers && s.callers[b].stage.Open?
    ensures TakeTurn(s, Strike(b), account, key, cal) == s.(callers := s.callers[b := s.callers[b].(stage := Failing)])
  {
  }

  lemma DuplicateAgrees(s: Race, a: nat, b: nat, w: World, rate: int, env: W.Env, later: W.Env, account: Id,
                        key: string, cal: W.Calendar)
    requires Agreed(s, account, key) && a in s.callers && s.callers[a].stage.Answered? && rate > 0
    requires Fresh(s.wallet, env) && Fresh(s.wallet, later)
    requires forall q :: q in s.wallet.quotes && q.key == QuoteKeyFor(key) ==> later.now <= q.expiresAt
    ensures var reserved := TakeTurn(TakeTurn(s, Price(b, w, rate, env), account, key, cal), Reserve(b, later), account, key, cal);
            Agreed(TakeTurn(reserved, Strike(b), account, key, cal), account, key)
  {
    var priced := TakeTurn(s, Price(b, w, rate, env), account, key, cal);
    PriceLooksUp(s, a, b, w, rate, env, account, key, cal);
    assert FreshTurn(s, Price(b, w, rate, env), account, key) && FreshTurn(priced, Reserve(b, later), account, key);
    var reserved := TakeTurn(priced, Reserve(b, later), account, key, cal);
    assert FreshTurn(reserved, Strike(b), account, key);
    hide Agreed, TakeTurn, FreshTurn;
    TurnAgrees(s, Price(b, w, rate, env), account, key, cal);
    TurnAgrees(priced, Reserve(b, later), account, key, cal);
    TurnAgrees(reserved, Strike(b), account, key, cal);
  }

  lemma PriceLooksUp(s: Race, a: nat, b: nat, w: World, rate: int, env: W.Env, account: Id, key: string,
                     cal: W.Calendar)
    requires Agreed(s, account, key) && a in s.callers && s.callers[a].stage.Answered?
    ensures TakeTurn(s, Price(b, w, rate, env), account, key, cal).wallet == s.wallet
  {
    assert Knows(s.system, s.wallet, account, key, s.callers[a]);
    var q :| q in s.wallet.quotes && q.id == s.callers[a].stage.session.quote && q.key == QuoteKeyFor(key);
    var cmd := W.CreateQuote(w.id, w.profile, rate, QuoteKeyFor(key));
    PriceIsAttempt(s.wallet, cmd, env, cal);
    hide Agreed, W.Attempt, Knows;
  }
}
