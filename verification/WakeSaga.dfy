/** Waking a World that has a price: begin the operation, quote, reserve, attach the session to operation and
    World, and undo on any failure. */
module WakeSaga {
  import opened Base
  import opened Money
  import opened Optimistic
  import W = Wallet
  import opened Solvency
  import opened WorldModel
  import opened WorldPlans
  import opened WorldLaws
  import opened WorldProtocol
  import opened Rivals
  import opened WorldService
  import B = BillingService

  /** Where an exception other than those of billing and attaching strikes, between two calls. */
  datatype Fault = NoFault | BeforeQuote | BeforeReserve | BeforeAttach | AfterAttach

  datatype Call = Call(account: Id, world: Id, permitted: bool, storageOpen: bool, rates: string -> Option<int>,
                       id: Id, key: string, now: Time, quoteEnv: W.Env, reserveEnv: W.Env, releaseEnv: W.Env, fault: Fault)

  datatype Verdict = Woken(operation: Operation) | Refused(error: Error) | BillingFailed

  datatype Ended = Ended(worlds: Repo, wallet: Versioned<W.Wallet>, verdict: Verdict, dispatched: bool)

  function QuoteKeyFor(key: string): string { key + ":quote" }
  function HoldKeyFor(key: string): string { key + ":reservation" }

  function QuoteCommand(w: World, rate: int,
                        c: Call): W.Command { W.CreateQuote(w.id, w.profile, rate, QuoteKeyFor(c.key)) }
  function HoldCommand(quote: Id, c: Call): W.Command { W.ReserveForWake(quote, HoldKeyFor(c.key)) }

  // ----- the whole call as a function

  function FailedPreflight(r: Repo, account: Id, id: Id): Repo {
    if id !in r.operations || r.operations[id].account != account || KeyFor(r.operations[id]) !in r.worlds then r
    else Apply(r, PlanPreflightFailure(r.operations[id], r.worlds[KeyFor(r.operations[id])]))
  }

  /** The except branch: release a hold if there is one; only then fail the operation. */
  function Compensate(r: Repo, v: Versioned<W.Wallet>, o: Operation, hold: Option<W.Reservation>, c: Call,
                      cal: W.Calendar): Ended {
    if hold.None? then Ended(FailedPreflight(r, c.account, o.id), v, BillingFailed, false) else
    var release := W.Move(W.Release(hold.value.id), c.releaseEnv);
    if W.Attempt(v.value, release.command, release.env, cal).Raise? then Ended(r, v, BillingFailed, false)
    else Ended(FailedPreflight(r, c.account, o.id), B.Commit(v, release, cal), BillingFailed, false)
  }

  /** attach_billing_session with nobody in between. */
  function Attached(r: Repo, account: Id, id: Id, session: BillingSession): (Repo, Result<Operation>) {
    if id !in r.operations || r.operations[id].account != account then (r, Err(Missing)) else
    var o := r.operations[id];
    if !o.kind.Wake? || (o.session.Some? && o.session.value != session)
       || (o.session.None? && !o.phase.Requested?) then (r, Err(Invalid)) else
    if o.session.Some? then (r, Ok(o)) else
    if KeyFor(o) !in r.worlds then (r, Err(Missing)) else
    var p := PlanAttach(o, r.worlds[KeyFor(o)], session);
    SaveOperation(r, p.saved, p.expectedOp, p.write)
  }

  function Attach(r: Repo, v: Versioned<W.Wallet>, o: Operation, quote: W.Quote, hold: W.Reservation, c: Call,
                  cal: W.Calendar): Ended {
    if c.fault.BeforeAttach? then Compensate(r, v, o, Some(hold), c, cal) else
    var (r2, attached) := Attached(r, c.account, o.id, BillingSession(quote.id, hold.id));
    if attached.Err? || c.fault.AfterAttach? then Compensate(r2, v, o, Some(hold), c, cal)
    else Ended(r2, v, Woken(attached.value), true)
  }

  function Hold(r: Repo, v: Versioned<W.Wallet>, o: Operation, quote: W.Quote, c: Call, cal: W.Calendar): Ended {
    if c.fault.BeforeReserve? then Compensate(r, v, o, None, c, cal) else
    var m := W.Move(HoldCommand(quote.id, c), c.reserveEnv);
    var held := B.AnswerOf(W.Attempt(v.value, m.command, m.env, cal));
    var v2 := B.Commit(v, m, cal);
    if held.Failed? || !held.reply.Held? then Compensate(r, v2, o, None, c, cal)
    else Attach(r, v2, o, quote, held.reply.reservation, c, cal)
  }

  function Pay(r: Repo, v: Versioned<W.Wallet>, o: Operation, w: World, rate: int, c: Call, cal: W.Calendar): Ended {
    if c.fault.BeforeQuote? then Compensate(r, v, o, None, c, cal) else
    var m := W.Move(QuoteCommand(w, rate, c), c.quoteEnv);
    var quoted := B.AnswerOf(W.Attempt(v.value, m.command, m.env, cal));
    var v1 := B.Commit(v, m, cal);
    if quoted.Failed? || !quoted.reply.Quoted? then Compensate(r, v1, o, None, c, cal)
    else Hold(r, v1, o, quoted.reply.quote, c, cal)
  }

  function Saga(r: Repo, v: Versioned<W.Wallet>, c: Call, cal: W.Calendar): Ended {
    var k := WorldKey(c.account, c.world);
    if k !in r.worlds then
      Ended(r, v, Refused(if !c.permitted then Denied else if !c.storageOpen then Blocked else Missing), false) else
    var p := PlanWake(r.worlds[k], c.permitted, c.storageOpen, c.id, c.key, c.now);
    var r1, began := Apply(r, p), Answer(r, p);
    if began.Err? then Ended(r1, v, Refused(began.error), false) else
    if began.value.None? || k !in r1.worlds then Ended(r1, v, Refused(Missing), false) else
    var o, w := began.value.value, r1.worlds[k];
    var rate := c.rates(w.profile);
    if rate.None? || o.session.Some? then Ended(r1, v, Woken(o), true) else
    if o.key != c.key then Ended(r1, v, Woken(o), false) else
    Pay(r1, v, o, w, rate.value, c, cal)
  }

  lemma SaveAnswers(r: Repo)
    ensures forall o: Operation, n, write :: var (after, answer) := SaveOperation(r, o, n, write);
              answer == Ok(o) || (answer.Err? && after == r)
  {
  }

  /** attach_billing_session with no rival in between is the function. */
  lemma OutcomeAlone(r: Repo, account: Id, id: Id, session: BillingSession, after: Repo, answer: Result<Operation>)
    requires AttachOutcome(r, ApplyAll(r, []), account, id, session, after, answer)
    ensures Attached(r, account, id, session) == (after, answer)
  {
    hide PlanPreflightFailure;
    SaveAnswers(r);
  }

  class GameWakeApplication {
    const worlds: Worlds
    const billing: B.Billing

    constructor (worlds: Worlds, billing: B.Billing)
      ensures this.worlds == worlds && this.billing == billing
    {
      this.worlds := worlds;
      this.billing := billing;
    }

    method RequestWake(c: Call, cal: W.Calendar) returns (verdict: Verdict, dispatched: bool)
      modifies worlds.repository, billing.repository
      ensures Ended(worlds.repository.View(), billing.repository.Current(c.account), verdict, dispatched)
              == Saga(old(worlds.repository.View()), old(billing.repository.Current(c.account)), c, cal)
    {
      hide W.Attempt, PlanWake, PlanAttach, PlanPreflightFailure, B.Commit;
      dispatched := false;
      var k := WorldKey(c.account, c.world);
      var began := worlds.RequestWake(c.account, c.world, c.permitted, c.storageOpen, c.id, c.key, c.now);
      if began.Err? {
        return Refused(began.error), false;
      }
      var got := worlds.repository.Get(k);
      if began.value.None? || got.Err? {
        return Refused(Missing), false;
      }
      var o := began.value.value;
      var rate := c.rates(got.value.profile);
      if rate.Some? && o.key != c.key && o.session.None? {
        return Woken(o), false;
      }
      if rate.Some? && o.key == c.key && o.session.None? {
        verdict, dispatched := ReserveAndAttach(o, got.value, rate.value, c, cal);
        return;
      }
      verdict, dispatched := Woken(o), true;
    }

    method ReserveAndAttach(o: Operation, w: World, rate: int, c: Call, cal: W.Calendar)
      returns (verdict: Verdict, dispatched: bool)
      modifies worlds.repository, billing.repository
      ensures Ended(worlds.repository.View(), billing.repository.Current(c.account), verdict, dispatched)
              == Pay(old(worlds.repository.View()), old(billing.repository.Current(c.account)), o, w, rate, c, cal)
    {
      hide W.Attempt, PlanAttach, PlanPreflightFailure, B.Commit, Compensate, Apply, SaveOperation;
      if c.fault.BeforeQuote? {
        verdict, dispatched := Undo(o, None, c, cal);
        return;
      }
      var quoted := billing.Call(c.account, QuoteCommand(w, rate, c), c.quoteEnv, cal);
      if quoted.Failed? || !quoted.reply.Quoted? || c.fault.BeforeReserve? {
        verdict, dispatched := Undo(o, None, c, cal);
        return;
      }
      var quote := quoted.reply.quote;
      var held := billing.Call(c.account, HoldCommand(quote.id, c), c.reserveEnv, cal);
      if held.Failed? || !held.reply.Held? {
        verdict, dispatched := Undo(o, None, c, cal);
        return;
      }
      var hold := held.reply.reservation;
      verdict, dispatched := AttachOrUndo(o, quote, hold, c, cal);
    }

    method AttachOrUndo(o: Operation, quote: W.Quote, hold: W.Reservation, c: Call, cal: W.Calendar)
      returns (verdict: Verdict, dispatched: bool)
      modifies worlds.repository, billing.repository
      ensures Ended(worlds.repository.View(), billing.repository.Current(c.account), verdict, dispatched)
              == Attach(old(worlds.repository.View()), old(billing.repository.Current(c.account)), o, quote, hold, c, cal)
    {
      hide W.Attempt, B.Commit, Compensate, Attached, AttachOutcome;
      if c.fault.BeforeAttach? {
        verdict, dispatched := Undo(o, Some(hold), c, cal);
        return;
      }
      ghost var before := worlds.repository.View();
      var attached := worlds.AttachBillingSession(c.account, o.id, BillingSession(quote.id, hold.id), []);
      OutcomeAlone(before, c.account, o.id, BillingSession(quote.id, hold.id), worlds.repository.View(), attached);
      if attached.Err? || c.fault.AfterAttach? {
        verdict, dispatched := Undo(o, Some(hold), c, cal);
        return;
      }
      verdict, dispatched := Woken(attached.value), true;
    }

    method Undo(o: Operation, hold: Option<W.Reservation>, c: Call, cal: W.Calendar)
      returns (verdict: Verdict, dispatched: bool)
      modifies worlds.repository, billing.repository
      ensures Ended(worlds.repository.View(), billing.repository.Current(c.account), verdict, dispatched)
              == Compensate(old(worlds.repository.View()), old(billing.repository.Current(c.account)), o, hold, c, cal)
    {
      hide W.Attempt;
      verdict, dispatched := BillingFailed, false;
      if hold.Some? {
        var released := billing.Call(c.account, W.Release(hold.value.id), c.releaseEnv, cal);
        if released.Failed? {
          return;
        }
      }
      var failed := worlds.FailWakePreflight(c.account, o.id);
    }
  }

  // ----- beginning the operation

  function Target(c: Call): WorldKey { WorldKey(c.account, c.world) }

  /** The key names at most one operation, a wake of this World, and the index knows it. */
  ghost predicate OwnKey(r: Repo, c: Call) {
    var command := CommandKey(c.account, c.key);
    && (command in r.commands ==> r.commands[command] in r.operations && r.operations[r.commands[command]].account == c.account
                                  && r.operations[r.commands[command]].key == c.key)
    && (forall id :: id in r.operations && r.operations[id].account == c.account && r.operations[id].key == c.key ==>
          r.operations[id].kind.Wake? && KeyFor(r.operations[id]) == Target(c) && command in r.commands && r.commands[command] == id)
  }

  function Begins(r: Repo, c: Call): (Repo, Result<Option<Operation>>)
    requires Target(c) in r.worlds
  {
    var p := PlanWake(r.worlds[Target(c)], c.permitted, c.storageOpen, c.id, c.key, c.now);
    (Apply(r, p), Answer(r, p))
  }

  /** The call repeats the key of a wake that is over. */
  ghost predicate DeadUnder(r: Repo, c: Call) {
    var command := CommandKey(c.account, c.key);
    command in r.commands && r.commands[command] in r.operations && !Live(r.operations[r.commands[command]])
  }

  /** A call that answers for its own key holds the stored wake of its World: one that lives, with its World
      waking, unless the key is that of a wake that is over, which is found as it was. */
  lemma BegunWake(r: Repo, c: Call)
    requires Consistent(r) && Target(c) in r.worlds && OwnKey(r, c) && c.id !in r.operations
    requires Begins(r, c).1.Ok? && Begins(r, c).1.value.Some? && Begins(r, c).1.value.value.key == c.key
    ensures var (r1, began) := Begins(r, c);
            var o := began.value.value;
            && o.id in r1.operations && r1.operations[o.id] == o && o.kind.Wake? && KeyFor(o) == Target(c)
            && Target(c) in r1.worlds && KeyOf(r1.worlds[Target(c)]) == Target(c)
            && CommandKey(c.account, c.key) in r1.commands && r1.commands[CommandKey(c.account, c.key)] == o.id
            && (Live(o) <==> !DeadUnder(r, c))
            && (Live(o) ==> r1.worlds[Target(c)].status.Waking?) && (!Live(o) ==> r1 == r)
  {
    assert Filed(r) && IndexExact(r) by { Unfold(r); }
    var o := Begins(r, c).1.value.value;
    if o.id in r.operations && Live(o) {
      LiveIsCoupled(r, o);
    }
  }

  lemma PreflightEnds(r: Repo, o: Operation)
    requires o.id in r.operations && r.operations[o.id] == o && KeyFor(o) in r.worlds
    requires KeyOf(r.worlds[KeyFor(o)]) == KeyFor(o)
    ensures var s := FailedPreflight(r, o.account, o.id);
            && o.id in s.operations && !Live(s.operations[o.id])
            && (Live(o) ==> s.operations[o.id].status.Failed? && KeyFor(o) in s.worlds
                            && s.worlds[KeyFor(o)].status.Sleeping? && s.worlds[KeyFor(o)].session.None?)
  {
  }

  /** Attaching to a wake on file succeeds exactly when it carries this session already, or none in its
      first phase. Its status is not asked: it stays as live as it was, and its World in the status it had. */
  lemma AttachExactly(r: Repo, o: Operation, session: BillingSession)
    requires o.id in r.operations && r.operations[o.id] == o && KeyFor(o) in r.worlds
    requires KeyOf(r.worlds[KeyFor(o)]) == KeyFor(o)
    ensures var (s, answer) := Attached(r, o.account, o.id, session);
            && (answer.Ok? <==> o.kind.Wake? && (o.session == Some(session) || (o.session.None? && o.phase.Requested?)))
            && o.id in s.operations && KeyFor(s.operations[o.id]) == KeyFor(o) && Live(s.operations[o.id]) == Live(o)
            && s.operations[o.id].account == o.account && s.operations[o.id].id == o.id && s.operations[o.id].key == o.key
            && KeyFor(o) in s.worlds && KeyOf(s.worlds[KeyFor(o)]) == KeyFor(o) && s.commands == r.commands
            && s.worlds[KeyFor(o)].status == r.worlds[KeyFor(o)].status
            && (answer.Ok? ==> answer.value == s.operations[o.id] && answer.value.session == Some(session))
            && (answer.Ok? && o.session.None? ==> s.worlds[KeyFor(o)].session == Some(session))
  {
    if o.session.None? && o.kind.Wake? && o.phase.Requested? {
      var w := r.worlds[KeyFor(o)];
      var o', w' := o.(session := Some(session), version := o.version + 1), w.(session := Some(session), version := w.version + 1);
      assert Attached(r, o.account, o.id, session)
          == (r.(worlds := r.worlds[KeyFor(o) := w'], operations := r.operations[o.id := o'],
                 active := Attached(r, o.account, o.id, session).0.active), Ok(o'));
    } else {
      assert Attached(r, o.account, o.id, session).0 == r;
    }
  }

  lemma AttachedHasSession(r: Repo, account: Id, id: Id, session: BillingSession)
    ensures Attached(r, account, id, session).1.Ok? ==> Attached(r, account, id, session).1.value.session == Some(session)
  {
  }

  lemma PaidIsAttached(r: Repo, v: Versioned<W.Wallet>, o: Operation, w: World, rate: int, c: Call, cal: W.Calendar)
    ensures var e := Pay(r, v, o, w, rate, c, cal);
            e.verdict == BillingFailed || (e.verdict.Woken? && e.verdict.operation.session.Some?)
    ensures Pay(r, v, o, w, rate, c, cal).dispatched <==> Pay(r, v, o, w, rate, c, cal).verdict.Woken?
  {
    hide W.Attempt, B.Commit, Attached, FailedPreflight, PlanPreflightFailure;
    forall s: Repo, session ensures Attached(s, c.account, o.id, session).1.Ok? ==>
                                      Attached(s, c.account, o.id, session).1.value.session == Some(session)
    {
      AttachedHasSession(s, c.account, o.id, session);
    }
  }

  /** What is answered, and what the dispatcher is told: nothing about a call that is refused or whose billing
      fails, and of a woken operation exactly when it is free or carries a session; an unpaid one of another
      call is left to that call. The permission decides before storage, and storage before the World. */
  lemma DispatchedExactly(r: Repo, v: Versioned<W.Wallet>, c: Call, cal: W.Calendar)
    requires forall k :: k in r.worlds ==> KeyOf(r.worlds[k]) == k
    ensures var e := Saga(r, v, c, cal);
            && (e.dispatched ==> e.verdict.Woken?)
            && (e.verdict.Woken? ==>
                  && Target(c) in r.worlds
                  && (e.dispatched <==> c.rates(r.worlds[Target(c)].profile).None? || e.verdict.operation.session.Some?))
            && (e.verdict == Refused(Denied) <==> !c.permitted)
            && (e.verdict == Refused(Blocked) <==> c.permitted && !c.storageOpen)
            && (c.permitted && c.storageOpen && Target(c) !in r.worlds ==> e.verdict == Refused(Missing))
            && (e.verdict.Refused? ==> e.wallet == v && e.worlds == r)
  {
    hide Pay;
    if Target(c) in r.worlds {
      var (r1, began) := Begins(r, c);
      if began.Ok? && began.value.Some? && Target(c) in r1.worlds && c.rates(r1.worlds[Target(c)].profile).Some? {
        var w := r1.worlds[Target(c)];
        PaidIsAttached(r1, v, began.value.value, w, c.rates(w.profile).value, c, cal);
      }
    }
  }

  // ----- the money

  ghost predicate ActiveUnder(w: W.Wallet, key: string) {
    exists h :: h in w.reservations && h.key == HoldKeyFor(key) && h.status.Active?
  }
  ghost predicate CapturedUnder(w: W.Wallet, key: string) {
    exists h :: h in w.reservations && h.key == HoldKeyFor(key) && h.status.Captured?
  }

  /** A reservation under the key is the only one, and its status is the key's. */
  lemma OnlyUnder(w: W.Wallet, h: W.Reservation, key: string)
    requires WellFormed(w) && h in w.reservations && h.key == HoldKeyFor(key)
    ensures ActiveUnder(w, key) <==> h.status.Active?
    ensures CapturedUnder(w, key) <==> h.status.Captured?
  {
    forall x | x in w.reservations && x.key == HoldKeyFor(key) ensures x == h {
      var i :| 0 <= i < |w.reservations| && w.reservations[i] == x;
      var j :| 0 <= j < |w.reservations| && w.reservations[j] == h;
      assert ReservationKey()(w.reservations[i]) == ReservationKey()(w.reservations[j]);
    }
  }

  /** When the quote the call will hold expires: the one already under its key, or a new one. */
  function QuoteDeadline(w: W.Wallet, c: Call): Time {
    match Find(w.quotes, W.QuoteKeyed(QuoteKeyFor(c.key)))
    case Some(q) => q.expiresAt
    case None => c.quoteEnv.now + 15 * 60 * SECOND
  }

  /** The World and the rate the call will hold at: those of the quote under its key, or its own. */
  function HeldWorld(w: W.Wallet, world: World, c: Call): Id {
    match Find(w.quotes, W.QuoteKeyed(QuoteKeyFor(c.key))) case Some(q) => q.world case None => world.id
  }
  function HeldRate(w: W.Wallet, rate: nat, c: Call): nat {
    match Find(w.quotes, W.QuoteKeyed(QuoteKeyFor(c.key))) case Some(q) => q.rate case None => rate
  }

  ghost predicate HeldUnder(w: W.Wallet, key: string) { exists h :: h in w.reservations && h.key == HoldKeyFor(key) }

  /** The wallet can spend the amount now, and the World's budget, if it has one, leaves room for it. */
  ghost predicate Affordable(w: W.Wallet, world: Id, amount: int, at: Time, cal: W.Calendar) {
    && W.Available(w) >= amount
    && (W.BudgetAvailable(w, world, at, cal).Some? ==> W.BudgetAvailable(w, world, at, cal).value >= amount)
  }

  lemma ReleaseClears(w: W.Wallet, h: W.Reservation, key: string, env: W.Env, cal: W.Calendar)
    requires WellFormed(w) && h in w.reservations && h.key == HoldKeyFor(key) && !h.status.Captured?
    ensures !W.Attempt(w, W.Release(h.id), env, cal).Raise?
    ensures !ActiveUnder(W.Step(w, W.Release(h.id), env, cal), key)
  {
    var found := Find(w.reservations, W.ReservationIs(h.id)).value;
    assert ReservationId()(found) == ReservationId()(h);
    var v := W.Step(w, W.Release(h.id), env, cal);
    forall x | x in v.reservations && x.key == HoldKeyFor(key) ensures !x.status.Active? {
      var i :| 0 <= i < |v.reservations| && v.reservations[i] == x;
      var j :| 0 <= j < |w.reservations| && w.reservations[j] == h;
      if h.status.Active? {
        ReplaceReservation(w.reservations, h, h.(status := W.Released));
      }
      assert ReservationKey()(w.reservations[i]) == ReservationKey()(w.reservations[j]);
    }
  }

  predicate PricedFor(q: W.Quote, w: World, rate: int) { q.rate == rate && q.world == w.id && q.profile == w.profile }

  /** What quoting leaves: a quote under the key with its deadline, and the reservations as they were. */
  lemma Quotes(v: Versioned<W.Wallet>, w: World, rate: int, c: Call, cal: W.Calendar)
    requires Sound(v.value) && Fresh(v.value, c.quoteEnv) && Fresh(v.value, c.reserveEnv)
    requires c.quoteEnv.id != c.reserveEnv.id
    ensures var m := W.Move(QuoteCommand(w, rate, c), c.quoteEnv);
            var v1, quoted := B.Commit(v, m, cal), B.AnswerOf(W.Attempt(v.value, m.command, m.env, cal));
            && Sound(v1.value) && Fresh(v1.value, c.reserveEnv) && v1.value == v.value.(quotes := v1.value.quotes)
            && (quoted.Answered? <==> rate > 0)
            && (quoted.Answered? ==>
                  quoted.reply.Quoted? && quoted.reply.quote in v1.value.quotes && quoted.reply.quote.key == QuoteKeyFor(c.key)
                  && (quoted.reply.quote in v.value.quotes || PricedFor(quoted.reply.quote, w, rate))
                  && quoted.reply.quote.expiresAt == QuoteDeadline(v.value, c)
                  && quoted.reply.quote.world == HeldWorld(v.value, w, c) && quoted.reply.quote.rate == HeldRate(v.value, rate, c))
  {
    var cmd := QuoteCommand(w, rate, c);
    AttemptGood(v.value, cmd, c.quoteEnv, cal);
    assert W.Attempt(v.value, cmd, c.quoteEnv, cal) == W.DoCreateQuote(v.value, w.id, w.profile, rate, QuoteKeyFor(c.key), c.quoteEnv);
  }

  /** What reserving leaves. Past the deadline nothing is read or written. */
  lemma Holds(v: Versioned<W.Wallet>, q: W.Quote, c: Call, cal: W.Calendar)
    requires Sound(v.value) && Fresh(v.value, c.reserveEnv) && q in v.value.quotes
    ensures var m := W.Move(HoldCommand(q.id, c), c.reserveEnv);
            var v2, held := B.Commit(v, m, cal), B.AnswerOf(W.Attempt(v.value, m.command, m.env, cal));
            && Sound(v2.value) && v2.value.quotes == v.value.quotes && (held.Failed? ==> v2 == v)
            && (held.Answered? <==> c.reserveEnv.now <= q.expiresAt
                                    && (HeldUnder(v.value, c.key)
                                        || Affordable(v.value, q.world, HoldFor(q.rate, WAKE_SECONDS), c.reserveEnv.now, cal)))
            && (held.Answered? ==>
                  && held.reply.Held? && held.reply.reservation in v2.value.reservations
                  && held.reply.reservation.key == HoldKeyFor(c.key)
                  && (held.reply.reservation in v.value.reservations
                      || (held.reply.reservation.status.Active? && held.reply.reservation.quote == Some(q.id)
                          && held.reply.reservation.world == Some(q.world)
                          && held.reply.reservation.amount == HoldFor(q.rate, WAKE_SECONDS))))
            && (held.Answered? && held.reply.reservation in v.value.reservations ==> v2 == v)
            && (held.Answered? && held.reply.reservation !in v.value.reservations ==>
                  forall h :: h in v.value.reservations ==> h.key != HoldKeyFor(c.key))
            && (held.Failed? && c.reserveEnv.now <= q.expiresAt ==>
                  forall h :: h in v.value.reservations ==> h.key != HoldKeyFor(c.key))
  {
    hide W.Available, W.BudgetAvailable, HoldFor;
    AttemptGood(v.value, HoldCommand(q.id, c), c.reserveEnv, cal);
    assert HoldCommand(q.id, c) == W.ReserveForWake(q.id, HoldKeyFor(c.key));
    assert W.Attempt(v.value, HoldCommand(q.id, c), c.reserveEnv, cal)
           == W.DoReserveForWake(v.value, q.id, HoldKeyFor(c.key), c.reserveEnv, cal);
    var found := Find(v.value.quotes, W.QuoteIs(q.id)).value;
    assert QuoteId()(found) == QuoteId()(q);
    RateHolds(v.value, q);
  }

  lemma RateHolds(w: W.Wallet, q: W.Quote)
    requires WellFormed(w) && q in w.quotes
    ensures HoldFor(q.rate, WAKE_SECONDS) > 0
  {
    assert q.rate > 0;
    assert q.rate * WAKE_SECONDS > 0;
  }

  // ----- the promises of the call

  ghost predicate Prepared(r: Repo, v: Versioned<W.Wallet>, c: Call) {
    && Consistent(r) && OwnKey(r, c) && c.id !in r.operations
    && Sound(v.value) && Fresh(v.value, c.quoteEnv) && Fresh(v.value, c.reserveEnv) && c.quoteEnv.id != c.reserveEnv.id
  }

  ghost predicate OnFile(r: Repo, o: Operation, c: Call) {
    && o.id in r.operations && r.operations[o.id] == o && o.kind.Wake? && KeyFor(o) == Target(c)
    && Target(c) in r.worlds && KeyOf(r.worlds[Target(c)]) == Target(c)
  }

  /** Past its deadline, or struck before it reserves, the call never sees a reservation it made earlier. */
  predicate Misses(w: W.Wallet, rate: int, c: Call) {
    c.fault.BeforeQuote? || c.fault.BeforeReserve? || rate <= 0 || c.reserveEnv.now > QuoteDeadline(w, c)
  }

  ghost predicate EndedAsFailed(before: Operation, s: Repo) {
    && before.id in s.operations && !Live(s.operations[before.id])
    && (Live(before) ==>
          && s.operations[before.id].status.Failed? && KeyFor(before) in s.worlds
          && s.worlds[KeyFor(before)].status.Sleeping? && s.worlds[KeyFor(before)].session.None?)
  }

  /** What a failed call leaves of an operation that may have been live: over, unless the hold it reached
      was captured, so that its release raised. */
  ghost predicate Undone(before: Operation, s: Repo, stuck: bool) {
    && before.id in s.operations && (Live(s.operations[before.id]) <==> Live(before) && stuck)
    && (!stuck ==> EndedAsFailed(before, s))
  }

  lemma AttachFails(r: Repo, v: Versioned<W.Wallet>, o: Operation, q: W.Quote, h: W.Reservation, c: Call,
                    cal: W.Calendar)
    requires OnFile(r, o, c) && Sound(v.value) && h in v.value.reservations && h.key == HoldKeyFor(c.key)
    requires Attach(r, v, o, q, h, c, cal).verdict.BillingFailed?
    ensures var e := Attach(r, v, o, q, h, c, cal);
            Undone(o, e.worlds, h.status.Captured?) && !ActiveUnder(e.wallet.value, c.key)
  {
    hide W.Attempt, FailedPreflight, Attached, ActiveUnder, CapturedUnder;
    var session := BillingSession(q.id, h.id);
    AttachExactly(r, o, session);
    var r2 := if c.fault.BeforeAttach? then r else Attached(r, c.account, o.id, session).0;
    PreflightEnds(r2, r2.operations[o.id]);
    if h.status.Captured? {
      OnlyUnder(v.value, h, c.key);
      ReleaseRefused(v.value, h, c.releaseEnv, cal);
    } else {
      ReleaseClears(v.value, h, c.key, c.releaseEnv, cal);
    }
  }

  lemma ReleaseRefused(w: W.Wallet, h: W.Reservation, env: W.Env, cal: W.Calendar)
    requires WellFormed(w) && h in w.reservations && h.status.Captured?
    ensures W.Attempt(w, W.Release(h.id), env, cal).Raise?
  {
    var found := Find(w.reservations, W.ReservationIs(h.id)).value;
    assert ReservationId()(found) == ReservationId()(h);
  }

  lemma HoldFails(r: Repo, v: Versioned<W.Wallet>, o: Operation, q: W.Quote, c: Call, cal: W.Calendar)
    requires OnFile(r, o, c) && Sound(v.value) && Fresh(v.value, c.reserveEnv) && q in v.value.quotes
    requires Hold(r, v, o, q, c, cal).verdict.BillingFailed?
    ensures var e := Hold(r, v, o, q, c, cal);
            var missed := c.fault.BeforeReserve? || c.reserveEnv.now > q.expiresAt;
            && Undone(o, e.worlds, CapturedUnder(v.value, c.key) && !missed)
            && (ActiveUnder(e.wallet.value, c.key) <==> ActiveUnder(v.value, c.key) && missed)
  {
    hide W.Attempt, FailedPreflight, Attach, B.Commit;
    PreflightEnds(r, o);
    if !c.fault.BeforeReserve? {
      Holds(v, q, c, cal);
      var m := W.Move(HoldCommand(q.id, c), c.reserveEnv);
      var held, v2 := B.AnswerOf(W.Attempt(v.value, m.command, m.env, cal)), B.Commit(v, m, cal);
      if held.Answered? {
        AttachFails(r, v2, o, q, held.reply.reservation, c, cal);
        if held.reply.reservation in v.value.reservations {
          OnlyUnder(v.value, held.reply.reservation, c.key);
        }
      }
    }
  }

  lemma PayFails(r: Repo, v: Versioned<W.Wallet>, o: Operation, w: World, rate: int, c: Call, cal: W.Calendar)
    requires OnFile(r, o, c)
    requires Sound(v.value) && Fresh(v.value, c.quoteEnv) && Fresh(v.value, c.reserveEnv)
    requires c.quoteEnv.id != c.reserveEnv.id
    requires Pay(r, v, o, w, rate, c, cal).verdict.BillingFailed?
    ensures var e := Pay(r, v, o, w, rate, c, cal);
            && Undone(o, e.worlds, CapturedUnder(v.value, c.key) && !Misses(v.value, rate, c))
            && (ActiveUnder(e.wallet.value, c.key) <==> ActiveUnder(v.value, c.key) && Misses(v.value, rate, c))
  {
    hide W.Attempt, FailedPreflight, Hold;
    PreflightEnds(r, o);
    if !c.fault.BeforeQuote? {
      Quotes(v, w, rate, c, cal);
      var m := W.Move(QuoteCommand(w, rate, c), c.quoteEnv);
      var quoted, v1 := B.AnswerOf(W.Attempt(v.value, m.command, m.env, cal)), B.Commit(v, m, cal);
      if quoted.Answered? {
        HoldFails(r, v1, o, quoted.reply.quote, c, cal);
      }
    }
  }

  /** A wake whose billing fails, wherever it fails, ends its operation: FAILED if it was live, with the
      World asleep and without a session. It stays live in one case: the reservation the call reached under
      its key had been captured. An ACTIVE reservation is left under the key exactly when one was there
      before and the call missed it: its quote had expired, or the failure came before reserving. */
  lemma FailureUndoes(r: Repo, v: Versioned<W.Wallet>, c: Call, cal: W.Calendar)
    requires Prepared(r, v, c) && Target(c) in r.worlds
    requires Saga(r, v, c, cal).verdict.BillingFailed?
    ensures var e, (r1, began) := Saga(r, v, c, cal), Begins(r, c);
            && began.Ok? && began.value.Some? && Target(c) in r1.worlds && c.rates(r1.worlds[Target(c)].profile).Some?
            && var missed := Misses(v.value, c.rates(r1.worlds[Target(c)].profile).value, c);
               && Undone(began.value.value, e.worlds, CapturedUnder(v.value, c.key) && !missed)
               && (ActiveUnder(e.wallet.value, c.key) <==> ActiveUnder(v.value, c.key) && missed)
  {
    hide Pay, Consistent, Undone, ActiveUnder, CapturedUnder, Misses, PlanWake, Sound, Fresh, DeadUnder;
    BegunWake(r, c);
    var (r1, began) := Begins(r, c);
    PayFails(r1, v, began.value.value, r1.worlds[Target(c)], c.rates(r1.worlds[Target(c)].profile).value, c, cal);
  }

  ghost predicate PaidWith(s: Repo, w: W.Wallet, o: Operation, c: Call, q: W.Quote, h: W.Reservation) {
    && o.id in s.operations && s.operations[o.id] == o && o.session == Some(BillingSession(q.id, h.id))
    && Target(c) in s.worlds && s.worlds[Target(c)].session == o.session
    && q in w.quotes && q.key == QuoteKeyFor(c.key) && h in w.reservations && h.key == HoldKeyFor(c.key)
  }

  ghost predicate HeldFor(h: W.Reservation, q: W.Quote) {
    h.status.Active? && h.quote == Some(q.id) && h.world == Some(q.world) && h.amount == HoldFor(q.rate, WAKE_SECONDS)
  }

  lemma PaySucceeds(r: Repo, v: Versioned<W.Wallet>, o: Operation, w: World, rate: int, c: Call, cal: W.Calendar)
      returns (q: W.Quote, h: W.Reservation)
    requires OnFile(r, o, c) && o.session.None?
    requires Sound(v.value) && Fresh(v.value, c.quoteEnv) && Fresh(v.value, c.reserveEnv)
    requires c.quoteEnv.id != c.reserveEnv.id
    requires Pay(r, v, o, w, rate, c, cal).verdict.Woken?
    ensures var e := Pay(r, v, o, w, rate, c, cal);
            && PaidWith(e.worlds, e.wallet.value, e.verdict.operation, c, q, h) && e.dispatched && e.verdict.operation.id == o.id
            && e.worlds.commands == r.commands && e.verdict.operation.key == o.key
            && Live(e.verdict.operation) == Live(o) && e.worlds.worlds[Target(c)].status == r.worlds[Target(c)].status
            && ((forall x :: x in v.value.reservations ==> x.key != HoldKeyFor(c.key)) ==> HeldFor(h, q))
            && ((forall x :: x in v.value.quotes ==> x.key != QuoteKeyFor(c.key)) ==> PricedFor(q, w, rate))
  {
    hide W.Attempt, FailedPreflight, Attached, HoldFor, B.Commit;
    Quotes(v, w, rate, c, cal);
    var m := W.Move(QuoteCommand(w, rate, c), c.quoteEnv);
    q := B.AnswerOf(W.Attempt(v.value, m.command, m.env, cal)).reply.quote;
    var v1 := B.Commit(v, m, cal);
    Holds(v1, q, c, cal);
    var n := W.Move(HoldCommand(q.id, c), c.reserveEnv);
    h := B.AnswerOf(W.Attempt(v1.value, n.command, n.env, cal)).reply.reservation;
    AttachExactly(r, o, BillingSession(q.id, h.id));
    var v2 := B.Commit(v1, n, cal);
    assert Pay(r, v, o, w, rate, c, cal) == Hold(r, v1, o, q, c, cal);
    assert Hold(r, v1, o, q, c, cal) == Attach(r, v2, o, q, h, c, cal);
    var (r2, attached) := Attached(r, c.account, o.id, BillingSession(q.id, h.id));
    assert Attach(r, v2, o, q, h, c, cal) == Ended(r2, v2, Woken(attached.value), true);
  }

  /** A wake that succeeds with a price: operation and World carry the same quote and reservation, both
      under the call's keys; and a hold made by this call is active and covers twenty-five minutes. The
      operation lives and its World wakes exactly when the key is not that of a wake that is over. */
  lemma SuccessAttaches(r: Repo, v: Versioned<W.Wallet>, c: Call, cal: W.Calendar)
    requires Prepared(r, v, c) && Target(c) in r.worlds
    requires var (r1, began) := Begins(r, c);
             && began.Ok? && began.value.Some? && began.value.value.key == c.key && began.value.value.session.None?
             && Target(c) in r1.worlds && c.rates(r1.worlds[Target(c)].profile).Some?
    requires Saga(r, v, c, cal).verdict.Woken?
    ensures var e := Saga(r, v, c, cal);
            && e.dispatched && e.worlds.commands == Begins(r, c).0.commands && CommandKey(c.account, c.key) in e.worlds.commands
            && e.worlds.commands[CommandKey(c.account, c.key)] == e.verdict.operation.id && e.verdict.operation.key == c.key
            && (Live(e.verdict.operation) <==> !DeadUnder(r, c)) && Target(c) in e.worlds.worlds
            && (if DeadUnder(r, c) then e.worlds.worlds[Target(c)].status == r.worlds[Target(c)].status
                else e.worlds.worlds[Target(c)].status.Waking?)
            && exists q, h :: PaidWith(e.worlds, e.wallet.value, e.verdict.operation, c, q, h)
                              && ((forall x :: x in v.value.reservations ==> x.key != HoldKeyFor(c.key)) ==> HeldFor(h, q))
                              && ((forall x :: x in v.value.quotes ==> x.key != QuoteKeyFor(c.key)) ==>
                                    var w := Begins(r, c).0.worlds[Target(c)];
                                    PricedFor(q, w, c.rates(w.profile).value))
  {
    hide Pay, Consistent, PlanWake, Sound, Fresh, HoldFor, DeadUnder;
    BegunWake(r, c);
    var (r1, began) := Begins(r, c);
    var q, h := PaySucceeds(r1, v, began.value.value, r1.worlds[Target(c)], c.rates(r1.worlds[Target(c)].profile).value, c, cal);
  }

  /** Whether the money steps succeed, struck by nothing: the rate is positive, the quote has not expired,
      and the reservation exists or can be afforded. */
  ghost predicate Payable(w: W.Wallet, world: World, rate: int, c: Call, cal: W.Calendar) {
    && rate > 0 && c.reserveEnv.now <= QuoteDeadline(w, c)
    && (HeldUnder(w, c.key)
        || Affordable(w, HeldWorld(w, world, c), HoldFor(HeldRate(w, rate, c), WAKE_SECONDS), c.reserveEnv.now, cal))
  }

  lemma PaysExactly(r: Repo, v: Versioned<W.Wallet>, o: Operation, w: World, rate: int, c: Call, cal: W.Calendar)
    requires OnFile(r, o, c) && o.session.None? && c.fault.NoFault?
    requires Sound(v.value) && Fresh(v.value, c.quoteEnv) && Fresh(v.value, c.reserveEnv)
    requires c.quoteEnv.id != c.reserveEnv.id
    ensures Pay(r, v, o, w, rate, c, cal).verdict.Woken? <==> o.phase.Requested? && Payable(v.value, w, rate, c, cal)
  {
    hide W.Attempt, FailedPreflight, Attached, HoldFor, B.Commit, W.Available, W.BudgetAvailable, Compensate;
    Quotes(v, w, rate, c, cal);
    var m := W.Move(QuoteCommand(w, rate, c), c.quoteEnv);
    var quoted, v1 := B.AnswerOf(W.Attempt(v.value, m.command, m.env, cal)), B.Commit(v, m, cal);
    UndoneFails(r, v1, o, c, cal);
    if quoted.Answered? {
      var q := quoted.reply.quote;
      SameMoney(v.value, v1.value, q.world, c.reserveEnv.now, cal);
      Holds(v1, q, c, cal);
      HoldsExactly(r, v1, o, q, c, cal);
    }
  }

  lemma UndoneFails(r: Repo, v: Versioned<W.Wallet>, o: Operation, c: Call, cal: W.Calendar)
    ensures forall s, hold :: Compensate(s, v, o, hold, c, cal).verdict.BillingFailed?
  {
    hide W.Attempt, FailedPreflight;
  }

  lemma SameMoney(w: W.Wallet, v: W.Wallet, world: Id, at: Time, cal: W.Calendar)
    requires v == w.(quotes := v.quotes)
    ensures W.Available(v) == W.Available(w)
    ensures W.BudgetAvailable(v, world, at, cal) == W.BudgetAvailable(w, world, at, cal)
  {
  }

  lemma HoldsExactly(r: Repo, v: Versioned<W.Wallet>, o: Operation, q: W.Quote, c: Call, cal: W.Calendar)
    requires OnFile(r, o, c) && o.session.None? && c.fault.NoFault?
    requires Sound(v.value) && Fresh(v.value, c.reserveEnv) && q in v.value.quotes
    ensures Hold(r, v, o, q, c, cal).verdict.Woken? <==>
              o.phase.Requested? && c.reserveEnv.now <= q.expiresAt
              && (HeldUnder(v.value, c.key) || Affordable(v.value, q.world, HoldFor(q.rate, WAKE_SECONDS), c.reserveEnv.now, cal))
  {
    hide W.Attempt, FailedPreflight, Attached, HoldFor, B.Commit, Affordable, Compensate;
    Holds(v, q, c, cal);
    var m := W.Move(HoldCommand(q.id, c), c.reserveEnv);
    var held, v2 := B.AnswerOf(W.Attempt(v.value, m.command, m.env, cal)), B.Commit(v, m, cal);
    UndoneFails(r, v2, o, c, cal);
    if held.Answered? {
      AttachExactly(r, o, BillingSession(q.id, held.reply.reservation.id));
      assert Hold(r, v, o, q, c, cal) == Attach(r, v2, o, q, held.reply.reservation, c, cal);
      var (r2, attached) := Attached(r, c.account, o.id, BillingSession(q.id, held.reply.reservation.id));
      assert Attach(r, v2, o, q, held.reply.reservation, c, cal).verdict.Woken? <==> attached.Ok?;
    }
  }

  /** The call answers for its own key. */
  ghost predicate OwnAnswer(r: Repo, c: Call)
    requires Target(c) in r.worlds
  {
    var (r1, began) := Begins(r, c);
    began.Ok? && began.value.Some? && began.value.value.key == c.key && Target(c) in r1.worlds
  }

  /** A call struck by nothing succeeds exactly when its World has no price, or the wake it begins or finds
      has a session, or that wake is in its first phase and the money steps succeed. Whether the wake still
      lives makes no difference. */
  lemma WokenExactly(r: Repo, v: Versioned<W.Wallet>, c: Call, cal: W.Calendar)
    requires Prepared(r, v, c) && Target(c) in r.worlds && c.fault.NoFault? && OwnAnswer(r, c)
    ensures var (r1, began) := Begins(r, c);
            var o, w := began.value.value, r1.worlds[Target(c)];
            var rate := c.rates(w.profile);
            Saga(r, v, c, cal).verdict.Woken? <==>
              rate.None? || o.session.Some? || (o.phase.Requested? && Payable(v.value, w, rate.value, c, cal))
  {
    hide Pay, Consistent, PlanWake, Sound, Fresh, DeadUnder, Payable;
    BegunWake(r, c);
    var (r1, began) := Begins(r, c);
    var rate := c.rates(r1.worlds[Target(c)].profile);
    if rate.Some? && began.value.value.session.None? {
      PaysExactly(r1, v, began.value.value, r1.worlds[Target(c)], rate.value, c, cal);
    }
  }

  /** Every success under the call's own key, paid now, paid before or free: it is dispatched, and the
      operation answered lives exactly when the key is not that of a wake that is over. */
  lemma SuccessLivesExactly(r: Repo, v: Versioned<W.Wallet>, c: Call, cal: W.Calendar)
    requires Prepared(r, v, c) && Target(c) in r.worlds && OwnAnswer(r, c)
    requires Saga(r, v, c, cal).verdict.Woken?
    ensures var e := Saga(r, v, c, cal);
            e.dispatched && (Live(e.verdict.operation) <==> !DeadUnder(r, c))
  {
    hide Pay, Consistent, PlanWake, Sound, Fresh, DeadUnder;
    BegunWake(r, c);
    var (r1, began) := Begins(r, c);
    if c.rates(r1.worlds[Target(c)].profile).Some? && began.value.value.session.None? {
      SuccessAttaches(r, v, c, cal);
    }
  }

  /** A retry of a wake that is over but has its session changes nothing, and is answered success. */
  lemma DeadSessionIsAnswered(r: Repo, v: Versioned<W.Wallet>, c: Call, cal: W.Calendar)
    requires Consistent(r) && OwnKey(r, c) && Target(c) in r.worlds && c.permitted && c.storageOpen && DeadUnder(r, c)
    requires r.operations[r.commands[CommandKey(c.account, c.key)]].session.Some?
    ensures var o := r.operations[r.commands[CommandKey(c.account, c.key)]];
            Saga(r, v, c, cal) == Ended(r, v, Woken(o), true) && !Live(o)
  {
    DeadFound(r, c);
    hide Pay, Consistent, OwnKey;
  }

  lemma DeadFound(r: Repo, c: Call)
    requires Consistent(r) && OwnKey(r, c) && Target(c) in r.worlds && c.permitted && c.storageOpen && DeadUnder(r, c)
    ensures var o := r.operations[r.commands[CommandKey(c.account, c.key)]];
            Begins(r, c) == (r, Ok(Some(o))) && o.key == c.key && o.id == r.commands[CommandKey(c.account, c.key)]
  {
    assert Filed(r) by { Unfold(r); }
    hide Consistent;
    FoundAgain(r, c, r.operations[r.commands[CommandKey(c.account, c.key)]]);
  }

  /** A retry under the key of a wake that is over, but never left its first phase or got a session, takes
      the money of a wake and is answered success: a new hold is active on an operation that stays over,
      and its World carries the session in the status it had. */
  lemma DeadWakeTakesMoney(r: Repo, v: Versioned<W.Wallet>, c: Call, cal: W.Calendar)
    requires Prepared(r, v, c) && Target(c) in r.worlds && c.fault.NoFault? && c.permitted && c.storageOpen
    requires DeadUnder(r, c)
    requires var o := r.operations[r.commands[CommandKey(c.account, c.key)]]; o.phase.Requested? && o.session.None?
    requires c.rates(r.worlds[Target(c)].profile).Some?
    requires Payable(v.value, r.worlds[Target(c)], c.rates(r.worlds[Target(c)].profile).value, c, cal)
    requires !HeldUnder(v.value, c.key)
    ensures var e := Saga(r, v, c, cal);
            && e.verdict.Woken? && e.dispatched && !Live(e.verdict.operation) && ActiveUnder(e.wallet.value, c.key)
            && e.verdict.operation.id == r.commands[CommandKey(c.account, c.key)]
            && e.verdict.operation.id in e.worlds.operations && e.worlds.operations[e.verdict.operation.id] == e.verdict.operation
            && Target(c) in e.worlds.worlds && e.worlds.worlds[Target(c)].session.Some?
            && e.worlds.worlds[Target(c)].session == e.verdict.operation.session
            && e.worlds.worlds[Target(c)].status == r.worlds[Target(c)].status
  {
    hide Pay, PlanWake, Sound, Fresh, Payable, HoldFor, Begins, Saga, Consistent, OwnKey, DeadUnder, Affordable;
    hide W.Available, HeldRate, HeldWorld;
    DeadFound(r, c);
    WokenExactly(r, v, c, cal);
    SuccessAttaches(r, v, c, cal);
    var e := Saga(r, v, c, cal);
    var q, h :| PaidWith(e.worlds, e.wallet.value, e.verdict.operation, c, q, h)
                && ((forall x :: x in v.value.reservations ==> x.key != HoldKeyFor(c.key)) ==> HeldFor(h, q));
    assert h.status.Active? && h in e.wallet.value.reservations;
  }

  /** Repeating a successful call under its key, with any identifiers and clocks, changes nothing at all. */
  lemma RepeatChangesNothing(r: Repo, v: Versioned<W.Wallet>, c: Call, again: Call, cal: W.Calendar)
    requires Prepared(r, v, c) && Target(c) in r.worlds
    requires var (r1, began) := Begins(r, c);
             && began.Ok? && began.value.Some? && began.value.value.key == c.key && began.value.value.session.None?
             && Target(c) in r1.worlds && c.rates(r1.worlds[Target(c)].profile).Some?
    requires Saga(r, v, c, cal).verdict.Woken?
    requires again.account == c.account && again.world == c.world && again.key == c.key && again.permitted
    requires again.storageOpen
    requires var e := Saga(r, v, c, cal); Target(c) in e.worlds.worlds && KeyOf(e.worlds.worlds[Target(c)]) == Target(c)
    ensures var e := Saga(r, v, c, cal);
            Saga(e.worlds, e.wallet, again, cal) == Ended(e.worlds, e.wallet, Woken(e.verdict.operation), true)
  {
    var e := Saga(r, v, c, cal);
    SuccessAttaches(r, v, c, cal);
    assert e.worlds.operations[e.verdict.operation.id] == e.verdict.operation && e.verdict.operation.session.Some?;
    FoundAgain(e.worlds, again, e.verdict.operation);
    hide Pay, Consistent, HoldFor, Begins, PaidWith;
  }

  lemma FoundAgain(r: Repo, c: Call, o: Operation)
    requires Target(c) in r.worlds && KeyOf(r.worlds[Target(c)]) == Target(c) && c.permitted && c.storageOpen
    requires CommandKey(c.account, c.key) in r.commands && r.commands[CommandKey(c.account, c.key)] == o.id
    requires o.id in r.operations && r.operations[o.id] == o
    ensures Begins(r, c) == (r, Ok(Some(o)))
  {
  }
}
