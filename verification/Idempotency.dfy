/** A keyed billing command that was saved once is never applied again, whatever happens in between. */
module Idempotency {
  import opened Base
  import opened Money
  import opened Wallet
  import opened Solvency

  /** Commands that a key, an event, a usage or a reservation makes one-time. */
  predicate OneTime(c: Command) {
    !c.Protect? && !c.SetBudget? && !c.AttachCheckout? && !c.ReconcileCheckout? && !c.RecordRefund?
  }

  /** The trace the command leaves for good. */
  ghost predicate Marked(w: Wallet, c: Command)
    requires OneTime(c)
  {
    match c
    case CreateQuote(_, _, _, key) => exists q :: q in w.quotes && q.key == key
    case ReserveForWake(_, key) => exists r :: r in w.reservations && r.key == key
    case Reserve(_, _, key, _, _) => exists r :: r in w.reservations && r.key == key
    case CreditWallet(_, _, key) => exists e :: e in w.entries && e.key == key
    case ChargeStorage(_, _, _, key) => exists e :: e in w.entries && e.key == key
    case Capture(_, _, key) => exists e :: e in w.entries && e.key == key
    case ApplySupport(_, _, _, _, key) => exists e :: e in w.entries && e.key == key
    case Release(id) => exists r :: r in w.reservations && r.id == id && r.status.Released?
    case ApplyGuarantee(usage, _, _) => exists e :: e in w.entries && GuaranteeOf(usage)(e)
    case ApplyAvailability(usage, from, until, _) => exists e :: e in w.entries && AvailabilityFor(OfInterval(usage, from, until))(e)
    case CaptureUsage(_, _, _, _, key) => exists u :: u in w.usages && u.key == key
    case StartDeposit(_, _, _, key) => exists d :: d in w.deposits && d.key == key
    case ProcessEvent(event, _, _, _, _, _) => exists e :: e in w.events && e.id == event
  }

  lemma CreditsMark(w: Wallet, c: Command, env: Env, cal: Calendar)
    requires PostsOne(c) && Attempt(w, c, env, cal).Save?
    ensures Marked(Attempt(w, c, env, cal).next, c)
  {
    hide Available, ChargeFor, HalfUp;
    var o := Attempt(w, c, env, cal);
    assert o.reply.entry in o.next.entries;
  }

  lemma SavesMark(w: Wallet, c: Command, env: Env, cal: Calendar)
    requires OneTime(c) && Attempt(w, c, env, cal).Save?
    ensures Marked(Attempt(w, c, env, cal).next, c)
  {
    hide Available, BudgetAvailable, Complete, Reverse, ChargeFor, HoldFor, HalfUp, BillableSeconds;
    var o := Attempt(w, c, env, cal);
    if PostsOne(c) {
      OnePosted(w, c, env, cal);
      CreditsMark(w, c, env, cal);
    } else if c.Release? {
      var r := Find(w.reservations, ReservationIs(c.reservation)).value;
      var i :| 0 <= i < |w.reservations| && w.reservations[i] == r;
      assert o.next.reservations[i] == r.(status := Released);
    } else if c.CreateQuote? {
      assert o.reply.quote in o.next.quotes;
    } else if c.ReserveForWake? || c.Reserve? {
      assert o.reply.reservation in o.next.reservations;
    } else if c.CaptureUsage? {
      assert o.reply.usage in o.next.usages;
    } else if c.StartDeposit? {
      assert o.reply.deposit in o.next.deposits;
    } else if c.ProcessEvent? {
      assert o.reply.event in o.next.events;
    } else {
      assert o.reply.entry in o.next.entries;
    }
  }

  lemma MarksStay(w: Wallet, v: Wallet, c: Command)
    requires OneTime(c) && Marked(w, c) && Evolves(w, v)
    ensures Marked(v, c)
  {
    assert forall e :: e in w.entries ==> e in v.entries;
    assert forall q :: q in w.quotes ==> q in v.quotes;
    assert forall u :: u in w.usages ==> u in v.usages;
    assert forall e :: e in w.events ==> e in v.events;
    if c.ReserveForWake? || c.Reserve? || c.Release? {
      var r :| r in w.reservations && (if c.Release? then r.id == c.reservation && r.status.Released? else r.key == c.key);
      var i :| 0 <= i < |w.reservations| && w.reservations[i] == r;
      assert Continues(r, v.reservations[i]) && v.reservations[i] in v.reservations;
    } else if c.StartDeposit? {
      var d :| d in w.deposits && d.key == c.key;
      var i :| 0 <= i < |w.deposits| && w.deposits[i] == d;
      assert SameContribution(d, v.deposits[i]) && v.deposits[i] in v.deposits;
    }
  }

  lemma MarkedIsFree(w: Wallet, c: Command, env: Env, cal: Calendar)
    requires WellFormed(w) && OneTime(c) && Marked(w, c)
    ensures !Attempt(w, c, env, cal).Save?
  {
    hide Available, BudgetAvailable, Complete, Reverse;
    if c.Release? {
      var r :| r in w.reservations && r.id == c.reservation && r.status.Released?;
      var found := Find(w.reservations, ReservationIs(c.reservation)).value;
      assert ReservationId()(found) == ReservationId()(r);
    }
  }

  /** Repeating a saved one-time command, after any run of other commands, changes nothing. */
  lemma RepeatChangesNothing(w: Wallet, c: Command, env: Env, moves: seq<Move>, again: Env, cal: Calendar)
    requires Sound(w) && Fresh(w, env) && OneTime(c) && Attempt(w, c, env, cal).Save?
    requires FreshMoves(Step(w, c, env, cal), moves, cal)
    ensures var v := Run(Step(w, c, env, cal), moves, cal);
            Step(v, c, again, cal) == v
  {
    hide Attempt;
    var v := Step(w, c, env, cal);
    AttemptGood(w, c, env, cal);
    SavesMark(w, c, env, cal);
    RunSound(v, moves, cal);
    MarksStay(v, Run(v, moves, cal), c);
    MarkedIsFree(Run(v, moves, cal), c, again, cal);
  }

  /** Setting a budget is not one-time: it is repeated freely exactly while its key is the one on record.
      A later budget of the same World replaces the key. */
  lemma BudgetRepeatsExactly(w: Wallet, world: Id, limit: int, key: string, env: Env, cal: Calendar)
    requires limit > 0
    ensures Step(w, SetBudget(world, limit, key), env, cal) == w <==> exists b :: b in w.budgets && b.key == key
  {
    var o := DoSetBudget(w, world, limit, key, env);
    if Find(w.budgets, BudgetKeyed(key)).None? {
      var b := o.reply.budget;
      var current := Find(w.budgets, BudgetOf(world));
      if current.Some? {
        var i :| 0 <= i < |w.budgets| && w.budgets[i] == current.value;
        assert o.next.budgets[i] == b && w.budgets[i].key != key;
      } else {
        assert |o.next.budgets| == |w.budgets| + 1;
      }
    }
  }

  lemma FirstBudget(w: Wallet, world: Id, limit: nat, key: string, env: Env, cal: Calendar)
    requires w.budgets == [] && limit > 0
    ensures Step(w, SetBudget(world, limit, key), env, cal) == w.(budgets := [Budget(env.id, world, limit, key, env.now)])
  {
  }

  lemma NextBudget(w: Wallet, world: Id, limit: nat, key: string, env: Env, cal: Calendar)
    requires |w.budgets| == 1 && w.budgets[0].world == world && w.budgets[0].key != key && limit > 0
    ensures Step(w, SetBudget(world, limit, key), env, cal)
         == w.(budgets := [Budget(w.budgets[0].id, world, limit, key, env.now)])
  {
    assert Find(w.budgets, BudgetOf(world)) == Some(w.budgets[0]);
    var b := Budget(w.budgets[0].id, world, limit, key, env.now);
    assert Substitute(w.budgets, BudgetOf(world), b) == [b];
  }

  /** So an old key can come back: first, second, first again ends with the first limit. */
  lemma OldBudgetKeyReturns(world: Id, first: nat, second: nat, e1: Env, e2: Env, e3: Env, cal: Calendar)
    requires 0 < first && 0 < second && first != second
    ensures var a := Step(EmptyWallet, SetBudget(world, first, "a"), e1, cal);
            var b := Step(a, SetBudget(world, second, "b"), e2, cal);
            var c := Step(b, SetBudget(world, first, "a"), e3, cal);
            |a.budgets| == |b.budgets| == |c.budgets| == 1
            && a.budgets[0].limit == first && b.budgets[0].limit == second && c.budgets[0].limit == first
  {
    hide Step;
    var a := Step(EmptyWallet, SetBudget(world, first, "a"), e1, cal);
    FirstBudget(EmptyWallet, world, first, "a", e1, cal);
    var b := Step(a, SetBudget(world, second, "b"), e2, cal);
    NextBudget(a, world, second, "b", e2, cal);
    NextBudget(b, world, first, "a", e3, cal);
  }
}
