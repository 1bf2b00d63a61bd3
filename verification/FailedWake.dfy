/** Closing a failed wake among everybody else's commands. The worker captures the usage and then applies the
    guarantee; it may crash or be refused before, between and after the two, and start again; every other
    command on the wallet may come in between. */
module FailedWake {
  import opened Base
  import opened Money
  import opened Wallet
  import opened Solvency
  import opened Usages
  import opened BalanceGuard

  /** The wallet, and the usage the worker's running call has captured. */
  datatype Shift = Shift(wallet: Wallet, known: Option<Id>)

  datatype Turn =
    | Elsewhere(move: Move)
    | Charge(releasedAt: Time, env: Env)
    | Guarantee(env: Env)
    | Crash

  function ChargeCommand(s: Session, releasedAt: Time): Command {
    CaptureUsage(s.quote, s.reservation, s.startedAt, releasedAt, s.usageKey)
  }

  function TakeTurn(x: Shift, t: Turn, s: Session, cal: Calendar): Shift {
    match t
    case Elsewhere(m) => x.(wallet := Step(x.wallet, m.command, m.env, cal))
    case Charge(releasedAt, env) =>
      var o := Attempt(x.wallet, ChargeCommand(s, releasedAt), env, cal);
      Shift(After(x.wallet, o), if !o.Raise? && o.reply.Used? then Some(o.reply.usage.id) else None)
    case Guarantee(env) =>
      if x.known.None? then x
      else x.(wallet := Step(x.wallet, ApplyGuarantee(x.known.value, false, s.guaranteeKey), env, cal))
    case Crash => x.(known := None)
  }

  function Execute(x: Shift, turns: seq<Turn>, s: Session, cal: Calendar): Shift {
    if |turns| == 0 then x else TakeTurn(Execute(x, turns[..|turns| - 1], s, cal), turns[|turns| - 1], s, cal)
  }

  /** Some turn applied the guarantee. */
  ghost predicate Finishes(x: Shift, turns: seq<Turn>, s: Session, cal: Calendar) {
    exists i :: 0 <= i < |turns| && turns[i].Guarantee? && Execute(x, turns[..i], s, cal).known.Some?
  }

  /** Others leave this session's reservation and usage key alone; the worker charges no more seconds than
      the hold covers. */
  predicate Proper(t: Turn, s: Session, seconds: nat) {
    match t
    case Elsewhere(m) =>
      Respects(m.command, s.reservation, seconds) && !(m.command.CaptureUsage? && m.command.key == s.usageKey)
    case Charge(releasedAt, _) => s.startedAt <= releasedAt && BillableSeconds(releasedAt - s.startedAt) <= seconds
    case _ => true
  }

  ghost predicate FreshTurn(x: Shift, t: Turn) {
    match t
    case Elsewhere(m) => Fresh(x.wallet, m.env)
    case Charge(_, env) => Fresh(x.wallet, env)
    case Guarantee(env) => Fresh(x.wallet, env)
    case Crash => true
  }

  // ----- the usage under the session's key

  lemma UsagesElsewhere(w: Wallet, c: Command, env: Env, cal: Calendar, key: string)
    requires !(c.CaptureUsage? && c.key == key) && Find(w.usages, UsageKeyed(key)).None?
    ensures Find(Step(w, c, env, cal).usages, UsageKeyed(key)).None?
  {
    hide Attempt;
    if HoldsCommand(c) {
      HoldsUsages(w, c, env, cal);
    } else if PostsOne(c) {
      if Attempt(w, c, env, cal).Save? {
        OnePosted(w, c, env, cal);
      }
    } else if c.ProcessEvent? {
      if Attempt(w, c, env, cal).Save? {
        EventWrites(w, c, env, cal);
      }
    } else {
      NothingPosted(w, c, env, cal);
    }
  }

  lemma HoldsUsages(w: Wallet, c: Command, env: Env, cal: Calendar)
    requires HoldsCommand(c)
    ensures forall u :: u in Step(w, c, env, cal).usages ==> u in w.usages || (c.CaptureUsage? && u.key == c.key)
  {
    hide Available, PlanGuard, BudgetAvailable, GuardMinutes, GuardPercents, GuardDecision, Put, ChargeFor, HoldFor;
    hide BillableSeconds;
  }

  lemma FoundStays(us: seq<Usage>, vs: seq<Usage>, key: string)
    requires us <= vs && Find(us, UsageKeyed(key)).Some?
    ensures Find(vs, UsageKeyed(key)) == Find(us, UsageKeyed(key))
  {
    var i, j := FirstIndex(us, UsageKeyed(key)), FirstIndex(vs, UsageKeyed(key));
    assert vs[i] == us[i];
    assert forall k :: 0 <= k < i ==> vs[k] == us[k];
  }

  ghost predicate Returned(w: Wallet, usage: Id) { exists e :: e in w.entries && GuaranteeOf(usage)(e) }

  /** Before the charge the hold covers it; after the charge there is one usage under the key, the worker
      knows no other, and once the guarantee was applied the ledger shows it. */
  ghost predicate Staged(x: Shift, s: Session, q: Quote, seconds: nat, finished: bool) {
    && Sound(x.wallet) && Accounted(x.wallet)
    && match Find(x.wallet.usages, UsageKeyed(s.usageKey))
       case None => Covered(x.wallet, s.reservation, q, seconds) && x.known.None? && !finished
       case Some(u) =>
         u.reservation == s.reservation && (x.known.Some? ==> x.known.value == u.id) && (finished ==> Returned(x.wallet, u.id))
  }

  /** A command of anybody, once the usage is there. */
  lemma ChargedStays(x: Shift, c: Command, env: Env, s: Session, q: Quote, seconds: nat, finished: bool, cal: Calendar)
    requires Staged(x, s, q, seconds, finished) && Fresh(x.wallet, env)
    requires Find(x.wallet.usages, UsageKeyed(s.usageKey)).Some?
    ensures Staged(x.(wallet := Step(x.wallet, c, env, cal)), s, q, seconds, finished)
    ensures Find(Step(x.wallet, c, env, cal).usages, UsageKeyed(s.usageKey)) == Find(x.wallet.usages, UsageKeyed(s.usageKey))
  {
    var v := Step(x.wallet, c, env, cal);
    AttemptGood(x.wallet, c, env, cal);
    AttemptAccounted(x.wallet, c, env, cal);
    hide Attempt, Sound, Accounted;
    FoundStays(x.wallet.usages, v.usages, s.usageKey);
    if finished {
      var u := Find(x.wallet.usages, UsageKeyed(s.usageKey)).value;
      var e :| e in x.wallet.entries && GuaranteeOf(u.id)(e);
      assert e in v.entries;
    }
  }

  lemma ElsewhereKeeps(x: Shift, m: Move, s: Session, q: Quote, seconds: nat, finished: bool, cal: Calendar)
    requires Staged(x, s, q, seconds, finished) && Fresh(x.wallet, m.env) && Proper(Elsewhere(m), s, seconds)
    ensures Staged(TakeTurn(x, Elsewhere(m), s, cal), s, q, seconds, finished)
  {
    hide Attempt;
    if Find(x.wallet.usages, UsageKeyed(s.usageKey)).Some? {
      ChargedStays(x, m.command, m.env, s, q, seconds, finished, cal);
    } else {
      hide Sound, Accounted, Covered, Respects;
      assert Sound(Step(x.wallet, m.command, m.env, cal)) by { AttemptGood(x.wallet, m.command, m.env, cal); }
      AttemptAccounted(x.wallet, m.command, m.env, cal);
      UsagesElsewhere(x.wallet, m.command, m.env, cal, s.usageKey);
      StepKeepsCover(x.wallet, m.command, m.env, cal, s.reservation, q, seconds);
    }
  }

  lemma ChargeAnswers(w: Wallet, s: Session, releasedAt: Time, env: Env, cal: Calendar)
    requires s.startedAt <= releasedAt
    ensures var o := Attempt(w, ChargeCommand(s, releasedAt), env, cal);
            && o == DoCaptureUsage(w, s.quote, s.reservation, s.startedAt, releasedAt, s.usageKey, env)
            && match Find(w.usages, UsageKeyed(s.usageKey))
               case Some(u) => o == Return(Used(u))
               case None =>
                 o.Save? ==> o.reply.Used? && o.reply.usage.reservation == s.reservation
                             && Find(o.next.usages, UsageKeyed(s.usageKey)) == Some(o.reply.usage)
  {
    hide ChargeFor, BillableSeconds;
    var o := Attempt(w, ChargeCommand(s, releasedAt), env, cal);
    if o.Save? {
      NewFound(w.usages, o.reply.usage, s.usageKey);
    }
  }

  lemma NewFound(us: seq<Usage>, u: Usage, key: string)
    requires Find(us, UsageKeyed(key)).None? && u.key == key
    ensures Find(us + [u], UsageKeyed(key)) == Some(u)
  {
    var more := us + [u];
    assert UsageKeyed(key)(more[|us|]);
    assert forall k :: 0 <= k < |us| ==> more[k] in us && !UsageKeyed(key)(more[k]);
  }

  lemma ChargeKeeps(x: Shift, t: Turn, s: Session, q: Quote, seconds: nat, finished: bool, cal: Calendar)
    requires Staged(x, s, q, seconds, finished) && t.Charge? && FreshTurn(x, t) && Proper(t, s, seconds)
    requires q.id == s.quote
    ensures Staged(TakeTurn(x, t, s, cal), s, q, seconds, finished)
  {
    var w, c := x.wallet, ChargeCommand(s, t.releasedAt);
    ChargeAnswers(w, s, t.releasedAt, t.env, cal);
    assert Sound(Step(w, c, t.env, cal)) by { AttemptGood(w, c, t.env, cal); }
    AttemptAccounted(w, c, t.env, cal);
    hide Attempt, DoCaptureUsage, Sound, Accounted, Covered, BillableSeconds;
    if Find(w.usages, UsageKeyed(s.usageKey)).None? {
      CoverPays(w, s.reservation, q, seconds, s.startedAt, t.releasedAt, s.usageKey, t.env);
    }
  }

  lemma GuaranteeKeeps(x: Shift, t: Turn, s: Session, q: Quote, seconds: nat, finished: bool, cal: Calendar)
    requires Staged(x, s, q, seconds, finished) && t.Guarantee? && FreshTurn(x, t)
    ensures Staged(TakeTurn(x, t, s, cal), s, q, seconds, finished || x.known.Some?)
  {
    if x.known.Some? {
      var c := ApplyGuarantee(x.known.value, false, s.guaranteeKey);
      ChargedStays(x, c, t.env, s, q, seconds, finished, cal);
      GuaranteeReturns(x.wallet, x.known.value, s.guaranteeKey, t.env, cal);
      hide Attempt, Sound, Accounted, Returned;
    }
  }

  lemma GuaranteeReturns(w: Wallet, usage: Id, key: string, env: Env, cal: Calendar)
    requires exists u :: u in w.usages && u.id == usage
    ensures Returned(Step(w, ApplyGuarantee(usage, false, key), env, cal), usage)
  {
    var o := DoGuarantee(w, usage, false, key, env);
    assert Attempt(w, ApplyGuarantee(usage, false, key), env, cal) == o;
    var u :| u in w.usages && u.id == usage;
    assert UsageIs(usage)(u);
    assert o.reply.entry in After(w, o).entries && GuaranteeOf(usage)(o.reply.entry);
  }

  lemma TurnKeeps(x: Shift, t: Turn, s: Session, q: Quote, seconds: nat, finished: bool, cal: Calendar)
    requires Staged(x, s, q, seconds, finished) && FreshTurn(x, t) && Proper(t, s, seconds) && q.id == s.quote
    ensures Staged(TakeTurn(x, t, s, cal), s, q, seconds, finished || (t.Guarantee? && x.known.Some?))
  {
    match t
    case Elsewhere(m) => ElsewhereKeeps(x, m, s, q, seconds, finished, cal);
    case Charge(_, _) => ChargeKeeps(x, t, s, q, seconds, finished, cal);
    case Guarantee(_) => GuaranteeKeeps(x, t, s, q, seconds, finished, cal);
    case Crash =>
  }

  ghost predicate ProperRun(x: Shift, turns: seq<Turn>, s: Session, seconds: nat, cal: Calendar) {
    forall i :: 0 <= i < |turns| ==> Proper(turns[i], s, seconds) && FreshTurn(Execute(x, turns[..i], s, cal), turns[i])
  }

  lemma {:induction false} RunStaged(x: Shift, turns: seq<Turn>, s: Session, q: Quote, seconds: nat, cal: Calendar)
    requires Staged(x, s, q, seconds, false) && ProperRun(x, turns, s, seconds, cal) && q.id == s.quote
    ensures Staged(Execute(x, turns, s, cal), s, q, seconds, Finishes(x, turns, s, cal))
  {
    hide Staged, TakeTurn, Proper, FreshTurn;
    if |turns| == 0 {
      assert !Finishes(x, turns, s, cal);
    } else {
      var n := |turns| - 1;
      var before := turns[..n];
      assert forall i :: 0 <= i <= n ==> before[..i] == turns[..i];
      RunStaged(x, before, s, q, seconds, cal);
      TurnKeeps(Execute(x, before, s, cal), turns[n], s, q, seconds, Finishes(x, before, s, cal), cal);
      FinishesLast(x, turns, s, cal);
    }
  }

  lemma FinishesLast(x: Shift, turns: seq<Turn>, s: Session, cal: Calendar)
    requires |turns| > 0
    ensures var n := |turns| - 1;
            Finishes(x, turns, s, cal) <==>
              Finishes(x, turns[..n], s, cal) || (turns[n].Guarantee? && Execute(x, turns[..n], s, cal).known.Some?)
  {
    hide Execute;
    var n := |turns| - 1;
    assert forall i :: 0 <= i <= n ==> turns[..n][..i] == turns[..i];
    if Finishes(x, turns[..n], s, cal) {
      var i :| 0 <= i < n && turns[..n][i].Guarantee? && Execute(x, turns[..n][..i], s, cal).known.Some?;
      assert turns[i].Guarantee? && Execute(x, turns[..i], s, cal).known.Some?;
    }
    if Finishes(x, turns, s, cal) {
      var i :| 0 <= i < |turns| && turns[i].Guarantee? && Execute(x, turns[..i], s, cal).known.Some?;
      assert i < n ==> turns[..n][i].Guarantee? && Execute(x, turns[..n][..i], s, cal).known.Some?;
    }
  }

  /** The ledger lines that are not about a usage's charge or guarantee. */
  function LineElsewhere(u: Usage): Entry -> int {
    (e: Entry) => if e.id == u.charge || GuaranteeOf(u.id)(e) then 0 else e.amount
  }

  lemma {:induction false} LinesSplit(entries: seq<Entry>, u: Usage)
    ensures Sum(entries, AmountOf()) == Sum(entries, LineOf(u)) + Sum(entries, LineElsewhere(u))
  {
    if |entries| > 0 {
      LinesSplit(entries[..|entries| - 1], u);
    }
  }

  /** Whatever everybody else does to the wallet, and however often the worker crashes and starts again: once
      a guarantee was applied, there is one usage under the session's key, its reservation is captured, its
      charge and its guarantee cancel, and the balance is what the other lines sum to. */
  lemma FailedWakeCostsNothing(w: Wallet, turns: seq<Turn>, s: Session, q: Quote, seconds: nat, cal: Calendar)
    requires Sound(w) && Accounted(w) && Find(w.usages, UsageKeyed(s.usageKey)).None?
    requires q.id == s.quote && Covered(w, s.reservation, q, seconds)
    requires ProperRun(Shift(w, None), turns, s, seconds, cal) && Finishes(Shift(w, None), turns, s, cal)
    ensures var v := Execute(Shift(w, None), turns, s, cal).wallet;
            && Sound(v) && Accounted(v)
            && exists u :: u in v.usages && u.key == s.usageKey && u.reservation == s.reservation
                           && (forall o :: o in v.usages && o.key == s.usageKey ==> o == u)
                           && Sum(v.entries, LineOf(u)) == 0 && Balance(v) == Sum(v.entries, LineElsewhere(u))
                           && (exists r :: r in v.reservations && r.id == s.reservation && r.status.Captured?)
  {
    var x := Shift(w, None);
    RunStaged(x, turns, s, q, seconds, cal);
    hide Execute, ProperRun, Finishes, Covered;
    var v := Execute(x, turns, s, cal).wallet;
    var u := Find(v.usages, UsageKeyed(s.usageKey)).value;
    UsageNet(v, u);
    LinesSplit(v.entries, u);
    OnlyUsage(v, u);
    assert ChargedOnce(v, u);
  }

  lemma OnlyUsage(w: Wallet, u: Usage)
    requires WfUsages(w.usages) && u in w.usages
    ensures forall o :: o in w.usages && o.key == u.key ==> o == u
  {
    forall o | o in w.usages && o.key == u.key ensures o == u {
      var i :| 0 <= i < |w.usages| && w.usages[i] == o;
      var j :| 0 <= j < |w.usages| && w.usages[j] == u;
      assert UsageKey()(w.usages[i]) == UsageKey()(w.usages[j]);
    }
  }
}
