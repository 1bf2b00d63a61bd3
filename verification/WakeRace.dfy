/** Any number of callers racing to wake one World under one key, among all other clients of the worlds
    repository and all other commands on the wallet, end up with one operation, one quote and one hold, and
    every caller that finishes is answered the same billing session. */
module WakeRace {
  import opened Base
  import opened Money
  import W = Wallet
  import opened Solvency
  import opened WorldModel
  import opened WorldPlans
  import opened WorldLaws
  import opened WorldProtocol
  import opened RecoveryWindow
  import WorldService
  import opened WakeSaga

  /** How far a call has come: under way; its attach lost to another write; raised and not yet undone; its hold
      given back; its operation failed; or answered. */
  datatype Stage = Open | Lost | Failing | Undoing | Over | Answered(session: BillingSession)

  /** What one caller has obtained so far. */
  datatype Caller = Caller(operation: Option<Id>, quote: Option<Id>, hold: Option<Id>, stage: Stage)

  datatype Race = Race(system: System, wallet: W.Wallet, callers: map<nat, Caller>)

  /** The steps of a call, each taken once, and everything anybody else does. Before it attaches or fails an
      operation a caller reads it and its World, which is an OtherClient turn. Strike is an exception of a
      store; refusals raise by themselves. */
  datatype Turn =
    | Ask(caller: nat, id: Id, now: Time)
    | Price(caller: nat, world: World, rate: int, env: W.Env)
    | Reserve(caller: nat, env: W.Env)
    | Attach(caller: nat)
    | LookAgain(caller: nat)
    | Strike(caller: nat)
    | GiveBack(caller: nat, env: W.Env)
    | FailWake(caller: nat)
    | OtherClient(event: Event)
    | OtherCommand(move: W.Move)

  function CallerOf(s: Race, c: nat): Caller { if c in s.callers then s.callers[c] else Caller(None, None, None, Open) }

  function AskIntent(key: string, id: Id, now: Time): Intent { AskWake(true, true, id, key, now) }

  /** The operation and World an attach of this caller would write. */
  function Attaching(s: Race, c: nat): Option<(Operation, World, BillingSession)> {
    var mine, m := CallerOf(s, c), MemoryOf(s.system, c);
    if !mine.stage.Open? || mine.operation.None? || mine.quote.None? || mine.hold.None? then None else
    if m.operation.None? || m.world.None? || m.operation.value.id != mine.operation.value then None else
    if KeyFor(m.operation.value) != KeyOf(m.world.value) then None else
    Some((m.operation.value, m.world.value, BillingSession(mine.quote.value, mine.hold.value)))
  }

  /** The attach returns: the operation read carries the session, or the save is accepted. */
  predicate Attaches(r: Repo, p: Plan) {
    p.Done? || (p.SaveOp? && SaveOperation(r, p.saved, p.expectedOp, p.write).1.Ok?)
  }

  /** The save was lost to another write, so that the caller looks again. */
  predicate Loses(r: Repo, p: Plan) {
    p.SaveOp? && SaveOperation(r, p.saved, p.expectedOp, p.write).1 == Err(Conflict)
  }

  /** What a turn does to the worlds repository. */
  function EventOf(s: Race, t: Turn, account: Id, key: string): Option<Event> {
    match t
    case Ask(c, id, now) =>
      var mine, m := CallerOf(s, c), MemoryOf(s.system, c);
      if !mine.stage.Open? || mine.operation.Some? || m.world.None? || m.world.value.account != account then None
      else Some(Act(c, AskIntent(key, id, now)))
    case Attach(c) =>
      var a := Attaching(s, c);
      if a.None? then None else Some(Act(c, AttachSession(a.value.2)))
    case FailWake(c) =>
      var mine, m := CallerOf(s, c), MemoryOf(s.system, c);
      if !mine.stage.Undoing? || mine.operation.None? || m.operation.None? || m.operation.value.id != mine.operation.value then None
      else Some(Act(c, FailPreflight))
    case OtherClient(event) => Some(event)
    case _ => None
  }

  /** What a turn does to the wallet. */
  function MoveOf(s: Race, t: Turn, key: string): Option<W.Move> {
    match t
    case Price(c, w, rate, env) =>
      if !CallerOf(s, c).stage.Open? || CallerOf(s, c).quote.Some? then None
      else Some(W.Move(W.CreateQuote(w.id, w.profile, rate, QuoteKeyFor(key)), env))
    case Reserve(c, env) =>
      var mine := CallerOf(s, c);
      if !mine.stage.Open? || mine.quote.None? || mine.hold.Some? then None
      else Some(W.Move(W.ReserveForWake(mine.quote.value, HoldKeyFor(key)), env))
    case GiveBack(c, env) =>
      var mine := CallerOf(s, c);
      if !mine.stage.Failing? || mine.hold.None? then None else Some(W.Move(W.Release(mine.hold.value), env))
    case OtherCommand(m) => Some(m)
    case _ => None
  }

  function Reply(s: Race, m: W.Move, cal: W.Calendar): W.Outcome { W.Attempt(s.wallet, m.command, m.env, cal) }

  /** What the turn's caller knows afterwards. */
  function Learnt(s: Race, t: Turn, account: Id, key: string, cal: W.Calendar): Caller
    requires !t.OtherClient? && !t.OtherCommand?
  {
    var mine, m, e := CallerOf(s, t.caller), MoveOf(s, t, key), EventOf(s, t, account, key);
    match t
    case Ask(c, _, _) =>
      if e.None? then mine else
      var answer := WorldService.Answer(s.system.repo, PlanFor(MemoryOf(s.system, c), e.value.intent));
      if answer.Ok? && answer.value.Some? && answer.value.value.key == key
      then mine.(operation := Some(answer.value.value.id)) else mine
    case Price(_, _, _, _) =>
      if m.None? then mine else
      var o := Reply(s, m.value, cal);
      if o.Raise? || !o.reply.Quoted? then mine.(stage := Failing) else mine.(quote := Some(o.reply.quote.id))
    case Reserve(_, _) =>
      if m.None? then mine else
      var o := Reply(s, m.value, cal);
      if o.Raise? || !o.reply.Held? then mine.(stage := Failing) else mine.(hold := Some(o.reply.reservation.id))
    case Attach(c) =>
      var a := Attaching(s, c);
      if a.None? then mine else
      var p := PlanAttach(a.value.0, a.value.1, a.value.2);
      mine.(stage := if Attaches(s.system.repo, p) then Answered(a.value.2) else if Loses(s.system.repo, p) then Lost else Failing)
    case LookAgain(_) =>
      if !mine.stage.Lost? || mine.operation.None? || mine.quote.None? || mine.hold.None? then mine else
      var session := BillingSession(mine.quote.value, mine.hold.value);
      var r := s.system.repo;
      mine.(stage := if mine.operation.value in r.operations && r.operations[mine.operation.value].session == Some(session)
                     then Answered(session) else Failing)
    case Strike(_) => if mine.stage.Open? || mine.stage.Lost? then mine.(stage := Failing) else mine
    case GiveBack(_, _) =>
      if !mine.stage.Failing? || (m.Some? && Reply(s, m.value, cal).Raise?) then mine else mine.(stage := Undoing)
    case FailWake(_) => if e.None? then mine else mine.(stage := Over)
  }

  /** The race of account `account` under `key`. */
  function TakeTurn(s: Race, t: Turn, account: Id, key: string, cal: W.Calendar): Race {
    var e, m := EventOf(s, t, account, key), MoveOf(s, t, key);
    Race(if e.Some? then Next(s.system, e.value) else s.system,
         if m.Some? then W.Step(s.wallet, m.value.command, m.value.env, cal) else s.wallet,
         if t.OtherClient? || t.OtherCommand? then s.callers else s.callers[t.caller := Learnt(s, t, account, key, cal)])
  }

  function RunAll(s: Race, turns: seq<Turn>, account: Id, key: string, cal: W.Calendar): Race {
    if |turns| == 0 then s else TakeTurn(RunAll(s, turns[..|turns| - 1], account, key, cal), turns[|turns| - 1], account, key, cal)
  }

  ghost predicate FreshTurn(s: Race, t: Turn, account: Id, key: string) {
    && (EventOf(s, t, account, key).Some? ==> FreshEvent(s.system, EventOf(s, t, account, key).value))
    && (MoveOf(s, t, key).Some? ==> Fresh(s.wallet, MoveOf(s, t, key).value.env))
  }

  /** The index knows every stored operation under the key. */
  ghost predicate Indexed(r: Repo, account: Id, key: string) {
    forall id :: id in r.operations && r.operations[id].account == account && r.operations[id].key == key ==>
      CommandKey(account, key) in r.commands && r.commands[CommandKey(account, key)] == id
  }

  ghost predicate QuotedAs(w: W.Wallet, key: string, id: Id) {
    exists q :: q in w.quotes && q.id == id && q.key == QuoteKeyFor(key)
  }
  ghost predicate HeldAs(w: W.Wallet, key: string, id: Id) {
    exists h :: h in w.reservations && h.id == id && h.key == HoldKeyFor(key)
  }

  /** A finished caller's session names the quote and the hold under the key, and the operation has it. */
  ghost predicate Finished(s: System, w: W.Wallet, key: string, c: Caller) {
    c.stage.Answered? ==>
      && QuotedAs(w, key, c.stage.session.quote) && HeldAs(w, key, c.stage.session.reservation)
      && c.operation.Some? && c.operation.value in s.used
      && (c.operation.value in s.repo.operations ==> s.repo.operations[c.operation.value].session == Some(c.stage.session))
  }

  ghost predicate Knows(s: System, w: W.Wallet, account: Id, key: string, c: Caller) {
    && (c.operation.Some? ==>
          CommandKey(account, key) in s.repo.commands && s.repo.commands[CommandKey(account, key)] == c.operation.value)
    && (c.quote.Some? ==> QuotedAs(w, key, c.quote.value))
    && (c.hold.Some? ==> HeldAs(w, key, c.hold.value))
    && Finished(s, w, key, c)
  }

  /** A session on an operation somebody has read is the session of the stored operation. */
  ghost predicate SessionsSeen(s: System) {
    forall c :: c in s.memories ==> SessionSeen(s, s.memories[c].operation)
  }

  ghost predicate SessionSeen(s: System, o: Option<Operation>) {
    o.Some? && o.value.session.Some? ==>
      o.value.id in s.used && (o.value.id in s.repo.operations ==> s.repo.operations[o.value.id].session == o.value.session)
  }

  ghost predicate Agreed(s: Race, account: Id, key: string) {
    && Invariant(s.system) && SessionsSeen(s.system) && Sound(s.wallet) && Indexed(s.system.repo, account, key)
    && forall c :: c in s.callers ==> Knows(s.system, s.wallet, account, key, s.callers[c])
  }

  lemma QuotedStays(w: W.Wallet, v: W.Wallet, key: string, id: Id)
    requires Evolves(w, v) && QuotedAs(w, key, id)
    ensures QuotedAs(v, key, id)
  {
    var q :| q in w.quotes && q.id == id && q.key == QuoteKeyFor(key);
    assert q in v.quotes;
  }

  lemma HeldStays(w: W.Wallet, v: W.Wallet, key: string, id: Id)
    requires Evolves(w, v) && HeldAs(w, key, id)
    ensures HeldAs(v, key, id)
  {
    var h :| h in w.reservations && h.id == id && h.key == HoldKeyFor(key);
    var i :| 0 <= i < |w.reservations| && w.reservations[i] == h;
    assert Solvency.Continues(h, v.reservations[i]) && v.reservations[i] in v.reservations;
  }

  lemma EvolvesKnows(s: System, w: W.Wallet, v: W.Wallet, account: Id, key: string, c: Caller)
    requires Evolves(w, v) && Knows(s, w, account, key, c)
    ensures Knows(s, v, account, key, c)
  {
    hide Evolves, QuotedAs, HeldAs;
    if c.quote.Some? { QuotedStays(w, v, key, c.quote.value); }
    if c.hold.Some? { HeldStays(w, v, key, c.hold.value); }
    if c.stage.Answered? {
      QuotedStays(w, v, key, c.stage.session.quote);
      HeldStays(w, v, key, c.stage.session.reservation);
    }
  }

  /** A wallet command, by anybody. */
  lemma WalletMoves(s: Race, v: W.Wallet, o: W.Outcome, account: Id, key: string)
    requires Agreed(s, account, key) && Good(s.wallet, o) && v == W.After(s.wallet, o)
    ensures Agreed(s.(wallet := v), account, key)
  {
    hide Invariant, Indexed, Knows, Sound, Evolves;
    if o.Save? {
      forall c | c in s.callers ensures Knows(s.system, v, account, key, s.callers[c]) {
        EvolvesKnows(s.system, s.wallet, v, account, key, s.callers[c]);
      }
    }
  }

  /** Nobody takes a session off an operation or puts another in its place. */
  lemma SavesKeepSession(m: Memory, i: Intent)
    requires PlanFor(m, i).SaveOp?
    ensures m.operation.Some? && PlanFor(m, i).saved.id == m.operation.value.id
    ensures PlanFor(m, i).expectedOp == m.operation.value.version
    ensures m.operation.value.session.Some? ==> PlanFor(m, i).saved.session == m.operation.value.session
  {
    hide EmptySince, IdleElapsed, Propose, Recent;
  }

  lemma SessionStays(s: System, event: Event, id: Id)
    requires Invariant(s) && FreshEvent(s, event) && id in s.used && id in Next(s, event).repo.operations
    ensures id in s.repo.operations
    ensures s.repo.operations[id].session.Some? ==>
              Next(s, event).repo.operations[id].session == s.repo.operations[id].session
  {
    RecallClient(s, event.client);
    assert Filed(s.repo) && IndexExact(s.repo) && s.repo.operations.Keys <= s.used;
    hide Invariant, PlanFor, Apply, MemoryCoherent, Consistent;
    if event.Act? {
      var m := MemoryOf(s, event.client);
      var p := PlanFor(m, event.intent);
      if p.BeginOp? {
        BeginsItself(m, event.intent);
      } else if p.SaveOp? {
        SavesKeepSession(m, event.intent);
        Remembered(s.repo, s.used, m);
      }
      AppliesOnce(s.repo, p);
    }
  }

  lemma Remembered(r: Repo, used: set<Id>, m: Memory)
    requires MemoryCoherent(r, used, m) && m.operation.Some?
    ensures SeenOperation(r, m.operation.value) && m.operation.value.id in used
  {
  }

  lemma SessionsStaySeen(s: System, event: Event)
    requires Invariant(s) && FreshEvent(s, event) && SessionsSeen(s)
    ensures SessionsSeen(Next(s, event))
  {
    var t := Next(s, event);
    assert s.repo.operations.Keys <= s.used <= t.used;
    hide Invariant, FreshEvent, Apply, PlanFor;
    forall c | c in t.memories ensures SessionSeen(t, t.memories[c].operation) {
      var o := t.memories[c].operation;
      if c in s.memories && s.memories[c].operation == o && o.Some? && o.value.session.Some? && o.value.id in t.repo.operations {
        assert SessionSeen(s, o);
        hide Next;
        SessionStays(s, event, o.value.id);
      }
    }
  }

  /** What is stored about one key only grows: an event leaves every caller knowing what it knew. */
  lemma EventKnows(s: System, event: Event, w: W.Wallet, account: Id, key: string, c: Caller)
    requires Invariant(s) && FreshEvent(s, event) && Knows(s, w, account, key, c)
    requires forall x :: x in s.repo.commands ==>
               x in Next(s, event).repo.commands && Next(s, event).repo.commands[x] == s.repo.commands[x]
    ensures Knows(Next(s, event), w, account, key, c)
  {
    assert s.used <= Next(s, event).used;
    hide Invariant, Next, QuotedAs, HeldAs, FreshEvent;
    if c.stage.Answered? && c.operation.value in Next(s, event).repo.operations {
      SessionStays(s, event, c.operation.value);
    }
  }

  /** One action of any client of the worlds repository. */
  lemma ClientMoves(s: Race, event: Event, account: Id, key: string)
    requires Agreed(s, account, key) && FreshEvent(s.system, event)
    ensures Agreed(s.(system := Next(s.system, event)), account, key)
  {
    NextKeeps(s.system, event);
    IndexMoves(s.system, event, account, key);
    SessionsStaySeen(s.system, event);
    hide Invariant, SessionsSeen, Sound, Next, Knows, Indexed, FreshEvent;
    forall c | c in s.callers ensures Knows(Next(s.system, event), s.wallet, account, key, s.callers[c]) {
      EventKnows(s.system, event, s.wallet, account, key, s.callers[c]);
    }
  }

  lemma IndexMoves(s: System, event: Event, account: Id, key: string)
    requires Invariant(s) && FreshEvent(s, event) && Indexed(s.repo, account, key)
    ensures Indexed(Next(s, event).repo, account, key)
    ensures forall c :: c in s.repo.commands ==>
              c in Next(s, event).repo.commands && Next(s, event).repo.commands[c] == s.repo.commands[c]
  {
    RecallClient(s, event.client);
    var r := s.repo;
    assert Consistent(r) && r.operations.Keys <= s.used;
    hide Invariant, MemoryCoherent, PlanFor, Consistent;
    if event.Act? {
      var m := MemoryOf(s, event.client);
      var p := PlanFor(m, event.intent);
      if p.BeginOp? {
        BeginsItself(m, event.intent);
      }
      ActAdvances(r, s.used, m, event.intent);
      assert Filed(r) && IndexExact(r) by { Unfold(r); }
      CommandsStay(r, p);
      hide Apply;
    }
  }

  lemma CommandsStay(r: Repo, p: Plan)
    requires Filed(r) && IndexExact(r)
    ensures forall c :: c in r.commands ==> c in Apply(r, p).commands && Apply(r, p).commands[c] == r.commands[c]
    ensures p.BeginOp? && Apply(r, p) != r ==>
              var c := CommandKey(p.operation.account, p.operation.key);
              c !in r.commands && c in Apply(r, p).commands && Apply(r, p).commands[c] == p.operation.id
  {
    if p.BeginOp? {
      hide Begin;
      BeginWrites(r, p.after, p.operation, p.expected);
    }
  }

  /** The operation a caller is answered under its own key is the one the index names. */
  lemma AnswerIsIndexed(r: Repo, m: Memory, account: Id, key: string, id: Id, now: Time)
    requires Filed(r) && IndexExact(r) && Indexed(r, account, key) && m.world.Some? && m.world.value.account == account
    requires var answer := WorldService.Answer(r, PlanFor(m, AskIntent(key, id, now)));
             answer.Ok? && answer.value.Some? && answer.value.value.key == key
    ensures var s := Apply(r, PlanFor(m, AskIntent(key, id, now)));
            CommandKey(account, key) in s.commands
            && s.commands[CommandKey(account, key)] == WorldService.Answer(r, PlanFor(m, AskIntent(key, id, now))).value.value.id
  {
  }

  /** A caller notes something it now knows. */
  lemma Learns(s: Race, t: Race, account: Id, key: string, c: nat, known: Caller)
    requires Agreed(s, account, key) && t == s.(callers := s.callers[c := known])
    requires Knows(s.system, s.wallet, account, key, known)
    ensures Agreed(t, account, key)
  {
    hide Invariant, Sound, Indexed, Knows;
  }

  lemma NewCaller(s: Race, account: Id, key: string, c: nat)
    requires Agreed(s, account, key)
    ensures Knows(s.system, s.wallet, account, key, CallerOf(s, c))
  {
    hide Invariant, Sound, Indexed, QuotedAs, HeldAs;
  }

  // ----- one turn

  /** Both stores move; the callers know what they knew. */
  lemma StoresMove(s: Race, t: Turn, account: Id, key: string, cal: W.Calendar)
    requires Agreed(s, account, key) && FreshTurn(s, t, account, key)
    ensures Agreed(TakeTurn(s, t, account, key, cal).(callers := s.callers), account, key)
  {
    var e, m := EventOf(s, t, account, key), MoveOf(s, t, key);
    hide Agreed, EventOf, MoveOf, Learnt, W.Attempt, Next;
    var moved := s;
    if m.Some? {
      WalletSteps(s, m.value, account, key, cal);
      moved := s.(wallet := W.Step(s.wallet, m.value.command, m.value.env, cal));
    }
    if e.Some? {
      ClientMoves(moved, e.value, account, key);
    }
  }

  lemma WalletSteps(s: Race, m: W.Move, account: Id, key: string, cal: W.Calendar)
    requires Agreed(s, account, key) && Fresh(s.wallet, m.env)
    ensures Agreed(s.(wallet := W.Step(s.wallet, m.command, m.env, cal)), account, key)
  {
    AttemptGood(s.wallet, m.command, m.env, cal);
    hide W.Attempt;
    WalletMoves(s, W.Step(s.wallet, m.command, m.env, cal), W.Attempt(s.wallet, m.command, m.env, cal), account, key);
  }

  /** Not answered, a caller knows what it knew whatever its stage. */
  lemma StageKnows(s: System, w: W.Wallet, account: Id, key: string, c: Caller, stage: Stage)
    requires Knows(s, w, account, key, c) && !stage.Answered?
    ensures Knows(s, w, account, key, c.(stage := stage))
  {
    hide QuotedAs, HeldAs;
  }

  lemma AskedKnows(s: System, w: W.Wallet, account: Id, key: string, c: Caller, id: Id)
    requires Knows(s, w, account, key, c) && !c.stage.Answered?
    requires CommandKey(account, key) in s.repo.commands && s.repo.commands[CommandKey(account, key)] == id
    ensures Knows(s, w, account, key, c.(operation := Some(id)))
  {
    hide QuotedAs, HeldAs;
  }

  lemma PricedKnows(s: System, w: W.Wallet, account: Id, key: string, c: Caller, id: Id)
    requires Knows(s, w, account, key, c) && QuotedAs(w, key, id)
    ensures Knows(s, w, account, key, c.(quote := Some(id)))
  {
    hide QuotedAs, HeldAs;
  }

  lemma HoldingKnows(s: System, w: W.Wallet, account: Id, key: string, c: Caller, id: Id)
    requires Knows(s, w, account, key, c) && HeldAs(w, key, id)
    ensures Knows(s, w, account, key, c.(hold := Some(id)))
  {
    hide QuotedAs, HeldAs;
  }

  lemma AskLearns(s: Race, t: Turn, account: Id, key: string, cal: W.Calendar)
    requires Agreed(s, account, key) && t.Ask?
    requires var u := TakeTurn(s, t, account, key, cal); Knows(u.system, u.wallet, account, key, CallerOf(s, t.caller))
    ensures var u := TakeTurn(s, t, account, key, cal); Knows(u.system, u.wallet, account, key, Learnt(s, t, account, key, cal))
  {
    hide Knows;
    var e, m := EventOf(s, t, account, key), MemoryOf(s.system, t.caller);
    if e.Some? {
      var r := s.system.repo;
      assert Filed(r) && IndexExact(r);
      var answer := WorldService.Answer(r, PlanFor(m, e.value.intent));
      hide Agreed, Invariant, PlanFor, Apply, WorldService.Answer, Indexed, Sound;
      if answer.Ok? && answer.value.Some? && answer.value.value.key == key {
        assert Indexed(r, account, key) by { KeyIndexed(s, account, key); }
        AnswerIsIndexed(r, m, account, key, t.id, t.now);
        var u := TakeTurn(s, t, account, key, cal);
        assert u.system.repo == Apply(r, PlanFor(m, e.value.intent));
        AskedKnows(u.system, u.wallet, account, key, CallerOf(s, t.caller), answer.value.value.id);
      }
    }
  }

  lemma KeyIndexed(s: Race, account: Id, key: string)
    requires Agreed(s, account, key)
    ensures Indexed(s.system.repo, account, key)
  {
  }

  lemma PriceLearns(s: Race, t: Turn, account: Id, key: string, cal: W.Calendar)
    requires t.Price?
    requires var u := TakeTurn(s, t, account, key, cal); Knows(u.system, u.wallet, account, key, CallerOf(s, t.caller))
    ensures var u := TakeTurn(s, t, account, key, cal); Knows(u.system, u.wallet, account, key, Learnt(s, t, account, key, cal))
  {
    hide Knows, W.Attempt;
    var m, mine := MoveOf(s, t, key), CallerOf(s, t.caller);
    if m.Some? {
      QuotedIsStored(s.wallet, m.value, key, cal);
      var u, o := TakeTurn(s, t, account, key, cal), Reply(s, m.value, cal);
      if o.Raise? || !o.reply.Quoted? {
        StageKnows(u.system, u.wallet, account, key, mine, Failing);
      } else {
        PricedKnows(u.system, u.wallet, account, key, mine, o.reply.quote.id);
      }
    }
  }

  lemma QuotedIsStored(w: W.Wallet, m: W.Move, key: string, cal: W.Calendar)
    requires m.command.CreateQuote? && m.command.key == QuoteKeyFor(key)
    ensures var o := W.Attempt(w, m.command, m.env, cal);
            !o.Raise? && o.reply.Quoted? ==> QuotedAs(W.Step(w, m.command, m.env, cal), key, o.reply.quote.id)
  {
    var o := W.DoCreateQuote(w, m.command.world, m.command.profile, m.command.rate, m.command.key, m.env);
    assert W.Attempt(w, m.command, m.env, cal) == o;
    if !o.Raise? && o.reply.Quoted? {
      assert o.reply.quote in W.After(w, o).quotes;
    }
  }

  lemma ReserveLearns(s: Race, t: Turn, account: Id, key: string, cal: W.Calendar)
    requires t.Reserve?
    requires var u := TakeTurn(s, t, account, key, cal); Knows(u.system, u.wallet, account, key, CallerOf(s, t.caller))
    ensures var u := TakeTurn(s, t, account, key, cal); Knows(u.system, u.wallet, account, key, Learnt(s, t, account, key, cal))
  {
    hide Knows, W.Attempt;
    var m, mine := MoveOf(s, t, key), CallerOf(s, t.caller);
    if m.Some? {
      HeldIsStored(s.wallet, m.value, key, cal);
      var u, o := TakeTurn(s, t, account, key, cal), Reply(s, m.value, cal);
      if o.Raise? || !o.reply.Held? {
        StageKnows(u.system, u.wallet, account, key, mine, Failing);
      } else {
        HoldingKnows(u.system, u.wallet, account, key, mine, o.reply.reservation.id);
      }
    }
  }

  lemma HeldIsStored(w: W.Wallet, m: W.Move, key: string, cal: W.Calendar)
    requires m.command.ReserveForWake? && m.command.key == HoldKeyFor(key)
    ensures var o := W.Attempt(w, m.command, m.env, cal);
            !o.Raise? && o.reply.Held? ==> HeldAs(W.Step(w, m.command, m.env, cal), key, o.reply.reservation.id)
  {
    hide W.Available, W.BudgetAvailable, HoldFor;
    var o := W.DoReserveForWake(w, m.command.quote, m.command.key, m.env, cal);
    assert W.Attempt(w, m.command, m.env, cal) == o;
    if !o.Raise? && o.reply.Held? {
      assert o.reply.reservation in W.After(w, o).reservations;
    }
  }

  /** An attach that returns leaves its session on the stored operation, if there still is one. */
  lemma AttachedStores(s: System, m: Memory, c: nat, session: BillingSession)
    requires Invariant(s) && SessionsSeen(s) && m == MemoryOf(s, c) && m.operation.Some? && m.world.Some?
    requires KeyFor(m.operation.value) == KeyOf(m.world.value)
    requires Attaches(s.repo, PlanAttach(m.operation.value, m.world.value, session))
    ensures var t := Next(s, Act(c, AttachSession(session)));
            var id := m.operation.value.id;
            id in t.used && (id in t.repo.operations ==> t.repo.operations[id].session == Some(session))
  {
    RecallClient(s, c);
    Remembered(s.repo, s.used, m);
    var o, p := m.operation.value, PlanAttach(m.operation.value, m.world.value, session);
    assert PlanFor(m, AttachSession(session)) == p;
    var t := Next(s, Act(c, AttachSession(session)));
    assert t.repo == Apply(s.repo, p);
    assert p.Done? ==> SessionSeen(s, m.operation);
  }

  lemma AttachLearns(s: Race, t: Turn, account: Id, key: string, cal: W.Calendar)
    requires Agreed(s, account, key) && t.Attach?
    requires var u := TakeTurn(s, t, account, key, cal); Knows(u.system, u.wallet, account, key, CallerOf(s, t.caller))
    ensures var u := TakeTurn(s, t, account, key, cal); Knows(u.system, u.wallet, account, key, Learnt(s, t, account, key, cal))
  {
    hide W.Attempt, QuotedAs, HeldAs;
    var a := Attaching(s, t.caller);
    if a.Some? {
      var (o, w, session) := a.value;
      var u := TakeTurn(s, t, account, key, cal);
      if Attaches(s.system.repo, PlanAttach(o, w, session)) {
        AttachedStores(s.system, MemoryOf(s.system, t.caller), t.caller, session);
        hide Agreed, Attaches, PlanAttach, Next;
      } else {
        StageKnows(u.system, u.wallet, account, key, CallerOf(s, t.caller), Learnt(s, t, account, key, cal).stage);
      }
    }
  }

  lemma LookLearns(s: Race, t: Turn, account: Id, key: string, cal: W.Calendar)
    requires Agreed(s, account, key) && t.LookAgain?
    requires var u := TakeTurn(s, t, account, key, cal); Knows(u.system, u.wallet, account, key, CallerOf(s, t.caller))
    ensures var u := TakeTurn(s, t, account, key, cal); Knows(u.system, u.wallet, account, key, Learnt(s, t, account, key, cal))
  {
    assert s.system.repo.operations.Keys <= s.system.used;
    hide Agreed, QuotedAs, HeldAs, W.Attempt;
  }

  lemma UndoLearns(s: Race, t: Turn, account: Id, key: string, cal: W.Calendar)
    requires t.Strike? || t.GiveBack? || t.FailWake?
    requires var u := TakeTurn(s, t, account, key, cal); Knows(u.system, u.wallet, account, key, CallerOf(s, t.caller))
    ensures var u := TakeTurn(s, t, account, key, cal); Knows(u.system, u.wallet, account, key, Learnt(s, t, account, key, cal))
  {
    hide W.Attempt, Knows, Next, W.Step;
    var u, mine, known := TakeTurn(s, t, account, key, cal), CallerOf(s, t.caller), Learnt(s, t, account, key, cal);
    assert known == mine || (known == mine.(stage := known.stage) && !known.stage.Answered?);
    if known != mine {
      StageKnows(u.system, u.wallet, account, key, mine, known.stage);
    }
  }

  lemma TurnAgrees(s: Race, t: Turn, account: Id, key: string, cal: W.Calendar)
    requires Agreed(s, account, key) && FreshTurn(s, t, account, key)
    ensures Agreed(TakeTurn(s, t, account, key, cal), account, key)
  {
    hide Agreed, EventOf, MoveOf, Learnt, Knows, FreshTurn, W.Step, Next;
    StoresMove(s, t, account, key, cal);
    if !t.OtherClient? && !t.OtherCommand? {
      var u := TakeTurn(s, t, account, key, cal);
      NewCaller(u.(callers := s.callers), account, key, t.caller);
      match t {
        case Ask(_, _, _) => AskLearns(s, t, account, key, cal);
        case Price(_, _, _, _) => PriceLearns(s, t, account, key, cal);
        case Reserve(_, _) => ReserveLearns(s, t, account, key, cal);
        case Attach(_) => AttachLearns(s, t, account, key, cal);
        case LookAgain(_) => LookLearns(s, t, account, key, cal);
        case _ => UndoLearns(s, t, account, key, cal);
      }
      Learns(u.(callers := s.callers), u, account, key, t.caller, Learnt(s, t, account, key, cal));
    }
  }

  ghost predicate FreshTurns(s: Race, turns: seq<Turn>, account: Id, key: string, cal: W.Calendar) {
    forall i :: 0 <= i < |turns| ==> FreshTurn(RunAll(s, turns[..i], account, key, cal), turns[i], account, key)
  }

  lemma FreshFirst(s: Race, turns: seq<Turn>, n: nat, account: Id, key: string, cal: W.Calendar)
    requires FreshTurns(s, turns, account, key, cal) && n <= |turns|
    ensures FreshTurns(s, turns[..n], account, key, cal)
  {
    hide FreshTurn, RunAll;
    forall i | 0 <= i < n ensures FreshTurn(RunAll(s, turns[..n][..i], account, key, cal), turns[..n][i], account, key) {
      assert turns[..n][..i] == turns[..i];
    }
  }

  lemma {:induction false} RaceAgrees(s: Race, turns: seq<Turn>, account: Id, key: string, cal: W.Calendar)
    requires Agreed(s, account, key) && FreshTurns(s, turns, account, key, cal)
    ensures Agreed(RunAll(s, turns, account, key, cal), account, key)
  {
    hide Agreed, FreshTurn, TakeTurn;
    if |turns| > 0 {
      var n := |turns| - 1;
      FreshFirst(s, turns, n, account, key, cal);
      RaceAgrees(s, turns[..n], account, key, cal);
      TurnAgrees(RunAll(s, turns[..n], account, key, cal), turns[n], account, key, cal);
    }
  }

  ghost predicate OneUnder(r: Repo, account: Id, key: string) {
    forall i, j | i in r.operations && j in r.operations && Under(r.operations[i], account, key) && Under(r.operations[j], account, key)
      :: i == j
  }
  predicate Under(o: Operation, account: Id, key: string) { o.account == account && o.key == key }

  ghost predicate OneKeyed(w: W.Wallet, key: string) {
    && (forall q, p | q in w.quotes && p in w.quotes && q.key == QuoteKeyFor(key) && p.key == QuoteKeyFor(key) :: q == p)
    && (forall g, h | g in w.reservations && h in w.reservations && g.key == HoldKeyFor(key) && h.key == HoldKeyFor(key) :: g == h)
  }

  lemma SameQuote(qs: seq<W.Quote>, q: W.Quote, p: W.Quote)
    requires Distinct(qs, QuoteKey()) && q in qs && p in qs && q.key == p.key
    ensures q == p
  {
    var i :| 0 <= i < |qs| && qs[i] == q;
    var j :| 0 <= j < |qs| && qs[j] == p;
    assert QuoteKey()(qs[i]) == QuoteKey()(qs[j]);
  }

  lemma SameHold(rs: seq<W.Reservation>, g: W.Reservation, h: W.Reservation)
    requires Distinct(rs, ReservationKey()) && g in rs && h in rs && g.key == h.key
    ensures g == h
  {
    var i :| 0 <= i < |rs| && rs[i] == g;
    var j :| 0 <= j < |rs| && rs[j] == h;
    assert ReservationKey()(rs[i]) == ReservationKey()(rs[j]);
  }

  lemma OneUnderKey(w: W.Wallet, key: string)
    requires Sound(w)
    ensures OneKeyed(w, key)
    ensures forall a, b :: QuotedAs(w, key, a) && QuotedAs(w, key, b) ==> a == b
    ensures forall a, b :: HeldAs(w, key, a) && HeldAs(w, key, b) ==> a == b
  {
    forall q, p | q in w.quotes && p in w.quotes && q.key == p.key ensures q == p {
      SameQuote(w.quotes, q, p);
    }
    forall g, h | g in w.reservations && h in w.reservations && g.key == h.key ensures g == h {
      SameHold(w.reservations, g, h);
    }
  }

  /** What agreement gives: all callers hold the same operation, quote and reservation, whoever is answered
      is answered a session of that quote and that reservation, and the stores hold no second one under
      the key. */
  lemma OneOfEach(s: Race, account: Id, key: string, a: nat, b: nat)
    requires Agreed(s, account, key) && a in s.callers && b in s.callers
    ensures var x, y := s.callers[a], s.callers[b];
            && (x.operation.Some? && y.operation.Some? ==> x.operation == y.operation)
            && (x.quote.Some? && y.quote.Some? ==> x.quote == y.quote)
            && (x.hold.Some? && y.hold.Some? ==> x.hold == y.hold)
            && (x.stage.Answered? && y.stage.Answered? ==> x.stage == y.stage)
            && (x.stage.Answered? && y.quote.Some? ==> x.stage.session.quote == y.quote.value)
            && (x.stage.Answered? && y.hold.Some? ==> x.stage.session.reservation == y.hold.value)
            && (x.stage.Answered? ==>
                  x.operation.Some? && (x.operation.value in s.system.repo.operations ==>
                                          s.system.repo.operations[x.operation.value].session == Some(x.stage.session)))
    ensures OneUnder(s.system.repo, account, key)
    ensures OneKeyed(s.wallet, key)
  {
    var x, y, w := s.callers[a], s.callers[b], s.wallet;
    assert Knows(s.system, w, account, key, x) && Knows(s.system, w, account, key, y);
    OneUnderKey(w, key);
    hide Invariant, SessionsSeen, Sound, QuotedAs, HeldAs, OneKeyed;
  }
}
