/** A race, turn by turn, in which nothing breaks down and a finished caller is left with nothing. Two callers
    share a hold; the second loses its save to a change of settings and gives the hold back; the first then
    attaches and is answered; and the second goes on to fail the wake. */
module RaceExample {
  import opened Base
  import opened Money
  import W = Wallet
  import opened Solvency
  import opened WorldModel
  import opened WorldPlans
  import opened WorldProtocol
  import opened WakeSaga
  import opened WakeExamples
  import opened HoldEndings
  import opened Endings
  import opened WakeRace
  import Service = WorldService

  const SHARED := BillingSession("quote", "hold")

  function Wake(): Operation { NewOperation(Planet(Sleeping, 1), OperationKind.Wake, "operation", "key", 0) }
  function Attached(): Operation { Wake().(session := Some(SHARED), version := 2) }
  function Failed(): Operation { Attached().(status := OperationStatus.Failed, phase := Complete, version := 3) }

  function Changed(): World { Planet(Waking, 2).(autoSleep := Some(30), version := 3) }
  function Named(): World { Changed().(session := Some(SHARED), version := 4) }
  function Asleep(): World { Named().(status := Sleeping, session := None, version := 5) }

  function Stored(o: Operation, w: World): Repo {
    Repo(map[HOME := w], map["operation" := o], map[], map[CommandKey("account", "key") := "operation"], map[],
         if Live(o) then map[HOME := "operation"] else map[])
  }

  function Priced(): W.Quote { W.Quote("quote", "world", "profile", 60, QuoteKeyFor("key"), 0, 15 * 60 * SECOND) }
  function Shared(status: W.ReservationStatus): W.Reservation {
    W.Reservation("hold", 25, "wake:world", HoldKeyFor("key"), status, 0, Some("quote"), Some("world"))
  }

  /** The turns, in order. */
  function TurnAt(i: nat): Turn {
    match i
    case 0 => OtherClient(ReadWorld(0, HOME))
    case 1 => Ask(0, "operation", 0)
    case 2 => OtherClient(ReadWorld(1, HOME))
    case 3 => Ask(1, "second", 0)
    case 4 => Price(0, Planet(Waking, 2), 60, W.Env("quote", "quote2", 0))
    case 5 => Price(1, Planet(Waking, 2), 60, W.Env("quote3", "quote4", 0))
    case 6 => Reserve(0, W.Env("hold", "hold2", 0))
    case 7 => Reserve(1, W.Env("hold3", "hold4", 0))
    case 8 => OtherClient(ReadOperation(1, "operation"))
    case 9 => OtherClient(ReadWorld(1, HOME))
    case 10 => OtherClient(ReadWorld(2, HOME))
    case 11 => OtherClient(Act(2, ChangeSettings(true, Some(30))))
    case 12 => Attach(1)
    case 13 => LookAgain(1)
    case 14 => GiveBack(1, W.Env("release", "release2", 0))
    case 15 => OtherClient(ReadOperation(0, "operation"))
    case 16 => OtherClient(ReadWorld(0, HOME))
    case 17 => Attach(0)
    case 18 => OtherClient(ReadOperation(1, "operation"))
    case 19 => OtherClient(ReadWorld(1, HOME))
    case _ => FailWake(1)
  }

  const LENGTH := 21

  function Script(): seq<Turn> { seq(LENGTH, i requires 0 <= i < LENGTH => TurnAt(i)) }

  // ----- the state before each turn

  function OperationAt(i: nat): Operation { if i < 18 then Wake() else if i < 21 then Attached() else Failed() }
  function WorldAt(i: nat): World {
    if i < 2 then Planet(Sleeping, 1) else if i < 12 then Planet(Waking, 2) else if i < 18 then Changed()
    else if i < 21 then Named() else Asleep()
  }
  function RepoAt(i: nat): Repo { if i < 2 then NewRepo() else Stored(OperationAt(i), WorldAt(i)) }

  const NOTHING := Memory(None, None, None)

  /** What each client read last, as the operation and World of an earlier turn. */
  function Read(operation: Option<nat>, world: nat): Memory {
    Memory(if operation.Some? then Some(OperationAt(operation.value)) else None, Some(WorldAt(world)), None)
  }
  function First(i: nat): Memory {
    if i < 1 then NOTHING else if i < 16 then Read(None, 0) else if i < 17 then Read(Some(15), 0) else Read(Some(15), 16)
  }
  function Second(i: nat): Memory {
    if i < 3 then NOTHING else if i < 9 then Read(None, 2) else if i < 10 then Read(Some(8), 2)
    else if i < 19 then Read(Some(8), 9) else if i < 20 then Read(Some(18), 9) else Read(Some(18), 19)
  }
  function Third(i: nat): Memory { if i < 11 then NOTHING else Read(None, 10) }

  function MemoriesAt(i: nat): map<nat, Memory> { map[0 := First(i), 1 := Second(i), 2 := Third(i)] }

  function UsedAt(i: nat): set<Id> { if i < 2 then {} else if i < 4 then {"operation"} else {"operation", "second"} }

  function WalletAt(i: nat): W.Wallet {
    if i < 5 then Purse([], []) else if i < 7 then Purse([Priced()], [])
    else Purse([Priced()], [Shared(if i < 15 then W.Active else W.Released)])
  }

  function Winner(i: nat): Caller {
    Caller(if i < 2 then None else Some("operation"), if i < 5 then None else Some("quote"), if i < 7 then None else Some("hold"),
           if i < 18 then Open else Answered(SHARED))
  }
  function Loser(i: nat): Caller {
    Caller(if i < 4 then None else Some("operation"), if i < 6 then None else Some("quote"), if i < 8 then None else Some("hold"),
           if i < 13 then Open else if i < 14 then Lost else if i < 15 then Failing else if i < 21 then Undoing else Over)
  }
  function CallersAt(i: nat): map<nat, Caller> { map[0 := Winner(i), 1 := Loser(i)] }

  function Scene(i: nat): Race { Race(System(RepoAt(i), MemoriesAt(i), UsedAt(i)), WalletAt(i), CallersAt(i)) }

  ghost predicate Plays(i: nat) {
    && TakeTurn(Scene(i), TurnAt(i), "account", "key", Calendar()) == Scene(i + 1)
    && FreshTurn(Scene(i), TurnAt(i), "account", "key")
  }

  /** A read changes its client's memory alone. */
  lemma ReadPlays(i: nat, event: Event, m: Memory)
    requires TurnAt(i) == OtherClient(event) && !event.Act?
    requires Next(Scene(i).system, event) == Remember(Scene(i).system, event.client, m)
    requires MemoriesAt(i + 1) == MemoriesAt(i)[event.client := m] && RepoAt(i + 1) == RepoAt(i)
    requires UsedAt(i + 1) == UsedAt(i)
    requires WalletAt(i + 1) == WalletAt(i) && CallersAt(i + 1) == CallersAt(i)
    ensures Plays(i)
  {
    hide TurnAt, RepoAt, MemoriesAt, UsedAt, WalletAt, CallersAt, Next;
  }

  lemma WorldReadPlays(i: nat, c: nat)
    requires TurnAt(i) == OtherClient(ReadWorld(c, HOME)) && c < 3
    requires MemoriesAt(i + 1) == MemoriesAt(i)[c := Memory(MemoriesAt(i)[c].operation, Some(WorldAt(i)), None)]
    requires RepoAt(i + 1) == RepoAt(i) && UsedAt(i + 1) == UsedAt(i) && WalletAt(i + 1) == WalletAt(i)
    requires CallersAt(i + 1) == CallersAt(i)
    requires HOME in RepoAt(i).worlds && RepoAt(i).worlds[HOME] == WorldAt(i)
    ensures Plays(i)
  {
    hide TurnAt, RepoAt, UsedAt, WalletAt, CallersAt, WorldAt, First, Second, Third;
    ReadPlays(i, ReadWorld(c, HOME), Memory(MemoriesAt(i)[c].operation, Some(WorldAt(i)), None));
  }

  lemma WorldReadsPlay(i: nat)
    requires i in {0, 2, 9, 10, 16, 19}
    ensures Plays(i)
  {
    hide Plays, Planet, Purse, Changed, Named, Asleep, Wake, Attached, Failed, Priced, Shared, NewOperation;
    WorldOnFile(i);
    hide Stored, NewRepo;
    if i == 0 { WorldReadPlays(0, 0); }
    else if i == 2 { WorldReadPlays(2, 1); }
    else if i == 9 { WorldReadPlays(9, 1); }
    else if i == 10 { WorldReadPlays(10, 2); }
    else if i == 16 { WorldReadPlays(16, 0); }
    else { WorldReadPlays(19, 1); }
  }

  lemma WorldOnFile(i: nat)
    ensures HOME in RepoAt(i).worlds && RepoAt(i).worlds[HOME] == WorldAt(i)
  {
  }

  lemma OperationReadPlays(i: nat, c: nat)
    requires TurnAt(i) == OtherClient(ReadOperation(c, "operation")) && c < 3 && i >= 2
    requires MemoriesAt(i + 1) == MemoriesAt(i)[c := MemoriesAt(i)[c].(operation := Some(OperationAt(i)))]
    requires RepoAt(i + 1) == RepoAt(i) && UsedAt(i + 1) == UsedAt(i) && WalletAt(i + 1) == WalletAt(i)
    requires CallersAt(i + 1) == CallersAt(i)
    ensures Plays(i)
  {
    assert "operation" in RepoAt(i).operations && RepoAt(i).operations["operation"] == OperationAt(i);
    hide TurnAt, RepoAt, UsedAt, WalletAt, CallersAt, OperationAt, First, Second, Third;
    ReadPlays(i, ReadOperation(c, "operation"), MemoriesAt(i)[c].(operation := Some(OperationAt(i))));
  }

  lemma OperationReadsPlay(i: nat)
    requires i in {8, 15, 18}
    ensures Plays(i)
  {
    hide Plays, Planet, Purse, Changed, Named, Asleep, Wake, Attached, Failed, Priced, Shared, NewOperation, Stored;
    hide NewRepo;
    if i == 8 { OperationReadPlays(8, 1); }
    else if i == 15 { OperationReadPlays(15, 0); }
    else { OperationReadPlays(18, 1); }
  }

  // ----- turns on the worlds repository

  lemma WakeArises()
    ensures var p := PlanWake(Planet(Sleeping, 1), true, true, "operation", "key", 0);
            Apply(NewRepo(), p) == Stored(Wake(), Planet(Waking, 2)) && Service.Answer(NewRepo(), p) == Ok(Some(Wake()))
  {
    AbandonedArises();
  }

  lemma WakeIsFound()
    ensures var r, p := Stored(Wake(), Planet(Waking, 2)), PlanWake(Planet(Waking, 2), true, true, "second", "key", 0);
            Apply(r, p) == r && Service.Answer(r, p) == Ok(Some(Wake()))
  {
  }

  lemma SettingsChange()
    ensures Apply(Stored(Wake(), Planet(Waking, 2)), PlanSettings(Planet(Waking, 2), true, Some(30))) == Stored(Wake(), Changed())
  {
  }

  lemma AttachLoses()
    ensures var r, p := Stored(Wake(), Changed()), PlanAttach(Wake(), Planet(Waking, 2), SHARED);
            Apply(r, p) == r && !Attaches(r, p) && Loses(r, p)
  {
  }

  lemma AttachSaves()
    ensures var r, p := Stored(Wake(), Changed()), PlanAttach(Wake(), Changed(), SHARED);
            Apply(r, p) == Stored(Attached(), Named()) && Attaches(r, p)
  {
  }

  lemma WakeFails()
    ensures Apply(Stored(Attached(), Named()), PlanPreflightFailure(Attached(), Named())) == Stored(Failed(), Asleep())
  {
  }

  lemma FirstAskPlays()
    ensures Plays(1)
  {
    WakeArises();
    PlanetOf();
    hide W.Step, W.Attempt, Apply, Stored, NewRepo, PlanWake, Service.Answer, Purse, Planet;
    var u := TakeTurn(Scene(1), TurnAt(1), "account", "key", Calendar());
    assert u.system.repo == RepoAt(2) && u.system.memories == MemoriesAt(2);
    assert u.callers == CallersAt(2);
  }

  lemma SecondAskPlays()
    ensures Plays(3)
  {
    WakeIsFound();
    PlanetOf();
    hide W.Step, W.Attempt, Apply, Stored, NewRepo, PlanWake, Service.Answer, Purse, Planet;
    var u := TakeTurn(Scene(3), TurnAt(3), "account", "key", Calendar());
    assert u.system.repo == RepoAt(4) && u.system.memories == MemoriesAt(4) && u.system.used == UsedAt(4);
    assert u.callers == CallersAt(4);
  }

  lemma PlanetOf()
    ensures forall status, version :: Planet(status, version).account == "account" && KeyOf(Planet(status, version)) == HOME
  {
  }

  lemma SettingsPlay()
    ensures Plays(11)
  {
    SettingsChange();
    hide W.Step, W.Attempt, Apply, Stored, NewRepo, PlanSettings, Purse, Planet, CallersAt;
    var u := TakeTurn(Scene(11), TurnAt(11), "account", "key", Calendar());
    assert u.system.repo == RepoAt(12) && u.system.memories == MemoriesAt(12);
    assert u.callers == CallersAt(12) by { SameCallers(11); }
  }

  lemma SameCallers(i: nat)
    requires i == 11
    ensures CallersAt(i + 1) == CallersAt(i)
  {
  }

  lemma KeysAgree()
    ensures KeyFor(Wake()) == HOME && KeyOf(Changed()) == HOME && KeyFor(Attached()) == HOME && KeyOf(Named()) == HOME
    ensures Wake().id == "operation" && Attached().id == "operation"
  {
  }

  lemma LosingAttachPlays()
    ensures Plays(12)
  {
    AttachLoses();
    PlanetOf();
    KeysAgree();
    hide W.Step, W.Attempt, Apply, Stored, NewRepo, PlanAttach, Attaches, Loses, Purse, Planet, Wake, Changed;
    var u := TakeTurn(Scene(12), TurnAt(12), "account", "key", Calendar());
    assert u.system.repo == RepoAt(13) && u.system.memories == MemoriesAt(13);
    assert u.callers == CallersAt(13);
  }

  lemma WinningAttachPlays()
    ensures Plays(17)
  {
    AttachSaves();
    KeysAgree();
    hide W.Step, W.Attempt, Apply, Stored, NewRepo, PlanAttach, Attaches, Loses, Purse, Planet, Wake, Changed;
    hide Attached, Named;
    var u := TakeTurn(Scene(17), TurnAt(17), "account", "key", Calendar());
    assert u.system.repo == RepoAt(18) && u.system.memories == MemoriesAt(18);
    assert u.callers == CallersAt(18);
  }

  lemma FailingPlays()
    ensures Plays(20)
  {
    WakeFails();
    KeysAgree();
    hide W.Step, W.Attempt, Apply, Stored, NewRepo, PlanPreflightFailure, Purse, Planet, Attached, Named, Asleep;
    hide Failed;
    var u := TakeTurn(Scene(20), TurnAt(20), "account", "key", Calendar());
    assert u.system.repo == RepoAt(21) && u.system.memories == MemoriesAt(21);
    assert u.callers == CallersAt(21);
  }

  lemma LookingPlays()
    ensures Plays(13)
  {
    hide W.Step, W.Attempt, RepoAt, MemoriesAt, WalletAt, UsedAt, Stored, NewRepo;
    NothingAttached();
    assert RepoAt(14) == RepoAt(13) && MemoriesAt(14) == MemoriesAt(13) && WalletAt(14) == WalletAt(13)
           && UsedAt(14) == UsedAt(13) by {
      LookingLeaves();
    }
    assert TakeTurn(Scene(13), TurnAt(13), "account", "key", Calendar()).callers == CallersAt(14);
  }

  lemma NothingAttached()
    ensures "operation" in RepoAt(13).operations && RepoAt(13).operations["operation"].session.None?
  {
  }

  lemma LookingLeaves()
    ensures RepoAt(14) == RepoAt(13) && MemoriesAt(14) == MemoriesAt(13) && WalletAt(14) == WalletAt(13)
    ensures UsedAt(14) == UsedAt(13)
  {
  }

  // ----- turns on the wallet

  function QuoteMove(env: W.Env): W.Move { W.Move(W.CreateQuote("world", "profile", 60, QuoteKeyFor("key")), env) }
  function HoldMove(env: W.Env): W.Move { W.Move(W.ReserveForWake("quote", HoldKeyFor("key")), env) }

  lemma Quoting(env: W.Env)
    requires env.id == "quote" && env.now == 0
    ensures W.Attempt(Purse([], []), QuoteMove(env).command, env, Calendar()) == W.Save(Purse([Priced()], []), W.Quoted(Priced()))
  {
  }

  lemma QuotingAgain(env: W.Env)
    ensures W.Attempt(Purse([Priced()], []), QuoteMove(env).command, env, Calendar()) == W.Return(W.Quoted(Priced()))
  {
    assert W.QuoteKeyed(QuoteKeyFor("key"))(Priced());
  }

  lemma CanHold()
    ensures var w := Purse([Priced()], []); W.Available(w) == 1000 && W.BudgetAvailable(w, "world", 0, Calendar()).None?
  {
    SumOne(Purse([Priced()], []).entries[0], W.AmountOf());
  }

  lemma Holding(env: W.Env)
    requires env.id == "hold" && env.now == 0
    ensures W.Attempt(Purse([Priced()], []), HoldMove(env).command, env, Calendar())
         == W.Save(Purse([Priced()], [Shared(W.Active)]), W.Held(Shared(W.Active)))
  {
    var w := Purse([Priced()], []);
    assert Find(w.quotes, W.QuoteIs("quote")) == Some(Priced());
    assert Find(w.reservations, W.ReservationKeyed(HoldKeyFor("key"))).None?;
    CanHold();
    hide W.Available, W.BudgetAvailable, Find;
    assert HoldFor(60, WAKE_SECONDS) == 25 && "wake:" + "world" == "wake:world";
    assert w.reservations + [Shared(W.Active)] == [Shared(W.Active)];
    hide HoldFor;
  }

  lemma HoldingAgain(env: W.Env)
    requires env.now == 0
    ensures W.Attempt(Purse([Priced()], [Shared(W.Active)]), HoldMove(env).command, env, Calendar())
         == W.Return(W.Held(Shared(W.Active)))
  {
    var w := Purse([Priced()], [Shared(W.Active)]);
    assert Find(w.quotes, W.QuoteIs("quote")) == Some(Priced());
    assert Find(w.reservations, W.ReservationKeyed(HoldKeyFor("key"))) == Some(Shared(W.Active));
    hide W.Available, W.BudgetAvailable, Find;
    assert HoldFor(60, WAKE_SECONDS) == 25;
  }

  lemma Releasing(env: W.Env)
    ensures W.Attempt(Purse([Priced()], [Shared(W.Active)]), W.Release("hold"), env, Calendar())
         == W.Save(Purse([Priced()], [Shared(W.Released)]), W.Held(Shared(W.Released)))
  {
    var w := Purse([Priced()], [Shared(W.Active)]);
    assert Find(w.reservations, W.ReservationIs("hold")) == Some(Shared(W.Active));
    assert Substitute(w.reservations, W.ReservationIs("hold"), Shared(W.Released)) == [Shared(W.Released)];
  }

  /** A turn on the wallet alone. */
  lemma WalletPlays(i: nat, m: W.Move)
    requires MoveOf(Scene(i), TurnAt(i), "key") == Some(m) && EventOf(Scene(i), TurnAt(i), "account", "key").None?
    requires W.Step(WalletAt(i), m.command, m.env, Calendar()) == WalletAt(i + 1) && Fresh(WalletAt(i), m.env)
    requires !TurnAt(i).OtherClient? && !TurnAt(i).OtherCommand?
    requires CallersAt(i + 1) == CallersAt(i)[TurnAt(i).caller := Learnt(Scene(i), TurnAt(i), "account", "key", Calendar())]
    requires RepoAt(i + 1) == RepoAt(i) && MemoriesAt(i + 1) == MemoriesAt(i) && UsedAt(i + 1) == UsedAt(i)
    ensures Plays(i)
  {
    hide RepoAt, MemoriesAt, UsedAt, WalletAt, CallersAt, MoveOf, EventOf, Learnt, W.Step, Fresh, TurnAt;
  }

  lemma StoreIsStill(i: nat)
    requires i in {4, 5, 6, 7, 14}
    ensures RepoAt(i + 1) == RepoAt(i) && MemoriesAt(i + 1) == MemoriesAt(i) && UsedAt(i + 1) == UsedAt(i)
  {
    hide Stored, Planet, Wake, Attached, Failed, Named, Changed, Asleep;
  }

  /** What a caller's price, reservation or release asks for, and what it learns from the answer. */
  lemma PriceTurn(i: nat, o: W.Outcome)
    requires i in {4, 5} && o == W.Attempt(WalletAt(i), QuoteMove(TurnAt(i).env).command, TurnAt(i).env, Calendar())
    requires !o.Raise? && o.reply == W.Quoted(Priced())
    ensures MoveOf(Scene(i), TurnAt(i), "key") == Some(QuoteMove(TurnAt(i).env))
    ensures EventOf(Scene(i), TurnAt(i), "account", "key").None?
    ensures CallersAt(i + 1) == CallersAt(i)[TurnAt(i).caller := Learnt(Scene(i), TurnAt(i), "account", "key", Calendar())]
  {
    hide W.Attempt, RepoAt, MemoriesAt, UsedAt, WalletAt;
  }

  lemma ReserveTurn(i: nat, o: W.Outcome)
    requires i in {6, 7} && o == W.Attempt(WalletAt(i), HoldMove(TurnAt(i).env).command, TurnAt(i).env, Calendar())
    requires !o.Raise? && o.reply == W.Held(Shared(W.Active))
    ensures MoveOf(Scene(i), TurnAt(i), "key") == Some(HoldMove(TurnAt(i).env))
    ensures EventOf(Scene(i), TurnAt(i), "account", "key").None?
    ensures CallersAt(i + 1) == CallersAt(i)[TurnAt(i).caller := Learnt(Scene(i), TurnAt(i), "account", "key", Calendar())]
  {
    hide W.Attempt, RepoAt, MemoriesAt, UsedAt, WalletAt;
  }

  lemma ReleaseTurn(m: W.Move)
    requires m == W.Move(W.Release("hold"), TurnAt(14).env)
    requires !W.Attempt(WalletAt(14), m.command, m.env, Calendar()).Raise?
    ensures MoveOf(Scene(14), TurnAt(14), "key") == Some(m) && EventOf(Scene(14), TurnAt(14), "account", "key").None?
    ensures CallersAt(15) == CallersAt(14)[1 := Learnt(Scene(14), TurnAt(14), "account", "key", Calendar())]
  {
    hide W.Attempt, RepoAt, MemoriesAt, UsedAt, WalletAt;
  }

  lemma FreshPurses(i: nat)
    requires i in {4, 5, 6, 7, 14}
    ensures Fresh(WalletAt(i), TurnAt(i).env)
  {
  }

  lemma FirstPricePlays()
    ensures Plays(4)
  {
    var env := TurnAt(4).env;
    Quoting(env);
    FreshPurses(4);
    hide W.Attempt, Purse, Fresh;
    PriceTurn(4, W.Attempt(WalletAt(4), QuoteMove(env).command, env, Calendar()));
    StoreIsStill(4);
    hide RepoAt, MemoriesAt, UsedAt, Plays, MoveOf, EventOf, Learnt, CallersAt, Scene;
    WalletPlays(4, QuoteMove(env));
  }

  lemma SecondPricePlays()
    ensures Plays(5)
  {
    var env := TurnAt(5).env;
    QuotingAgain(env);
    FreshPurses(5);
    hide W.Attempt, Purse, Fresh;
    PriceTurn(5, W.Attempt(WalletAt(5), QuoteMove(env).command, env, Calendar()));
    StoreIsStill(5);
    hide RepoAt, MemoriesAt, UsedAt, Plays, MoveOf, EventOf, Learnt, CallersAt, Scene;
    WalletPlays(5, QuoteMove(env));
  }

  lemma FirstReservePlays()
    ensures Plays(6)
  {
    var env := TurnAt(6).env;
    Holding(env);
    FreshPurses(6);
    hide W.Attempt, Purse, Fresh;
    ReserveTurn(6, W.Attempt(WalletAt(6), HoldMove(env).command, env, Calendar()));
    StoreIsStill(6);
    hide RepoAt, MemoriesAt, UsedAt, Plays, MoveOf, EventOf, Learnt, CallersAt, Scene;
    WalletPlays(6, HoldMove(env));
  }

  lemma SecondReservePlays()
    ensures Plays(7)
  {
    var env := TurnAt(7).env;
    HoldingAgain(env);
    FreshPurses(7);
    hide W.Attempt, Purse, Fresh;
    ReserveTurn(7, W.Attempt(WalletAt(7), HoldMove(env).command, env, Calendar()));
    StoreIsStill(7);
    hide RepoAt, MemoriesAt, UsedAt, Plays, MoveOf, EventOf, Learnt, CallersAt, Scene;
    WalletPlays(7, HoldMove(env));
  }

  lemma GivingBackPlays()
    ensures Plays(14)
  {
    var env := TurnAt(14).env;
    Releasing(env);
    FreshPurses(14);
    hide W.Attempt, Purse, Fresh;
    ReleaseTurn(W.Move(W.Release("hold"), env));
    StoreIsStill(14);
    hide RepoAt, MemoriesAt, UsedAt, Plays, MoveOf, EventOf, Learnt, CallersAt, Scene;
    WalletPlays(14, W.Move(W.Release("hold"), env));
  }

  // ----- the whole race

  lemma AllPlay(i: nat)
    requires i < LENGTH
    ensures Plays(i)
  {
    hide Plays;
    if i in {0, 2, 9, 10, 16, 19} { WorldReadsPlay(i); }
    else if i in {8, 15, 18} { OperationReadsPlay(i); }
    else if i == 1 { FirstAskPlays(); }
    else if i == 3 { SecondAskPlays(); }
    else if i == 4 { FirstPricePlays(); }
    else if i == 5 { SecondPricePlays(); }
    else if i == 6 { FirstReservePlays(); }
    else if i == 7 { SecondReservePlays(); }
    else if i == 11 { SettingsPlay(); }
    else if i == 12 { LosingAttachPlays(); }
    else if i == 13 { LookingPlays(); }
    else if i == 14 { GivingBackPlays(); }
    else if i == 17 { WinningAttachPlays(); }
    else { FailingPlays(); }
  }

  lemma {:induction false} RaceReaches(n: nat)
    requires n <= LENGTH
    ensures RunAll(Scene(0), Script()[..n], "account", "key", Calendar()) == Scene(n)
    ensures FreshTurns(Scene(0), Script()[..n], "account", "key", Calendar())
  {
    hide Scene, TurnAt, TakeTurn, FreshTurn;
    if n > 0 {
      RaceReaches(n - 1);
      AllPlay(n - 1);
      assert Script()[..n][..n - 1] == Script()[..n - 1] && Script()[..n][n - 1] == TurnAt(n - 1);
      forall j | 0 <= j < n
        ensures FreshTurn(RunAll(Scene(0), Script()[..n][..j], "account", "key", Calendar()), Script()[..n][j], "account", "key")
      {
        assert j < n - 1 ==> Script()[..n][..j] == Script()[..n - 1][..j];
      }
    }
  }

  lemma StartAgrees()
    ensures Agreed(Scene(0), "account", "key")
  {
    assert Sound(WalletAt(0)) by { PursesSound(); }
    assert Invariant(Scene(0).system) && Indexed(RepoAt(0), "account", "key")
           && SessionsSeen(Scene(0).system) by { StartIsConsistent(); }
    hide Sound, Invariant, Indexed, SessionsSeen, QuotedAs, HeldAs, RepoAt, MemoriesAt, WalletAt;
  }

  lemma StartIsConsistent()
    ensures Invariant(Scene(0).system) && Indexed(RepoAt(0), "account", "key") && SessionsSeen(Scene(0).system)
  {
  }

  /** The first caller was answered, and its hold is not active. */
  ghost predicate HoldIsGone(s: Race) {
    0 in s.callers && s.callers[0].stage == Answered(SHARED) && !ActiveHold(s.wallet, SHARED.reservation)
  }

  ghost predicate WakeIsGone(s: Race) {
    && "operation" in s.system.repo.operations && s.system.repo.operations["operation"].status.Failed?
    && HOME in s.system.repo.worlds && s.system.repo.worlds[HOME].status.Sleeping?
  }

  lemma ScenesEnd()
    ensures HoldIsGone(Scene(18)) && LiveIn(Scene(18).system.repo, "operation")
    ensures HoldIsGone(Scene(LENGTH)) && WakeIsGone(Scene(LENGTH))
  {
    hide MemoriesAt, Planet;
  }

  /** With every service up: the first caller is answered a session whose hold was released before it attached;
      its wake lives, until the second caller's undoing fails it and puts the World to sleep. */
  lemma FinishedCallerLosesAll()
    ensures var attached := RunAll(Scene(0), Script()[..18], "account", "key", Calendar());
            Agreed(attached, "account", "key") && HoldIsGone(attached) && LiveIn(attached.system.repo, "operation")
    ensures var over := RunAll(Scene(0), Script(), "account", "key", Calendar());
            HoldIsGone(over) && WakeIsGone(over)
  {
    hide Agreed, RunAll, FreshTurns, Scene, HoldIsGone, WakeIsGone, LiveIn, TurnAt;
    RaceReaches(18);
    RaceReaches(LENGTH);
    assert Script()[..LENGTH] == Script();
    ScenesEnd();
    StartAgrees();
    RaceAgrees(Scene(0), Script()[..18], "account", "key", Calendar());
  }
}
