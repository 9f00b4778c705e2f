/** A host of many tables over one wallet (`Tavern` in examples/rpg_tavern.py), and every run of it. */
module Taverns {
  import opened Sums
  import opened Evaluator
  import opened Game
  import opened Betting
  import opened Dealing
  import opened Table
  import opened Wallets
  import opened MapSums

  // ------------------------------------------------- receipts by player

  /** `{player_id: chips}` over the seats. */
  function ByPlayer(ids: seq<string>, chips: seq<int>): (m: Chips)
    requires |ids| == |chips|
  {
    if |ids| == 0 then map[]
    else
      var k := |ids| - 1;
      ByPlayer(ids[..k], chips[..k])[ids[k] := chips[k]]
  }

  lemma {:induction false} ByPlayerKeys(ids: seq<string>, chips: seq<int>)
    requires |ids| == |chips|
    ensures forall id :: id in ByPlayer(ids, chips) <==> id in ids
  {
    if |ids| > 0 {
      var k := |ids| - 1;
      ByPlayerKeys(ids[..k], chips[..k]);
      assert ids == ids[..k] + [ids[k]];
    }
  }

  lemma {:induction false} ByPlayerAt(ids: seq<string>, chips: seq<int>, i: nat)
    requires |ids| == |chips| && NoDuplicates(ids) && i < |ids|
    ensures ids[i] in ByPlayer(ids, chips) && ByPlayer(ids, chips)[ids[i]] == chips[i]
  {
    var k := |ids| - 1;
    if i < k { ByPlayerAt(ids[..k], chips[..k], i); }
  }

  lemma {:induction false} ByPlayerSum(ids: seq<string>, chips: seq<int>)
    requires |ids| == |chips| && NoDuplicates(ids)
    ensures MapSum(ByPlayer(ids, chips)) == Sum(chips)
  {
    hide MapSum;
    if |ids| == 0 {
      MapSumNone(ByPlayer(ids, chips));
    } else {
      var k := |ids| - 1;
      var before := ByPlayer(ids[..k], chips[..k]);
      ByPlayerSum(ids[..k], chips[..k]);
      ByPlayerKeys(ids[..k], chips[..k]);
      assert ids[k] !in ids[..k];
      assert ids[k] !in before;
      MapSumSet(before, ids[k], chips[k]);
    }
  }

  /** What `close` returns. */
  function ReceiptOf(t: Table, id: string): (r: Receipt)
    requires t.receipt.Some? && |t.receipt.value| == |t.ids| == |t.initial|
  {
    Receipt(API_VERSION, id, id + "/close", ByPlayer(t.ids, t.initial), ByPlayer(t.ids, t.receipt.value))
  }

  // ----------------------------------------------------------- the tavern

  datatype Tavern = Tavern(wallet: Wallet, tables: map<string, Table>)

  datatype Visit =
    | Sit(id: string, ids: seq<string>, chips: seq<int>, cfg: Config)
    | Play(id: string, deck: seq<Card>)
    | Move(id: string, who: string, command: Command)
    | Leave(id: string)

  /** `_identifier`, but for printability. */
  predicate Identifier(s: string) {
    1 <= |s| <= 128 && !Space(s[0]) && !Space(s[|s| - 1])
  }

  predicate Identified(id: string, ids: seq<string>) {
    Identifier(id) && forall i :: 0 <= i < |ids| ==> Identifier(ids[i])
  }

  /** A visit in a given state: table names are fresh, decks are full. */
  ghost predicate VisitOk(v: Tavern, s: Visit) {
    && (s.Sit? ==> s.id !in v.tables && s.id !in v.wallet.reservations)
    && (s.Play? ==> FullDeck(s.deck))
  }

  /** A visit that raises leaves the tavern as it was. */
  ghost function Visited(v: Tavern, s: Visit): (u: Tavern)
    requires TavernOk(v) && VisitOk(v, s)
  {
    match s
    case Sit(id, ids, chips, cfg) =>
      if !Identified(id, ids) || !Open(ids, chips, cfg).Done? then v
      else (match Reserve(v.wallet, id, ByPlayer(ids, chips))
            case Changed(w) => Tavern(w, v.tables[id := Open(ids, chips, cfg).table])
            case _ => v)
    case Play(id, deck) => if id !in v.tables then v else v.(tables := v.tables[id := After(v.tables[id], StartHandStep(deck))])
    case Move(id, who, c) => if id !in v.tables then v else v.(tables := v.tables[id := After(v.tables[id], CommandStep(who, c))])
    case Leave(id) => if id !in v.tables || !CloseCall(v.tables[id]).Done? then v else Left(v, id)
  }

  /** The close, then the payout. */
  ghost function Left(v: Tavern, id: string): (u: Tavern)
    requires TavernOk(v) && id in v.tables && CloseCall(v.tables[id]).Done?
  {
    var t := CloseCall(v.tables[id]).table;
    ClosedIs(v.tables[id]);
    match Pay(v.wallet, ReceiptOf(t, id))
    case Changed(w) => Tavern(w, v.tables[id := t])
    case _ => v.(tables := v.tables[id := t])
  }

  // ------------------------------------------------- what the tavern keeps

  /** A table's buy-ins are what the wallet reserved for it; it is paid exactly if it is closed, and as its receipt says. */
  ghost predicate Backed(w: Wallet, id: string, t: Table) {
    && Tbl(t) && Named(id) && id in w.reservations && w.reservations[id] == ByPlayer(t.ids, t.initial)
    && Amounts(w.reservations[id], 1)
    && (id in w.settlements <==> t.phase == Closed)
    && (id in w.settlements ==> t.receipt.Some? && w.settlements[id] == ReceiptOf(t, id))
  }

  ghost predicate Tbl(t: Table) {
    TableOk(t) && |t.initial| == |t.ids| && (t.receipt.Some? ==> |t.receipt.value| == |t.ids|)
  }

  ghost predicate TavernOk(v: Tavern) {
    && WalletOk(v.wallet) && v.wallet.reservations.Keys == v.tables.Keys
    && forall id :: id in v.tables ==> Backed(v.wallet, id, v.tables[id])
  }

  lemma ClosedIs(t: Table)
    requires Tbl(t) && CloseCall(t).Done?
    ensures var u := CloseCall(t).table;
            && Tbl(u) && u.phase == Closed && u.receipt.Some? && u.ids == t.ids && u.initial == t.initial
            && NoDuplicates(t.ids) && |t.ids| >= 2 && |t.ids| == |t.initial|
            && Sum(u.receipt.value) == Sum(u.initial) && (forall i :: 0 <= i < |u.ids| ==> u.receipt.value[i] >= 0)
            && (t.receipt.Some? ==> u == t)
  {
  }

  lemma AmountsOf(ids: seq<string>, chips: seq<int>, low: int)
    requires |ids| == |chips| > 0 && NoDuplicates(ids) && forall i :: 0 <= i < |ids| ==> Named(ids[i]) && chips[i] >= low
    ensures Amounts(ByPlayer(ids, chips), low)
  {
    hide Named;
    var m := ByPlayer(ids, chips);
    ByPlayerKeys(ids, chips);
    assert ids[0] in m;
    forall k | k in m ensures Named(k) && m[k] >= low {
      var i :| 0 <= i < |ids| && ids[i] == k;
      ByPlayerAt(ids, chips, i);
    }
  }

  lemma IdentifierNamed(s: string)
    requires Identifier(s)
    ensures Named(s)
  {
    assert !Space(s[0]);
  }

  lemma NamedPlayers(ids: seq<string>, chips: seq<int>)
    requires |ids| == |chips| && Amounts(ByPlayer(ids, chips), 1)
    ensures forall i :: 0 <= i < |ids| ==> Named(ids[i])
  {
    hide Named;
    ByPlayerKeys(ids, chips);
    assert forall i :: 0 <= i < |ids| ==> ids[i] in ids;
  }

  lemma ReceiptPays(w: Wallet, id: string, t: Table)
    requires WalletOk(w) && Backed(w, id, t) && CloseCall(t).Done?
    ensures Tbl(CloseCall(t).table) && CloseCall(t).table.receipt.Some?
    ensures Payable(w, ReceiptOf(CloseCall(t).table, id))
  {
    hide MapSum, TableOk, Named;
    ClosedIs(t);
    var u := CloseCall(t).table;
    ByPlayerSum(t.ids, t.initial);
    ByPlayerSum(u.ids, u.receipt.value);
    ByPlayerKeys(t.ids, t.initial);
    ByPlayerKeys(u.ids, u.receipt.value);
    NamedPlayers(t.ids, t.initial);
    AmountsOf(u.ids, u.receipt.value, 0);
    assert ReceiptOf(u, id).final.Keys == ReceiptOf(u, id).initial.Keys;
  }

  /** The wallet takes every receipt of a closed table: a first one pays, a repeated one changes nothing. */
  lemma LeavePays(v: Tavern, id: string)
    requires TavernOk(v) && id in v.tables && v.tables[id].phase != InHand
    ensures CloseCall(v.tables[id]).Done? && Tbl(CloseCall(v.tables[id]).table) && CloseCall(v.tables[id]).table.receipt.Some?
    ensures var t := CloseCall(v.tables[id]).table;
            if id in v.wallet.settlements then Pay(v.wallet, ReceiptOf(t, id)) == Already
            else Pay(v.wallet, ReceiptOf(t, id)).Changed?
  {
    hide Payable, TableOk, WalletOk;
    assert Backed(v.wallet, id, v.tables[id]);
    ReceiptPays(v.wallet, id, v.tables[id]);
  }

  /** Play never opens or closes a table, and a closed one stays as it is. */
  lemma PlayedOn(t: Table, s: Step)
    requires TableOk(t) && StepOk(s) && !s.CloseStep?
    ensures TableOk(After(t, s)) && After(t, s).ids == t.ids && After(t, s).initial == t.initial
    ensures After(t, s).phase == Closed <==> t.phase == Closed
    ensures t.phase == Closed ==> After(t, s) == t
  {
    hide TableOk, AdvanceHand, HandOk;
    ApplyKeeps(t, s);
  }

  lemma PlayBacked(w: Wallet, id: string, t: Table, s: Step)
    requires Backed(w, id, t) && StepOk(s) && !s.CloseStep?
    ensures Backed(w, id, After(t, s))
  {
    hide MapSum, HandOk, Amounts, Named;
    PlayedOn(t, s);
  }

  lemma PlayKeeps(v: Tavern, id: string, s: Step)
    requires TavernOk(v) && id in v.tables && StepOk(s) && !s.CloseStep?
    ensures TavernOk(v.(tables := v.tables[id := After(v.tables[id], s)]))
  {
    hide Backed, TableOk, WalletOk;
    BackedTable(v, id);
    PlayBacked(v.wallet, id, v.tables[id], s);
  }

  lemma BackedTable(v: Tavern, id: string)
    requires TavernOk(v) && id in v.tables
    ensures Backed(v.wallet, id, v.tables[id]) && TableOk(v.tables[id])
  {
    hide WalletOk, TableOk, Named, Amounts;
  }

  lemma LeaveBacked(w: Wallet, id: string, t: Table)
    requires WalletOk(w) && Backed(w, id, t) && CloseCall(t).Done? && id !in w.settlements
    ensures Tbl(CloseCall(t).table) && CloseCall(t).table.receipt.Some?
    ensures var r := ReceiptOf(CloseCall(t).table, id);
            Pay(w, r).Changed? && Backed(Pay(w, r).wallet, id, CloseCall(t).table)
  {
    hide TableOk, WalletOk, Payable, Amounts, Named;
    ClosedIs(t);
    ReceiptPays(w, id, t);
  }

  /** Another table's reservation and payout are not touched. */
  lemma StillBacked(w: Wallet, u: Wallet, id: string, t: Table)
    requires Backed(w, id, t) && id in u.reservations && u.reservations[id] == w.reservations[id]
    requires id in u.settlements <==> id in w.settlements
    requires id in w.settlements ==> u.settlements[id] == w.settlements[id]
    ensures Backed(u, id, t)
  {
    hide TableOk, Amounts, Named;
  }

  ghost predicate Kept(v: Tavern, u: Tavern) {
    TavernOk(u) && WalletTotal(u.wallet) == WalletTotal(v.wallet)
  }

  lemma PaidOut(v: Tavern, id: string, t: Table, w: Wallet)
    requires TavernOk(v) && id in v.tables && id !in v.wallet.settlements && WalletOk(w) && Backed(w, id, t)
    requires w.reservations == v.wallet.reservations
    requires id in w.settlements && w.settlements == v.wallet.settlements[id := w.settlements[id]]
    ensures TavernOk(Tavern(w, v.tables[id := t]))
  {
    hide Backed, TableOk, WalletOk;
    forall k | k in v.tables && k != id ensures Backed(w, k, v.tables[k]) {
      StillReserved(v.wallet, k, v.tables[k]);
      StillBacked(v.wallet, w, k, v.tables[k]);
    }
  }

  lemma LeaveKeeps(v: Tavern, id: string)
    requires TavernOk(v) && id in v.tables && v.tables[id].phase != InHand
    ensures CloseCall(v.tables[id]).Done? && Kept(v, Left(v, id))
    ensures id in v.wallet.settlements ==> Left(v, id) == v
  {
    hide Backed, TableOk, WalletOk, WalletTotal, Payable, ByPlayer;
    var t := CloseCall(v.tables[id]).table;
    ReceiptPays(v.wallet, id, v.tables[id]);
    if id in v.wallet.settlements {
      ClosedAlready(v.wallet, id, v.tables[id]);
      LeavePays(v, id);
    } else {
      LeaveBacked(v.wallet, id, v.tables[id]);
      PayConserves(v.wallet, ReceiptOf(t, id));
      PaidOut(v, id, t, Pay(v.wallet, ReceiptOf(t, id)).wallet);
    }
  }

  lemma StillReserved(w: Wallet, id: string, t: Table)
    requires Backed(w, id, t)
    ensures id in w.reservations
  {
  }

  lemma ClosedAlready(w: Wallet, id: string, t: Table)
    requires Backed(w, id, t) && id in w.settlements
    ensures CloseCall(t) == Done(t) && t.phase == Closed
  {
    hide HandOk, Amounts, Named;
  }

  lemma SitBacked(w: Wallet, id: string, ids: seq<string>, chips: seq<int>, cfg: Config)
    requires Identified(id, ids) && Open(ids, chips, cfg).Done? && Reserve(w, id, ByPlayer(ids, chips)).Changed?
    ensures Backed(Reserve(w, id, ByPlayer(ids, chips)).wallet, id, Open(ids, chips, cfg).table)
  {
    hide TableOk, Amounts, Affordable, Named, ByPlayer;
    OpenOk(ids, chips, cfg);
    IdentifierNamed(id);
  }

  lemma SitKeeps(v: Tavern, id: string, ids: seq<string>, chips: seq<int>, cfg: Config)
    requires TavernOk(v) && id !in v.tables && id !in v.wallet.reservations
    requires Identified(id, ids) && Open(ids, chips, cfg).Done? && Reserve(v.wallet, id, ByPlayer(ids, chips)).Changed?
    ensures var w := Reserve(v.wallet, id, ByPlayer(ids, chips)).wallet;
            TavernOk(Tavern(w, v.tables[id := Open(ids, chips, cfg).table])) && WalletTotal(w) == WalletTotal(v.wallet)
  {
    hide Backed, TableOk, WalletOk, WalletTotal, NoDuplicates, ByPlayer, Amounts, Affordable, Named, Identified;
    ReserveConserves(v.wallet, id, ByPlayer(ids, chips));
    SitBacked(v.wallet, id, ids, chips, cfg);
    var w := Reserve(v.wallet, id, ByPlayer(ids, chips)).wallet;
    forall k | k in v.tables ensures Backed(w, k, v.tables[k]) {
      BackedTable(v, k);
      StillReserved(v.wallet, k, v.tables[k]);
      StillBacked(v.wallet, w, k, v.tables[k]);
    }
  }

  /** No visit breaks the tavern or makes a chip: balances and open tables together stay the same. */
  lemma VisitKeeps(v: Tavern, s: Visit)
    requires TavernOk(v) && VisitOk(v, s)
    ensures Kept(v, Visited(v, s))
  {
    hide TavernOk, WalletTotal, After, Backed, FullDeck, NoDuplicates;
    match s
    case Sit(id, ids, chips, cfg) =>
      if Identified(id, ids) && Open(ids, chips, cfg).Done? && Reserve(v.wallet, id, ByPlayer(ids, chips)).Changed? {
        SitKeeps(v, id, ids, chips, cfg);
      }
    case Play(id, deck) => if id in v.tables { PlayKeeps(v, id, StartHandStep(deck)); }
    case Move(id, who, c) => if id in v.tables { PlayKeeps(v, id, CommandStep(who, c)); }
    case Leave(id) => if id in v.tables && CloseCall(v.tables[id]).Done? { LeaveKeeps(v, id); }
  }

  /** Visits one after the other, each with a fresh name or a full deck. */
  ghost predicate VisitsOk(v: Tavern, visits: seq<Visit>)
    requires TavernOk(v)
    decreases |visits|
  {
    |visits| == 0 ||
    (VisitOk(v, visits[0]) && (VisitKeeps(v, visits[0]); VisitsOk(Visited(v, visits[0]), visits[1..])))
  }

  ghost function VisitAll(v: Tavern, visits: seq<Visit>): (u: Tavern)
    requires TavernOk(v) && VisitsOk(v, visits)
    ensures TavernOk(u) && WalletTotal(u.wallet) == WalletTotal(v.wallet)
    decreases |visits|
  {
    if |visits| == 0 then v
    else
      VisitKeeps(v, visits[0]);
      VisitAll(Visited(v, visits[0]), visits[1..])
  }

  /** A tavern before the first visit. */
  ghost function NewTavern(balances: Chips): (v: Tavern)
    requires Amounts(balances, 0)
    ensures TavernOk(v)
  {
    Tavern(Wallet(balances, map[], map[]), map[])
  }

  lemma NoneReserved(m: map<string, Chips>)
    requires m.Keys == {}
    ensures Reserved(m) == 0
  {
    MapSumNone(TableSums(m));
  }

  /** Main result: over any visits to any tables no balance is negative, chips in balances and on open tables together are
      the chips the wallet began with, each open table holds exactly its reservation, and once all are closed every chip
      is back. */
  lemma TavernConserves(balances: Chips, visits: seq<Visit>)
    requires Amounts(balances, 0) && VisitsOk(NewTavern(balances), visits)
    ensures var u := VisitAll(NewTavern(balances), visits);
            && MapSum(u.wallet.balances) + Reserved(Outstanding(u.wallet)) == MapSum(balances)
            && (forall k :: k in u.wallet.balances ==> u.wallet.balances[k] >= 0)
            && (forall id :: id in Outstanding(u.wallet) ==>
                  id in u.tables && MapSum(u.wallet.reservations[id]) == ChipsOf(u.tables[id].game.players))
            && ((forall id :: id in u.tables ==> u.tables[id].phase == Closed) ==> MapSum(u.wallet.balances) == MapSum(balances))
  {
    hide MapSum, TableOk, Named, Amounts;
    var v := NewTavern(balances);
    var u := VisitAll(v, visits);
    NoneReserved(Outstanding(v.wallet));
    forall id | id in Outstanding(u.wallet)
      ensures id in u.tables && MapSum(u.wallet.reservations[id]) == ChipsOf(u.tables[id].game.players)
    {
      assert Backed(u.wallet, id, u.tables[id]);
      TableHolds(u.tables[id]);
    }
    if forall id :: id in u.tables ==> u.tables[id].phase == Closed {
      assert forall id :: id in u.tables ==> Backed(u.wallet, id, u.tables[id]);
      NoneReserved(Outstanding(u.wallet));
    }
  }

  lemma TableHolds(t: Table)
    requires Tbl(t)
    ensures MapSum(ByPlayer(t.ids, t.initial)) == ChipsOf(t.game.players)
  {
    hide MapSum, HandOk;
    ByPlayerSum(t.ids, t.initial);
    if t.phase != InHand { IdleChips(t.game); }
  }

  // ------------------------------------------------ each player's balance

  /** What `chips` hold for the player at this table: those of its seat. */
  ghost function SeatChips(ids: seq<string>, chips: seq<int>, who: string): (c: int)
    requires |ids| == |chips|
  {
    if who in ids then
      var i :| 0 <= i < |ids| && ids[i] == who;
      chips[i]
    else 0
  }

  lemma SeatChipsOf(ids: seq<string>, chips: seq<int>, who: string)
    requires |ids| == |chips| && NoDuplicates(ids)
    ensures Of(ByPlayer(ids, chips), who) == SeatChips(ids, chips, who)
  {
    hide ByPlayer;
    ByPlayerKeys(ids, chips);
    if who in ids {
      var i :| 0 <= i < |ids| && ids[i] == who && SeatChips(ids, chips, who) == chips[i];
      ByPlayerAt(ids, chips, i);
    }
  }

  /** What a table has done to the player's balance: the buy-in is gone, and once the table is closed the final stack is back. */
  ghost function TableNet(t: Table, who: string): (c: int)
    requires Tbl(t)
  {
    (if t.phase == Closed then SeatChips(t.ids, Stacks(t.game.players), who) else 0) - SeatChips(t.ids, t.initial, who)
  }

  ghost function Nets(v: Tavern, who: string): (m: map<string, int>)
    requires TavernOk(v)
  {
    map id | id in v.tables :: BackedTbl(v, id); TableNet(v.tables[id], who)
  }

  lemma BackedTbl(v: Tavern, id: string)
    requires TavernOk(v) && id in v.tables
    ensures Tbl(v.tables[id])
  {
    hide WalletOk, TableOk, Named, Amounts;
    assert Backed(v.wallet, id, v.tables[id]);
  }

  /** The player's balance is the first one, and what every table has done to it. */
  ghost predicate Balanced(v: Tavern, first: Chips, who: string)
    requires TavernOk(v)
  {
    who in first && who in v.wallet.balances && v.wallet.balances[who] == first[who] + MapSum(Nets(v, who))
  }

  /** Changing one table changes the sum by that table's change. */
  lemma NetsChange(v: Tavern, u: Tavern, id: string, t: Table, who: string)
    requires TavernOk(v) && TavernOk(u) && u.tables == v.tables[id := t] && Tbl(t)
    ensures id in v.tables ==> Tbl(v.tables[id])
    ensures MapSum(Nets(u, who)) == MapSum(Nets(v, who)) + TableNet(t, who) - (if id in v.tables then TableNet(v.tables[id], who) else 0)
  {
    hide MapSum, TableNet, Tbl, TavernOk;
    if id in v.tables { BackedTbl(v, id); }
    MapSumSet(Nets(v, who), id, TableNet(t, who));
    assert Nets(u, who) == Nets(v, who)[id := TableNet(t, who)];
  }

  lemma PlayNets(t: Table, s: Step, who: string)
    requires Tbl(t) && StepOk(s) && !s.CloseStep?
    ensures Tbl(After(t, s)) && TableNet(After(t, s), who) == TableNet(t, who)
  {
    hide HandOk, IdleOk;
    PlayedOn(t, s);
  }

  lemma PlayBalanced(v: Tavern, id: string, s: Step, first: Chips, who: string)
    requires TavernOk(v) && id in v.tables && StepOk(s) && !s.CloseStep? && Balanced(v, first, who)
    ensures TableOk(v.tables[id])
    ensures var u := v.(tables := v.tables[id := After(v.tables[id], s)]); TavernOk(u) && Balanced(u, first, who)
  {
    hide TavernOk, MapSum, TableNet, After, TableOk;
    BackedTable(v, id);
    BackedTbl(v, id);
    PlayKeeps(v, id, s);
    PlayNets(v.tables[id], s, who);
    NetsChange(v, v.(tables := v.tables[id := After(v.tables[id], s)]), id, After(v.tables[id], s), who);
  }

  lemma SitBalanced(v: Tavern, id: string, ids: seq<string>, chips: seq<int>, cfg: Config, first: Chips, who: string)
    requires TavernOk(v) && id !in v.tables && id !in v.wallet.reservations && Balanced(v, first, who)
    requires Identified(id, ids) && Open(ids, chips, cfg).Done? && Reserve(v.wallet, id, ByPlayer(ids, chips)).Changed?
    ensures var u := Tavern(Reserve(v.wallet, id, ByPlayer(ids, chips)).wallet, v.tables[id := Open(ids, chips, cfg).table]);
            TavernOk(u) && Balanced(u, first, who)
  {
    hide TavernOk, MapSum, TableOk, ByPlayer, Amounts, Affordable, Named, Identified, SeatChips;
    var w, t := Reserve(v.wallet, id, ByPlayer(ids, chips)).wallet, Open(ids, chips, cfg).table;
    SitKeeps(v, id, ids, chips, cfg);
    BackedTbl(Tavern(w, v.tables[id := t]), id);
    NetsChange(v, Tavern(w, v.tables[id := t]), id, t, who);
    ReserveTakes(v.wallet, id, ByPlayer(ids, chips));
    SeatChipsOf(ids, chips, who);
  }

  /** A first close and payout raises each seated player's balance by the stack it holds at that table, and nobody else's. */
  lemma LeaveCredits(v: Tavern, id: string, who: string)
    requires TavernOk(v) && id in v.tables && v.tables[id].phase != InHand && id !in v.wallet.settlements
    requires who in v.wallet.balances
    ensures CloseCall(v.tables[id]).Done? && Tbl(v.tables[id]) && |v.tables[id].game.players| == |v.tables[id].ids|
    ensures var u, t := Left(v, id), v.tables[id];
            who in u.wallet.balances
            && u.wallet.balances[who] == v.wallet.balances[who] + SeatChips(t.ids, Stacks(t.game.players), who)
  {
    hide WalletOk, MapSum, ByPlayer, Payable, HandOk, IdleOk, SeatChips, Named, Amounts;
    var t := v.tables[id];
    assert Backed(v.wallet, id, t);
    ClosedIs(t);
    LeavePays(v, id);
    var u := CloseCall(t).table;
    PayCredits(v.wallet, ReceiptOf(u, id));
    SeatChipsOf(u.ids, u.receipt.value, who);
  }

  lemma LeaveBalanced(v: Tavern, id: string, first: Chips, who: string)
    requires TavernOk(v) && id in v.tables && v.tables[id].phase != InHand && Balanced(v, first, who)
    ensures CloseCall(v.tables[id]).Done? && TavernOk(Left(v, id)) && Balanced(Left(v, id), first, who)
  {
    hide TavernOk, MapSum, TableOk, Left, SeatChips, WalletTotal;
    LeaveKeeps(v, id);
    if id !in v.wallet.settlements {
      LeaveCredits(v, id, who);
      LeftIs(v, id);
      var t := CloseCall(v.tables[id]).table;
      BackedTbl(v, id);
      BackedTbl(Left(v, id), id);
      NetsChange(v, Left(v, id), id, t, who);
    }
  }

  lemma LeftIs(v: Tavern, id: string)
    requires TavernOk(v) && id in v.tables && CloseCall(v.tables[id]).Done? && id !in v.wallet.settlements
    ensures var t := CloseCall(v.tables[id]).table;
            && Left(v, id).tables == v.tables[id := t] && v.tables[id].phase != Closed && t.phase == Closed
            && t.game == v.tables[id].game && t.ids == v.tables[id].ids && t.initial == v.tables[id].initial
  {
    hide WalletOk, TableOk, Pay, ReceiptOf, Named, Amounts;
    assert Backed(v.wallet, id, v.tables[id]);
    NotYetClosed(v.tables[id]);
  }

  lemma NotYetClosed(t: Table)
    requires Tbl(t) && t.phase != Closed && CloseCall(t).Done?
    ensures var u := CloseCall(t).table; u.phase == Closed && u == t.(receipt := u.receipt, phase := Closed)
  {
    hide HandOk, IdleOk;
  }

  lemma VisitBalanced(v: Tavern, s: Visit, first: Chips, who: string)
    requires TavernOk(v) && VisitOk(v, s) && Balanced(v, first, who)
    ensures TavernOk(Visited(v, s)) && Balanced(Visited(v, s), first, who)
  {
    hide TavernOk, Balanced, After, Backed, FullDeck, NoDuplicates, Left, WalletTotal;
    VisitKeeps(v, s);
    match s
    case Sit(id, ids, chips, cfg) =>
      if Identified(id, ids) && Open(ids, chips, cfg).Done? && Reserve(v.wallet, id, ByPlayer(ids, chips)).Changed? {
        SitBalanced(v, id, ids, chips, cfg, first, who);
      }
    case Play(id, deck) => if id in v.tables { PlayBalanced(v, id, StartHandStep(deck), first, who); }
    case Move(id, player, c) => if id in v.tables { PlayBalanced(v, id, CommandStep(player, c), first, who); }
    case Leave(id) => if id in v.tables && CloseCall(v.tables[id]).Done? { LeaveBalanced(v, id, first, who); }
  }

  lemma {:induction false} VisitsBalanced(v: Tavern, visits: seq<Visit>, first: Chips, who: string)
    requires TavernOk(v) && VisitsOk(v, visits) && Balanced(v, first, who)
    ensures Balanced(VisitAll(v, visits), first, who)
    decreases |visits|
  {
    hide TavernOk, Balanced, Visited, WalletTotal;
    if |visits| > 0 {
      VisitKeeps(v, visits[0]);
      VisitBalanced(v, visits[0], first, who);
      VisitsBalanced(Visited(v, visits[0]), visits[1..], first, who);
    }
  }

  /** Main result: after any visits each player's balance is the first one, less its buy-in at every table it ever sat at,
      plus its final stack at every table that is closed. */
  lemma BalancesAre(balances: Chips, visits: seq<Visit>, who: string)
    requires Amounts(balances, 0) && VisitsOk(NewTavern(balances), visits) && who in balances
    ensures var u := VisitAll(NewTavern(balances), visits);
            who in u.wallet.balances && u.wallet.balances[who] == balances[who] + MapSum(Nets(u, who))
  {
    hide MapSum, VisitAll, VisitsOk;
    var v := NewTavern(balances);
    MapSumNone(Nets(v, who));
    VisitsBalanced(v, visits, balances, who);
  }
}
