/** The host wallet (`FakeWallet` in examples/rpg_tavern.py): balances, reservations and payouts. */
module Wallets {
  import opened MapSums
  import opened Settlement

  type Chips = map<string, int>

  // ------------------------------------------------------- sums of maps

  /** All of `m`'s values added to `base`. */
  function Plus(base: Chips, m: Chips): (r: Chips)
    requires m.Keys <= base.Keys
    ensures r.Keys == base.Keys
    ensures forall k :: k in base ==> r[k] == base[k] + (if k in m then m[k] else 0)
  {
    map k | k in base :: base[k] + (if k in m then m[k] else 0)
  }

  /** All of `m`'s values taken from `base`. */
  function Minus(base: Chips, m: Chips): (r: Chips)
    requires m.Keys <= base.Keys
    ensures r.Keys == base.Keys
    ensures forall k :: k in base ==> r[k] == base[k] - (if k in m then m[k] else 0)
  {
    map k | k in base :: base[k] - (if k in m then m[k] else 0)
  }

  lemma PlusStep(base: Chips, m: Chips, k: string)
    requires m.Keys <= base.Keys && k in m
    ensures Plus(base, m) == Plus(base, m - {k})[k := base[k] + m[k]] && Plus(base, m - {k})[k] == base[k]
  {
  }

  lemma {:induction false} MapSumPlus(base: Chips, m: Chips)
    requires m.Keys <= base.Keys
    ensures MapSum(Plus(base, m)) == MapSum(base) + MapSum(m)
    decreases |m|
  {
    hide Plus, MapSum;
    if m.Keys == {} {
      MapSumNone(m);
      assert Plus(base, m) == base;
    } else {
      var k :| k in m;
      MapSumPlus(base, m - {k});
      MapSumAt(m, k);
      PlusStep(base, m, k);
      MapSumSet(Plus(base, m - {k}), k, base[k] + m[k]);
    }
  }

  lemma MapSumMinus(base: Chips, m: Chips)
    requires m.Keys <= base.Keys
    ensures MapSum(Minus(base, m)) == MapSum(base) - MapSum(m)
  {
    MapSumPlus(Minus(base, m), m);
    assert Plus(Minus(base, m), m) == base;
  }

  // ------------------------------------------------------------ the wallet

  datatype Receipt = Receipt(version: int, tableId: string, resultId: string, initial: Chips, final: Chips)

  datatype Wallet = Wallet(balances: Chips, reservations: map<string, Chips>, settlements: map<string, Receipt>)

  /** A call changed the wallet, found it already done, or raised without a change. */
  datatype Answer = Changed(wallet: Wallet) | Already | Raised

  const API_VERSION := 1

  predicate Space(c: char) {
    c == ' ' || '\t' <= c <= '\r' || '\U{1c}' <= c <= '\U{1f}'
  }

  /** `_identity`: not empty after stripping. */
  predicate Named(s: string) {
    exists i :: 0 <= i < |s| && !Space(s[i])
  }

  /** `_amounts`: some players, each named, each with at least `low` chips. */
  predicate Amounts(m: Chips, low: int) {
    m.Keys != {} && forall k :: k in m ==> Named(k) && m[k] >= low
  }

  predicate Affordable(balances: Chips, amounts: Chips) {
    forall k :: k in amounts ==> k in balances && balances[k] >= amounts[k]
  }

  function Reserve(w: Wallet, id: string, amounts: Chips): (r: Answer) {
    if !Named(id) || !Amounts(amounts, 1) || id in w.settlements then Raised
    else if id in w.reservations then (if w.reservations[id] != amounts then Raised else Already)
    else if !Affordable(w.balances, amounts) then Raised
    else Changed(w.(balances := Minus(w.balances, amounts), reservations := w.reservations[id := amounts]))
  }

  /** The checks a close result passes before anything is paid. */
  ghost predicate Payable(w: Wallet, r: Receipt) {
    && r.version == API_VERSION && Named(r.tableId) && r.tableId in w.reservations
    && r.resultId == r.tableId + "/close" && Amounts(r.initial, 0) && Amounts(r.final, 0)
    && r.initial == w.reservations[r.tableId] && r.final.Keys == r.initial.Keys
    && MapSum(r.initial) == MapSum(r.final)
  }

  ghost function Pay(w: Wallet, r: Receipt): (a: Answer)
    requires WalletOk(w)
  {
    if !Payable(w, r) then Raised
    else if r.tableId in w.settlements then (if w.settlements[r.tableId] != r then Raised else Already)
    else Changed(w.(balances := Plus(w.balances, r.final), settlements := w.settlements[r.tableId := r]))
  }

  // ------------------------------------------------- what the wallet keeps

  /** No balance is negative, and every payout matches a reservation of known players. */
  ghost predicate WalletOk(w: Wallet) {
    && (forall k :: k in w.balances ==> w.balances[k] >= 0)
    && (forall id :: id in w.reservations ==>
          w.reservations[id].Keys <= w.balances.Keys && forall k :: k in w.reservations[id] ==> w.reservations[id][k] > 0)
    && w.settlements.Keys <= w.reservations.Keys
  }

  /** What each table still holds: its buy-ins until it is settled. */
  function Outstanding(w: Wallet): (m: map<string, Chips>) {
    map id | id in w.reservations && id !in w.settlements :: w.reservations[id]
  }

  /** `reserved_total`. */
  ghost function Reserved(m: map<string, Chips>): (t: int) {
    MapSum(TableSums(m))
  }

  ghost function TableSums(m: map<string, Chips>): (r: map<string, int>) {
    map id | id in m :: MapSum(m[id])
  }

  lemma ReservedAt(m: map<string, Chips>, id: string)
    requires id in m
    ensures Reserved(m) == MapSum(m[id]) + Reserved(m - {id})
  {
    hide MapSum;
    MapSumAt(TableSums(m), id);
    assert TableSums(m - {id}) == TableSums(m) - {id};
  }

  ghost function WalletTotal(w: Wallet): (t: int) {
    MapSum(w.balances) + Reserved(Outstanding(w))
  }

  /** A reservation moves chips from balances to the table, all or nothing. */
  lemma ReserveConserves(w: Wallet, id: string, amounts: Chips)
    requires WalletOk(w) && Reserve(w, id, amounts).Changed?
    ensures var u := Reserve(w, id, amounts).wallet;
            WalletOk(u) && WalletTotal(u) == WalletTotal(w) && MapSum(u.balances) == MapSum(w.balances) - MapSum(amounts)
  {
    hide MapSum, Reserved;
    var u := Reserve(w, id, amounts).wallet;
    MapSumMinus(w.balances, amounts);
    ReserveOutstanding(w, id, u.balances, amounts);
    ReservedAt(Outstanding(u), id);
  }

  lemma ReserveOutstanding(w: Wallet, id: string, balances: Chips, amounts: Chips)
    requires id !in w.reservations && id !in w.settlements
    ensures var u := w.(balances := balances, reservations := w.reservations[id := amounts]);
            id in Outstanding(u) && Outstanding(u)[id] == amounts && Outstanding(u) - {id} == Outstanding(w)
  {
  }

  lemma PayOutstanding(w: Wallet, r: Receipt, balances: Chips)
    requires r.tableId in w.reservations && r.tableId !in w.settlements
    ensures var u := w.(balances := balances, settlements := w.settlements[r.tableId := r]);
            r.tableId in Outstanding(w) && Outstanding(w)[r.tableId] == w.reservations[r.tableId]
            && Outstanding(w) - {r.tableId} == Outstanding(u)
  {
  }

  /** A payout moves exactly the table's buy-ins back to balances. */
  lemma PayConserves(w: Wallet, r: Receipt)
    requires WalletOk(w) && Pay(w, r).Changed?
    ensures var u := Pay(w, r).wallet;
            WalletOk(u) && WalletTotal(u) == WalletTotal(w)
            && MapSum(u.balances) == MapSum(w.balances) + MapSum(w.reservations[r.tableId])
  {
    hide MapSum, Reserved;
    var u := Pay(w, r).wallet;
    MapSumPlus(w.balances, r.final);
    PayOutstanding(w, r, u.balances);
    ReservedAt(Outstanding(w), r.tableId);
  }

  /** What `m` says for a player, or nothing. */
  function Of(m: Chips, k: string): (chips: int) {
    if k in m then m[k] else 0
  }

  /** A reservation takes from each player exactly its own buy-in, and records them all. */
  lemma ReserveTakes(w: Wallet, id: string, amounts: Chips)
    requires Reserve(w, id, amounts).Changed?
    ensures var u := Reserve(w, id, amounts).wallet;
            && u.balances.Keys == w.balances.Keys && amounts.Keys <= w.balances.Keys
            && (forall k :: k in w.balances ==> u.balances[k] == w.balances[k] - Of(amounts, k))
            && (forall k :: k in amounts ==> amounts[k] <= w.balances[k])
            && u.reservations == w.reservations[id := amounts] && u.settlements == w.settlements
  {
  }

  /** A payout credits each player exactly its final chips, and records the receipt. */
  lemma PayCredits(w: Wallet, r: Receipt)
    requires WalletOk(w) && Pay(w, r).Changed?
    ensures var u := Pay(w, r).wallet;
            && u.balances.Keys == w.balances.Keys && r.final.Keys <= w.balances.Keys
            && (forall k :: k in w.balances ==> u.balances[k] == w.balances[k] + Of(r.final, k))
            && u.settlements == w.settlements[r.tableId := r] && u.reservations == w.reservations
  {
    hide MapSum;
  }

  /** A table's buy-ins are taken once: again they change nothing, and any other buy-ins for it are refused. */
  lemma TakenOnce(w: Wallet, id: string, amounts: Chips, others: Chips)
    requires Reserve(w, id, amounts).Changed?
    ensures Reserve(Reserve(w, id, amounts).wallet, id, others) == if others == amounts then Already else Raised
  {
  }

  /** A receipt is paid once: again it changes nothing, another one for the table is refused, and its name is used up. */
  lemma PaidOnce(w: Wallet, r: Receipt, r': Receipt, amounts: Chips)
    requires WalletOk(w) && Pay(w, r).Changed? && r'.tableId == r.tableId
    ensures var u := Pay(w, r).wallet;
            WalletOk(u) && (Pay(u, r') == if r' == r then Already else Raised) && Reserve(u, r.tableId, amounts) == Raised
  {
    PayConserves(w, r);
  }

  // ---------------------------------------------------------- the object

  lemma AffordableKeys(balances: Chips, amounts: Chips)
    ensures Affordable(balances, amounts) ==> amounts.Keys <= balances.Keys
  {
  }

  lemma NothingDue(balances: Chips, amounts: Chips)
    requires amounts.Keys == {}
    ensures Affordable(balances, amounts) && Minus(balances, amounts) == balances
  {
  }

  lemma DebitStep(balances: Chips, amounts: Chips, k: string)
    requires k in amounts
    ensures Affordable(balances, amounts) ==> k in balances && balances[k] >= amounts[k] && amounts.Keys <= balances.Keys
    ensures k in balances && balances[k] >= amounts[k] ==>
              var b, rest := balances[k := balances[k] - amounts[k]], amounts - {k};
              && (Affordable(b, rest) <==> Affordable(balances, amounts))
              && (Affordable(balances, amounts) ==> rest.Keys <= b.Keys && Minus(b, rest) == Minus(balances, amounts))
  {
    if k in balances && balances[k] >= amounts[k] {
      var b, rest := balances[k := balances[k] - amounts[k]], amounts - {k};
      if Affordable(b, rest) {
        assert forall j :: j in amounts && j != k ==> j in rest && b[j] == balances[j];
      }
      if Affordable(balances, amounts) {
        assert rest.Keys <= b.Keys;
        assert Minus(b, rest) == Minus(balances, amounts);
      }
    }
  }

  lemma CreditStep(balances: Chips, final: Chips, k: string)
    requires k in final && final.Keys <= balances.Keys
    ensures var b, rest := balances[k := balances[k] + final[k]], final - {k};
            rest.Keys <= b.Keys && Plus(b, rest) == Plus(balances, final)
  {
  }

  /** The sum of a map's values, as a loop adds them up. */
  method AddUp(m: Chips) returns (t: int)
    ensures t == MapSum(m)
  {
    t := 0;
    var rest := m;
    while rest.Keys != {}
      invariant t + MapSum(rest) == MapSum(m)
      decreases |rest.Keys|
    {
      var k :| k in rest.Keys;
      MapSumAt(rest, k);
      t := t + rest[k];
      rest := rest - {k};
    }
  }

  class FakeWallet {
    var balances: Chips
    var reservations: map<string, Chips>
    var settlements: map<string, Receipt>

    function State(): (w: Wallet)
      reads this
    {
      Wallet(balances, reservations, settlements)
    }

    constructor (balances: Chips)
      requires Amounts(balances, 0)
      ensures State() == Wallet(balances, map[], map[]) && WalletOk(State())
    {
      this.balances, reservations, settlements := balances, map[], map[];
    }

    /** `reserve`: every buy-in or none; `None` when it raises, else whether anything changed. */
    method ReserveAll(id: string, amounts: Chips) returns (changed: Option<bool>)
      modifies this
      ensures match Reserve(old(State()), id, amounts)
              case Changed(w) => changed == Some(true) && State() == w
              case Already => changed == Some(false) && State() == old(State())
              case Raised => changed == None && State() == old(State())
    {
      if !Named(id) || !Amounts(amounts, 1) || id in settlements {
        return None;
      }
      if id in reservations {
        return if reservations[id] != amounts then None else Some(false);
      }
      var updated := Debit(amounts);
      if updated.None? {
        return None;
      }
      balances := updated.value;
      reservations := reservations[id := amounts];
      changed := Some(true);
    }

    method Debit(amounts: Chips) returns (r: Option<Chips>)
      ensures r == if Affordable(balances, amounts) then Some(Minus(balances, amounts)) else None
    {
      hide Affordable, Minus;
      var updated, rest := balances, amounts;
      AffordableKeys(balances, amounts);
      while rest.Keys != {}
        invariant Affordable(updated, rest) <==> Affordable(balances, amounts)
        invariant Affordable(updated, rest) ==> rest.Keys <= updated.Keys && Minus(updated, rest) == Minus(balances, amounts)
        decreases |rest.Keys|
      {
        var k :| k in rest.Keys;
        DebitStep(updated, rest, k);
        if k !in updated || updated[k] < rest[k] {
          return None;
        }
        updated := updated[k := updated[k] - rest[k]];
        rest := rest - {k};
      }
      NothingDue(updated, rest);
      r := Some(updated);
    }

    method Credit(final: Chips) returns (updated: Chips)
      requires final.Keys <= balances.Keys
      ensures updated == Plus(balances, final)
    {
      hide Plus;
      updated := balances;
      var rest := final;
      while rest.Keys != {}
        invariant rest.Keys <= updated.Keys && Plus(updated, rest) == Plus(balances, final)
        decreases |rest.Keys|
      {
        var k :| k in rest.Keys;
        CreditStep(updated, rest, k);
        updated := updated[k := updated[k] + rest[k]];
        rest := rest - {k};
      }
      assert Plus(updated, rest) == updated;
    }

    /** `settle`: one close result, credited once after all checks. */
    method SettleResult(r: Receipt) returns (changed: Option<bool>)
      requires WalletOk(State())
      modifies this
      ensures match Pay(old(State()), r)
              case Changed(w) => changed == Some(true) && State() == w
              case Already => changed == Some(false) && State() == old(State())
              case Raised => changed == None && State() == old(State())
    {
      var initial := AddUp(r.initial);
      var final := AddUp(r.final);
      if r.version != API_VERSION || !Named(r.tableId) || r.tableId !in reservations || r.resultId != r.tableId + "/close"
         || !Amounts(r.initial, 0) || !Amounts(r.final, 0) || r.initial != reservations[r.tableId]
         || r.final.Keys != r.initial.Keys || initial != final
      {
        return None;
      }
      if r.tableId in settlements {
        return if settlements[r.tableId] != r then None else Some(false);
      }
      balances := Credit(r.final);
      settlements := settlements[r.tableId := r];
      changed := Some(true);
    }
  }
}
