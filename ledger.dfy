/** The shop's ledger: perishable lots of fish, the cash balance and the stock on
    hand (classes Item and Store of app.py). Calendar dates are day numbers. */
module Ledger {

  /** A lot of fish. Lots are compared by identity, as Python compares instances of
      a class that defines neither __eq__ nor __hash__: two lots with equal fields
      are still different stock. No field changes after construction. */
  class Item {
    const name: string
    const purchasePrice: int
    const expiresAt: int

    constructor (name: string, purchasePrice: int, expiresAt: int)
      ensures this.name == name && this.purchasePrice == purchasePrice
      ensures this.expiresAt == expiresAt
    {
      this.name := name;
      this.purchasePrice := purchasePrice;
      this.expiresAt := expiresAt;
    }
  }

  /** The stock on hand: lot to count. */
  type Inventory = map<Item, int>

  /** The balance a new store opens with. */
  const StartingBalance: int := 10000

  predicate Distinct(s: seq<Item>) {
    forall i, j :: 0 <= i < j < |s| ==> s[i] != s[j]
  }

  /** `order` lists every key of `inv` exactly once: the iteration order of a dict. */
  predicate Lists(order: seq<Item>, inv: Inventory) {
    && Distinct(order)
    && (forall it :: it in inv ==> it in order)
    && (forall it :: it in order ==> it in inv)
  }

  /** No count is negative. */
  predicate NonNegative(inv: Inventory) {
    forall it :: it in inv ==> inv[it] >= 0
  }

  /** Nothing held expires on or before `date`, and no count is zero. */
  predicate Tidy(inv: Inventory, date: int) {
    forall it :: it in inv ==> it.expiresAt > date && inv[it] != 0
  }

  /** The entries that survive the sweep at `date`. */
  predicate Keeps(inv: Inventory, date: int, it: Item) {
    it in inv && it.expiresAt > date && inv[it] != 0
  }

  /** The inventory after the sweep at `date`. */
  function Cleaned(inv: Inventory, date: int): (r: Inventory)
    // a sub-map of the original: nothing is added and no count changes
    ensures forall it :: it in r ==> it in inv && r[it] == inv[it]
    // nothing stale survives
    ensures Tidy(r, date)
    // and nothing fresh is dropped
    ensures forall it :: it in inv && Keeps(inv, date, it) ==> it in r
  {
    // the explicit `it in inv` keeps this and the last ensures finite over the lots held
    map it | it in inv && Keeps(inv, date, it) :: inv[it]
  }

  /** The dict order after the sweep: the surviving lots, in their old order. */
  function Kept(order: seq<Item>, inv: Inventory, date: int): (r: seq<Item>)
    ensures |r| <= |order|
    ensures forall it :: it in r ==> it in order && Keeps(inv, date, it)
    ensures forall it :: it in order && Keeps(inv, date, it) ==> it in r
  {
    if order == [] then []
    else if Keeps(inv, date, order[0]) then [order[0]] + Kept(order[1..], inv, date)
    else Kept(order[1..], inv, date)
  }

  lemma {:induction false} KeptDistinct(order: seq<Item>, inv: Inventory, date: int)
    requires Distinct(order)
    ensures Distinct(Kept(order, inv, date))
  {
    if order != [] {
      var tail := order[1..];
      assert Distinct(tail) by {
        forall i, j | 0 <= i < j < |tail| ensures tail[i] != tail[j] {
          assert tail[i] == order[i + 1] && tail[j] == order[j + 1];
        }
      }
      KeptDistinct(tail, inv, date);
      if Keeps(inv, date, order[0]) {
        var rest := Kept(tail, inv, date);
        assert order[0] !in tail by {
          forall j | 0 <= j < |tail| ensures tail[j] != order[0] {
            assert tail[j] == order[j + 1];
          }
        }
        var r := [order[0]] + rest;
        forall i, j | 0 <= i < j < |r| ensures r[i] != r[j] {
          if i == 0 {
            assert r[j] == rest[j - 1];
          } else {
            assert r[i] == rest[i - 1] && r[j] == rest[j - 1];
          }
        }
      }
    }
  }

  /** The swept order lists exactly the swept inventory. */
  lemma KeptLists(order: seq<Item>, inv: Inventory, date: int)
    requires Lists(order, inv)
    ensures Lists(Kept(order, inv, date), Cleaned(inv, date))
  {
    KeptDistinct(order, inv, date);
  }

  /** Sweeping twice at the same date changes nothing more. */
  lemma CleanedIdempotent(inv: Inventory, date: int)
    ensures Cleaned(Cleaned(inv, date), date) == Cleaned(inv, date)
  {
    CleanedLater(inv, date, date);
  }

  /** A sweep at an earlier date is subsumed by a sweep at a later one. */
  lemma CleanedLater(inv: Inventory, earlier: int, later: int)
    requires earlier <= later
    ensures Cleaned(Cleaned(inv, earlier), later) == Cleaned(inv, later)
  {
    var once := Cleaned(inv, earlier);
    assert Cleaned(once, later).Keys == Cleaned(inv, later).Keys;
  }

  /** The sweep leaves an inventory alone exactly when it is already tidy. */
  lemma CleanedFixpoint(inv: Inventory, date: int)
    ensures Cleaned(inv, date) == inv <==> Tidy(inv, date)
  {
    if Tidy(inv, date) {
      assert Cleaned(inv, date).Keys == inv.Keys;
    }
  }

  /** The shop: a balance and the lots on hand. `order` is the insertion order of the
      Python dict, which is the order in which the sell action visits the lots. */
  class Store {
    var balance: int
    var inventory: Inventory
    var order: seq<Item>

    ghost predicate Valid()
      reads this
    {
      Lists(order, inventory)
    }

    constructor ()
      ensures Valid()
      ensures balance == StartingBalance && inventory == map[] && order == []
    {
      balance := StartingBalance;
      inventory := map[];
      order := [];
    }

    /** Sets the lot's count to `amount` (an existing count is overwritten, not added
        to) and debits its cost; an overdraft is not refused here. */
    method Buy(item: Item, amount: int)
      requires Valid()
      modifies this
      ensures Valid()
      ensures inventory == old(inventory)[item := amount]
      ensures order == if item in old(inventory) then old(order) else old(order) + [item]
      ensures balance == old(balance) - item.purchasePrice * amount
    {
      if item !in inventory {
        order := order + [item];
      }
      inventory := inventory[item := amount];
      balance := balance - item.purchasePrice * amount;
    }

    /** Takes `amount` off the lot's count and credits the takings. An entry whose
        count reaches zero stays until the next sweep; a lot not held is a KeyError. */
    method Sell(item: Item, amount: int, sellingPrice: int)
      requires Valid() && item in inventory
      modifies this
      ensures Valid()
      ensures inventory == old(inventory)[item := old(inventory)[item] - amount]
      ensures order == old(order)
      ensures balance == old(balance) + sellingPrice * amount
    {
      inventory := inventory[item := inventory[item] - amount];
      balance := balance + sellingPrice * amount;
    }

    /** Drops every lot that expires on or before `date` and every zero count. */
    method CleanInventory(date: int)
      requires Valid()
      modifies this
      ensures Valid()
      ensures inventory == Cleaned(old(inventory), date)
      ensures order == Kept(old(order), old(inventory), date)
      ensures balance == old(balance)
    {
      KeptLists(order, inventory, date);
      order := Kept(order, inventory, date);
      inventory := Cleaned(inventory, date);
    }
  }
}
