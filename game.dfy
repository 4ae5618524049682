/** The turn controller of `main` in app.py: one session of the game, one action
    per turn. Console input is replaced by a Command that carries what the player
    typed and what the random draws came out as. */
module TurnControl {
  import opened Ledger
  import opened Catalog
  import opened Market

  /** The menu, by entry number: 1 view stock, 2 restock, 3 sell, 4 next day, 5 quit. */
  const ViewEntry: int := 1
  const RestockEntry: int := 2
  const SellEntry: int := 3
  const NextDayEntry: int := 4
  const QuitEntry: int := 5
  const AllActions: seq<int> := [ViewEntry, RestockEntry, SellEntry, NextDayEntry, QuitEntry]
  /** The menu left once the day's sale has happened. */
  const AfterSaleActions: seq<int> := [ViewEntry, NextDayEntry, QuitEntry]

  /** The daily overhead debited by the next-day action. */
  const Overhead: int := 500
  /** The game is won once the balance exceeds this many times the starting balance. */
  const WinFactor: int := 10

  /** Where `x` first occurs in `s`. */
  function FirstIndex(s: seq<int>, x: int): (i: nat)
    requires x in s
    ensures i < |s| && s[i] == x
    ensures forall j :: 0 <= j < i ==> s[j] != x
  {
    if s[0] == x then 0 else 1 + FirstIndex(s[1..], x)
  }

  /** `list.remove`: the list without the first occurrence of `x`
      (a missing `x` raises ValueError). */
  function Remove(s: seq<int>, x: int): (r: seq<int>)
    requires x in s
    ensures |r| == |s| - 1
    ensures r == s[..FirstIndex(s, x)] + s[FirstIndex(s, x) + 1..]
  {
    if s[0] == x then s[1..]
    else
      var rest := s[1..];
      assert s[..FirstIndex(s, x)] == [s[0]] + rest[..FirstIndex(rest, x)];
      [s[0]] + Remove(rest, x)
  }

  /** Selling takes restock and sell off the full menu. */
  lemma MenuAfterSale(menu: seq<int>)
    requires menu == AllActions
    ensures RestockEntry in menu
    ensures Remove(menu, RestockEntry) == [ViewEntry, SellEntry, NextDayEntry, QuitEntry]
    ensures Remove(Remove(menu, RestockEntry), SellEntry) == AfterSaleActions
  {
    assert FirstIndex(menu, RestockEntry) == 1;
    assert FirstIndex([ViewEntry, SellEntry, NextDayEntry, QuitEntry], SellEntry) == 1;
  }

  /** The state of the store after the first `k` passes of the selling loop,
      from the inventory `inv0` and balance `bal0` it started with. */
  ghost predicate SoldUpTo(s: Store, inv0: Inventory, bal0: int, order: seq<Item>,
                           prices: seq<int>, trials: seq<seq<int>>, k: nat)
    reads s
  {
    && SaleInputs(inv0, order, prices, trials) && k <= |order|
    && s.Valid() && s.order == order
    && s.inventory == AfterSales(inv0, order, trials, k)
    && s.balance == bal0 + Revenue(prices, trials, k)
  }

  /** The loop of action 3: each lot, in dict order, sells the units its draws
      say at the price typed for it. */
  method SellLots(s: Store, prices: seq<int>, trials: seq<seq<int>>)
    requires s.Valid() && SaleInputs(s.inventory, s.order, prices, trials)
    modifies s
    ensures s.Valid() && s.order == old(s.order)
    ensures s.inventory == AfterSales(old(s.inventory), old(s.order), trials, |old(s.order)|)
    ensures s.balance == old(s.balance) + Revenue(prices, trials, |trials|)
  {
    ghost var inv0, bal0 := s.inventory, s.balance;
    var order := s.order;
    var k := 0;
    while k < |order|
      invariant SoldUpTo(s, inv0, bal0, order, prices, trials, k)
    {
      SellLot(s, inv0, bal0, order, prices, trials, k);
      k := k + 1;
    }
  }

  /** One pass of that loop: lot `k` sells its own count at its own price. */
  method SellLot(s: Store, ghost inv0: Inventory, ghost bal0: int, order: seq<Item>,
                 prices: seq<int>, trials: seq<seq<int>>, k: nat)
    requires SoldUpTo(s, inv0, bal0, order, prices, trials, k) && k < |order|
    modifies s
    ensures SoldUpTo(s, inv0, bal0, order, prices, trials, k + 1)
  {
    s.Sell(order[k], SaleCount(trials[k]), prices[k]);
  }

  /** One turn's input: the menu entry chosen and what that action then reads. */
  datatype Command =
    | View
      // entry 2: the draws for each fish offered, the number typed to choose one
      // (one past the last means "buy nothing") and the number of fish to buy
    | Restock(offers: seq<Offer>, entered: nat, amount: nat)
      // entry 3: per lot held, in dict order, the price typed and the sale draws
    | SellAll(prices: seq<int>, trials: seq<seq<int>>)
    | NextDay
    | Quit
      // any other number: no action, but the end-of-turn checks still run
    | Unlisted(entry: nat)

  datatype Status = Playing | Quitted | Lost | Won

  class Game {
    const store: Store
    const initialBalance: int
    var day: int
    var todaysActions: seq<int>

    ghost predicate Valid()
      reads this, store
    {
      && store.Valid()
      && NonNegative(store.inventory)
      && (todaysActions == AllActions || todaysActions == AfterSaleActions)
    }

    /** A new session on day `today`, with a new store. */
    constructor (today: int)
      ensures Valid() && fresh(store)
      ensures store.balance == StartingBalance && store.inventory == map[] && store.order == []
      ensures initialBalance == StartingBalance
      ensures day == today && todaysActions == AllActions
    {
      var s := new Store();
      store := s;
      initialBalance := s.balance;
      day := today;
      todaysActions := AllActions;
    }

    /** What a turn with `cmd` demands of the random draws and the numbers typed:
        3 to 6 fish offered with prices and shelf lives in range; one positive
        price and one draw per unit held for every lot sold from. */
    predicate Admissible(cmd: Command)
      reads this, store
    {
      match cmd
      case Restock(offers, _, _) =>
        RestockEntry in todaysActions ==>
          3 <= |offers| <= 6 && forall k :: 0 <= k < |offers| ==> ValidOffer(offers[k])
      case SellAll(prices, trials) =>
        SellEntry in todaysActions ==> SaleInputs(store.inventory, store.order, prices, trials)
      case Unlisted(entry) => !(1 <= entry <= 5)
      case _ => true
    }

    /** Whether the turn reaches the end-of-turn checks: quitting leaves the loop,
        and a restock or sale that is not on today's menu, or an offer choice out
        of range, goes straight back to the menu. */
    predicate Proceeds(cmd: Command)
      reads this
    {
      match cmd
      case Restock(offers, entered, _) => RestockEntry in todaysActions && 1 <= entered <= |offers|
      case SellAll(_, _) => SellEntry in todaysActions
      case Quit => false
      case _ => true
    }

    /** Action 2: offer freshly generated fish and buy `amount` of the one chosen.
        Returns null when the action is not on today's menu or nothing is chosen. */
    method BuyOffer(offers: seq<Offer>, entered: nat, amount: nat) returns (bought: Item?)
      requires Valid()
      requires RestockEntry in todaysActions ==>
        3 <= |offers| <= 6 && forall k :: 0 <= k < |offers| ==> ValidOffer(offers[k])
      modifies store
      ensures Valid()
      ensures bought == null <==> !old(Proceeds(Restock(offers, entered, amount)))
      ensures bought == null ==>
        && store.balance == old(store.balance)
        && store.inventory == old(store.inventory) && store.order == old(store.order)
      ensures bought != null ==>
        && fresh(bought) && Made(bought, day, offers[entered - 1])
        && store.inventory == old(store.inventory)[bought := amount]
        && store.order == old(store.order) + [bought]
        && store.balance == old(store.balance) - bought.purchasePrice * amount
    {
      bought := null;
      if RestockEntry !in todaysActions {
        return;
      }
      var onSale := GenerateOffers(day, offers);
      var choice := entered - 1;
      if choice < 0 || choice >= |onSale| {
        return;
      }
      bought := onSale[choice];
      store.Buy(bought, amount);
    }

    /** Action 3: sell from every lot held, in dict order, then take restock and
        sell off today's menu. Returns false when selling is not on today's menu. */
    method SellInventory(prices: seq<int>, trials: seq<seq<int>>) returns (sold: bool)
      requires Valid()
      requires SellEntry in todaysActions ==> SaleInputs(store.inventory, store.order, prices, trials)
      modifies this, store
      ensures Valid()
      ensures sold <==> SellEntry in old(todaysActions)
      ensures day == old(day)
      ensures !sold ==>
        && todaysActions == old(todaysActions) && store.balance == old(store.balance)
        && store.inventory == old(store.inventory) && store.order == old(store.order)
      ensures sold ==>
        && todaysActions == AfterSaleActions
        && store.order == old(store.order)
        && store.inventory == AfterSales(old(store.inventory), old(store.order), trials, |old(store.order)|)
        && store.balance == old(store.balance) + Revenue(prices, trials, |trials|)
    {
      if SellEntry !in todaysActions {
        return false;
      }
      assert todaysActions == AllActions by {
        assert SellEntry !in AfterSaleActions;
      }
      SellLots(store, prices, trials);
      SalesKeepStock(old(store.inventory), old(store.order), prices, trials);
      CloseTrading();
      sold := true;
    }

    /** The end of action 3: restock and sell come off today's menu. */
    method CloseTrading()
      requires todaysActions == AllActions
      modifies this
      ensures todaysActions == AfterSaleActions && day == old(day)
    {
      MenuAfterSale(todaysActions);
      todaysActions := Remove(Remove(todaysActions, RestockEntry), SellEntry);
    }

    /** Action 4: move to the next day, pay the overhead, restore the full menu. */
    method AdvanceDay()
      requires Valid()
      modifies this, store
      ensures Valid()
      ensures day == old(day) + 1 && todaysActions == AllActions
      ensures store.balance == old(store.balance) - Overhead
      ensures store.inventory == old(store.inventory) && store.order == old(store.order)
    {
      day := day + 1;
      store.balance := store.balance - Overhead;
      todaysActions := AllActions;
    }

    /** The end of a turn: a negative balance loses, a balance above ten times the
        starting one wins, and otherwise the stock is swept against today's date. */
    method CheckEnd() returns (status: Status)
      requires Valid()
      modifies store
      ensures Valid()
      ensures status == Lost <==> store.balance < 0
      ensures status == Won <==> 0 <= store.balance && store.balance > WinFactor * initialBalance
      ensures status != Quitted
      ensures store.balance == old(store.balance)
      ensures status == Playing ==>
        && store.inventory == Cleaned(old(store.inventory), day)
        && store.order == Kept(old(store.order), old(store.inventory), day)
      ensures status != Playing ==>
        store.inventory == old(store.inventory) && store.order == old(store.order)
    {
      if store.balance < 0 {
        status := Lost;
      } else if store.balance > initialBalance * WinFactor {
        status := Won;
      } else {
        store.CleanInventory(day);
        status := Playing;
      }
    }

    /** One pass of the game loop. `bought` is the lot a restock bought, else null. */
    method Turn(cmd: Command) returns (status: Status, bought: Item?)
      requires Valid() && Admissible(cmd)
      modifies this, store
      ensures Valid()
      // turns that go straight back to the menu, or leave it
      ensures !old(Proceeds(cmd)) ==>
        && status == (if cmd.Quit? then Quitted else Playing)
        && bought == null && day == old(day) && todaysActions == old(todaysActions)
        && store.balance == old(store.balance)
        && store.inventory == old(store.inventory) && store.order == old(store.order)
      // every other turn ends in the checks
      ensures old(Proceeds(cmd)) ==>
        && status != Quitted
        && (status == Lost <==> store.balance < 0)
        && (status == Won <==> 0 <= store.balance && store.balance > WinFactor * initialBalance)
        && (status == Playing ==> Tidy(store.inventory, day))
      // viewing, or an entry not on the menu
      ensures old(Proceeds(cmd)) && (cmd.View? || cmd.Unlisted?) ==>
        && day == old(day) && todaysActions == old(todaysActions)
        && store.balance == old(store.balance)
        && store.inventory == (if status == Playing then Cleaned(old(store.inventory), day)
                               else old(store.inventory))
        && store.order == (if status == Playing then Kept(old(store.order), old(store.inventory), day)
                           else old(store.order))
      // restocking
      ensures old(Proceeds(cmd)) && cmd.Restock? ==>
        && bought != null && fresh(bought) && Made(bought, day, cmd.offers[cmd.entered - 1])
        && day == old(day) && todaysActions == old(todaysActions)
        && store.balance == old(store.balance) - bought.purchasePrice * cmd.amount
        && store.inventory == (if status == Playing then Cleaned(old(store.inventory)[bought := cmd.amount], day)
                               else old(store.inventory)[bought := cmd.amount])
        && store.order == (if status == Playing
                           then Kept(old(store.order) + [bought], old(store.inventory)[bought := cmd.amount], day)
                           else old(store.order) + [bought])
      // selling
      ensures old(Proceeds(cmd)) && cmd.SellAll? ==>
        && day == old(day) && todaysActions == AfterSaleActions
        && store.balance == old(store.balance) + Revenue(cmd.prices, cmd.trials, |cmd.trials|)
        && store.inventory == (if status == Playing then Cleaned(AfterSales(old(store.inventory), old(store.order), cmd.trials, |old(store.order)|), day)
                               else AfterSales(old(store.inventory), old(store.order), cmd.trials, |old(store.order)|))
        && store.order == (if status == Playing
                           then Kept(old(store.order), AfterSales(old(store.inventory), old(store.order), cmd.trials, |old(store.order)|), day)
                           else old(store.order))
      // the next day
      ensures cmd.NextDay? ==>
        && day == old(day) + 1 && todaysActions == AllActions
        && store.balance == old(store.balance) - Overhead
        && store.inventory == (if status == Playing then Cleaned(old(store.inventory), day)
                               else old(store.inventory))
        && store.order == (if status == Playing then Kept(old(store.order), old(store.inventory), day)
                           else old(store.order))
      ensures !cmd.Restock? ==> bought == null
    {
      bought := null;
      match cmd {
        case View =>
        case Restock(offers, entered, amount) =>
          bought := BuyOffer(offers, entered, amount);
          if bought == null {
            return Playing, null;
          }
        case SellAll(prices, trials) =>
          var sold := SellInventory(prices, trials);
          if !sold {
            return Playing, null;
          }
        case NextDay =>
          AdvanceDay();
        case Quit =>
          return Quitted, null;
        case Unlisted(_) =>
      }
      status := CheckEnd();
    }
  }

  /** Worked example: buy five fish at 200 from 10000, then sell all five at 300
      with every draw succeeding; the emptied lot is swept at the end of the turn. */
  method BuyThenSellEverything() returns (g: Game)
    ensures fresh(g) && fresh(g.store) && g.Valid()
    ensures g.day == 0 && g.todaysActions == AfterSaleActions && g.initialBalance == StartingBalance
    ensures g.store.balance == 10500 && g.store.inventory == map[] && g.store.order == []
  {
    g := new Game(0);
    var offers := [Offer(200, "銚子", "鯖", 2), Offer(1000, "焼津", "鰹", 1), Offer(3000, "大間", "鮪", 3)];
    var status, lot := g.Turn(Restock(offers, 1, 5));
    assert lot != null && lot.expiresAt == 2;
    assert status == Playing && g.store.balance == 9000;
    assert g.store.inventory == map[lot := 5] && g.store.order == [lot];

    var none;
    status, none := g.Turn(SellAll([300], [[1, 1, 1, 1, 1]]));
    assert status == Playing && g.store.balance == 10500;
    assert g.store.inventory == map[] && g.store.order == [];
  }

  /** Worked example, continued: after the day's sale a restock goes straight back
      to the menu, and the next day costs 500 and reopens the full menu. */
  method NoRestockAfterSale()
  {
    var g := BuyThenSellEverything();
    var offers := [Offer(200, "銚子", "鯖", 2), Offer(1000, "焼津", "鰹", 1), Offer(3000, "大間", "鮪", 3)];
    var status, again := g.Turn(Restock(offers, 1, 5));
    assert status == Playing && again == null && g.store.balance == 10500;

    status, again := g.Turn(NextDay);
    assert status == Playing && g.day == 1 && g.store.balance == 10000;
    assert g.todaysActions == AllActions;
  }

  /** Worked example: spend down to 400, then the next day's overhead leaves
      a deficit of 100 and the game is lost. */
  method OverheadLoses()
  {
    var g := new Game(0);
    var offers := [Offer(5000, "根室", "鮭", 1), Offer(4600, "境港", "蟹", 2), Offer(100, "氷見", "鰤", 3)];
    var status, a := g.Turn(Restock(offers, 1, 1));
    assert status == Playing && g.store.balance == 5000;
    var b;
    status, b := g.Turn(Restock(offers, 2, 1));
    assert status == Playing && g.store.balance == 400;
    status, b := g.Turn(NextDay);
    assert g.store.balance == -100 && status == Lost;
  }
}
