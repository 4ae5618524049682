# Fish store: ledger and turn rules

A model of the fishmonger game in `app.py`. A shop (`Store`) has a cash balance that
starts at 10000. It also holds an inventory that maps each lot of fish (`Item`) to a
count. Each turn the player views the stock, restocks from 3 to 6 freshly generated
lots, sells from every lot held at prices they name, moves to the next day (overhead
500), or quits. After each turn that gets that far, the game is lost when the balance
is negative. It is won when the balance exceeds ten times the starting balance.
Otherwise the inventory is swept of expired lots and zero counts.

The modules split `app.py` into the classes `Store` and `Item`, `generate_fish` with
the offer list, the sale loop of action 3 in `main`, and the rest of `main`:

- `Ledger` (`ledger.dfy`) holds the class `Item` and the class `Store`, with `Buy`,
  `Sell` and `CleanInventory`. The sweep is the pure function `Cleaned`, plus
  `Kept` for the dict's order, and lemmas about both.
- `Catalog` (`catalog.dfy`) holds `generate_fish` and the offer list. The random
  draws arrive as `Offer` values.
- `Market` (`market.dfy`) holds the sale loop of action 3 as values: the sale count
  (the sum of the 0/1 draws), the inventory after a round of sales and its takings,
  and lemmas about them.
- `TurnControl` (`game.dfy`) holds the class `Game`, which stands for the local
  state of `main`: the store, the starting balance, the day and today's menu.
  `Game.Turn` is one pass of the `while True` loop.

Modelling choices:

- Lots are objects compared by identity, as in Python, where `Item` defines no
  `__eq__`. Their fields are `const`.
- Dates are integer day numbers.
- The inventory is a `map`. Beside it, `Store.order` records the dict's insertion
  order. That is the order in which the sell action visits the lots, and the order
  the sweep keeps.
- Today's menu is the list of its entry numbers, `[1, 2, 3, 4, 5]`. `Remove` models
  `list.remove`.

Behaviour of `app.py` worth noting:

- `buy` overwrites a lot's count rather than adding to it. An amount of 0 is
  accepted.
- `sell` does not delete an entry whose count reaches zero. The sweep deletes it at
  the end of the turn.
- The sweep runs at the end of every turn that reaches the end-of-turn checks, not
  only on a day change. On a day change the overhead is debited first, and the
  sweep is skipped when that turn ends the game.
- Turns that go straight back to the menu skip both the checks and the sweep:
  a restock or sale not on today's menu, and an offer choice out of range.
- A lot bought and then sold by every draw stays in the inventory with count 0
  until the sweep at the end of that same turn.

## Model

| member | source | states |
|---|---|---|
| `Ledger.Item.constructor` | app.py:15-20 | a lot keeps the name, purchase price and expiry it was made with |
| `Ledger.Store.constructor` | app.py:36-39 | a new store has balance 10000, an empty inventory and an empty dict order |
| `Ledger.Store.Buy` | app.py:41-47 | the lot's count becomes exactly `amount` (overwritten, not added) and every other entry is unchanged; the balance drops by exactly price × amount with no affordability check; a new lot goes to the end of the dict order |
| `Ledger.Store.Sell` | app.py:49-55 | demands the lot be held (a KeyError otherwise); its count drops by `amount` and every other entry is unchanged; the entry stays even at zero; the balance rises by price × amount; the order is unchanged |
| `Ledger.Store.CleanInventory` | app.py:57-66 | the inventory becomes `Cleaned` of the old one at `date`, the order keeps the surviving lots in their old order, the balance is untouched, and the order still lists exactly the keys |
| `Ledger.Cleaned` | app.py:62-66 | the sweep yields a sub-map with unchanged counts, holds nothing expiring on or before `date` and no zero count, and drops nothing else |
| `Ledger.Kept` | app.py:62-66 | the rebuilt dict's order holds exactly the lots of the old order that survive the sweep |
| `Ledger.KeptLists` | app.py:62-66 | if the old order lists each key once, the swept order lists each key of the swept inventory once |
| `Ledger.KeptDistinct` | app.py:62-66 | filtering keeps a duplicate-free order duplicate-free |
| `Ledger.CleanedIdempotent` | app.py:62-66 | sweeping twice at the same date equals sweeping once |
| `Ledger.CleanedLater` | app.py:62-66 | a sweep at an earlier date followed by one at a later date equals the later sweep alone |
| `Ledger.CleanedFixpoint` | app.py:62-66 | the sweep leaves an inventory unchanged if and only if nothing in it is expired or zero |
| `Catalog.GenerateFish` | app.py:69-76 | a new, distinct lot whose price is the drawn one in [100, 5000], whose name is harbor + "産 " + species, and whose expiry is the date plus the drawn 1 to 3 days |
| `Catalog.GenerateOffers` | app.py:124 | one new lot per set of draws, in order, each a different object |
| `Market.SaleCount` | app.py:150 | the sold count, the sum of the 0/1 draws, lies in [0, number of draws]; it equals the number of draws exactly when every draw succeeds and 0 exactly when every draw fails |
| `Market.AfterSales` | app.py:144-153 | selling from the lots one after the other keeps exactly the same set of lots |
| `Market.Revenue` | app.py:153 | the takings of a round of sales are never negative when no price is negative |
| `Market.AfterSalesAt` | app.py:144-153 | each lot visited once ends with its old count minus the count its own draws sold |
| `Market.AfterSalesElsewhere` | app.py:144-153 | a lot the loop never visits keeps its count |
| `Market.SalesKeepStock` | app.py:150-153 | when each lot draws once per unit held, no count goes negative after selling |
| `TurnControl.FirstIndex` | app.py:155-156 | the position of the first occurrence of an entry in the menu |
| `TurnControl.Remove` | app.py:155-156 | `list.remove` deletes exactly the first occurrence of the entry, and demands that it be present |
| `TurnControl.MenuAfterSale` | app.py:155-156 | removing restock and then sell from the full menu leaves view, next day and quit |
| `TurnControl.Game.constructor` | app.py:97-107 | a session starts with a new store, records its balance as the starting balance, and starts on the given day with the full menu |
| `TurnControl.Game.BuyOffer` | app.py:119-136 | with restock off the menu, or a choice outside 1 to the number of offers, nothing changes; otherwise the chosen, newly generated lot is bought in the amount typed |
| `TurnControl.Game.SellInventory` | app.py:139-156 | with sell off the menu nothing changes; otherwise every lot sells its draws' count at its own price, the balance rises by the takings, no count goes negative, and restock and sell leave the menu |
| `TurnControl.SellLots` | app.py:144-153 | the loop over the lots in dict order keeps the order, leaves the inventory at `AfterSales` of the old one, and raises the balance by `Revenue` |
| `TurnControl.SellLot` | app.py:146-153 | one pass of that loop: lot k has its own sale count taken off and its price × count credited |
| `TurnControl.Game.CloseTrading` | app.py:155-156 | after a sale the menu is view, next day and quit |
| `TurnControl.Game.AdvanceDay` | app.py:158-161 | the day goes up by exactly one, the balance drops by exactly 500, the full menu returns, and the stock is untouched |
| `TurnControl.Game.CheckEnd` | app.py:167-174 | the game is lost exactly when the balance is negative; it is won exactly when the balance is not negative and exceeds ten times the starting balance; otherwise the inventory is swept against today's date |
| `TurnControl.Game.Turn` | app.py:110-174 | quitting, a gated restock or sale, or an out-of-range offer choice changes nothing; every other turn applies its action, ends lost, won or playing as `CheckEnd` says, and when playing leaves the stock tidy for today; the session invariant (order lists the keys, no negative count, full or post-sale menu) is kept |

## Left out

- Console input and output: the `input`/`print` loop and its `isnumeric` check in `numeric_input`, every `print`, the menu text and the percentage display. Each typed number is a natural-number parameter.
- Floating point: the sale probability `purchace_price / selling_price * U` and the weighted draws of `random.choices`. The model takes the draws as given lists of 0s and 1s, one per unit held.
- Randomness: `random.randint` and `random.choice` in `generate_fish` and in the offer count. They are caller-supplied `Offer` values and lists whose ranges the preconditions state.
- The reference lists of harbors and species (the `data` module is not part of this model). Names are opaque strings.
- `datetime.date.today()` and calendar arithmetic. The starting day is a parameter and dates are day numbers.
- A selling price of 0 divides by zero in the source. The model requires every price to be positive instead.
- The `while True` loop itself. `Game.Turn` is one pass of it, and a caller repeats it while the status is `Playing`.
- `Item.__repr__`, which only formats text.
