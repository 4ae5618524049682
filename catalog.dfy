/** The fish on offer at a restock (generate_fish and the offer list of app.py).
    The random draws are supplied by the caller. */
module Catalog {
  import opened Ledger

  /** The random draws behind one generated lot: its purchase price, a harbor and a
      species from the reference lists, and its shelf life in days. */
  datatype Offer = Offer(price: int, harbor: string, species: string, shelfLife: int)

  /** The ranges `random.randint` draws from. */
  predicate ValidOffer(o: Offer) {
    100 <= o.price <= 5000 && 1 <= o.shelfLife <= 3
  }

  /** A lot's display name: harbor of origin, then species. */
  function FishName(harbor: string, species: string): (name: string) {
    harbor + "産 " + species
  }

  /** `item` is the lot generated on `date` from the draws `o`. */
  predicate Made(item: Item, date: int, o: Offer) {
    && item.name == FishName(o.harbor, o.species)
    && item.purchasePrice == o.price
    && item.expiresAt == date + o.shelfLife
  }

  /** A new lot from the draws `o`: priced in [100, 5000], expiring one to three
      days after `date`. */
  method GenerateFish(date: int, o: Offer) returns (item: Item)
    requires ValidOffer(o)
    ensures fresh(item) && Made(item, date, o)
    ensures 100 <= item.purchasePrice <= 5000
    ensures date + 1 <= item.expiresAt <= date + 3
  {
    item := new Item(FishName(o.harbor, o.species), o.price, date + o.shelfLife);
  }

  /** The offer list of a restock: one new lot per set of draws, in order, each a
      different object. */
  method GenerateOffers(date: int, draws: seq<Offer>) returns (items: seq<Item>)
    requires forall k :: 0 <= k < |draws| ==> ValidOffer(draws[k])
    ensures |items| == |draws| && Distinct(items)
    ensures forall k :: 0 <= k < |items| ==> fresh(items[k]) && Made(items[k], date, draws[k])
  {
    items := [];
    var k := 0;
    while k < |draws|
      invariant 0 <= k <= |draws| && |items| == k
      invariant Distinct(items)
      invariant forall j :: 0 <= j < k ==> fresh(items[j]) && Made(items[j], date, draws[j])
    {
      var lot := GenerateFish(date, draws[k]);
      items := items + [lot];
      k := k + 1;
    }
  }
}
