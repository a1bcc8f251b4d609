/**
  The page's state and the operations that change it (app.js:10, app.js:30-33,
  app.js:58-68, app.js:105-118, app.js:138-163): the in-memory coin list, the
  `spot` record and the browser's quantity store. Network fetches arrive as
  outcomes passed in; the DOM is replaced by the `View` that
  `Presentation.Render` makes of `coins` and `spot`.
 */
module Page {
  import opened Wrappers
  import opened Quantity
  import opened Keys
  import opened Store
  import opened Coins
  import opened Valuation
  import opened Presentation

  /** The message of an error thrown by a fetch or its parsing. */
  type Failure = string

  /** No other coin of the list shares the key of the coin at `i`. */
  ghost predicate KeyUniqueAt(coins: seq<Coin>, i: nat)
    requires i < |coins|
  {
    forall j :: 0 <= j < |coins| && j != i ==> Key(coins[j]) != Key(coins[i])
  }

  class PriceTracker {
    var coins: seq<Coin>
    var spot: Spot
    var store: Stored

    /** The page before `main` runs: no coins, no prices, and whatever an
        earlier session left in the store. */
    constructor (persisted: Stored)
      ensures coins == [] && spot == Unpriced && store == persisted
    {
      coins := [];
      spot := Unpriced;
      store := persisted;
    }

    /** Every coin is shown at the quantity a fresh load of the store would
        give it: what is on screen survives a reload. */
    ghost predicate Synced()
      reads this
    {
      forall i :: 0 <= i < |coins| ==>
        EffectiveQty(coins[i].qty) == StoredQty(LoadQtyMap(store), Key(coins[i]))
    }

    /** `loadCoins` (app.js:58-68): on a failed fetch of the coin list the
        error propagates and nothing changes; otherwise the list, overlaid with
        the stored quantities, replaces `coins`. The store is only read. */
    method LoadCoins(fetched: Result<seq<Entry>, Failure>) returns (err: Option<Failure>)
      modifies this`coins
      ensures fetched.Err? ==> err == Some(fetched.error) && coins == old(coins)
      ensures fetched.Ok? ==> err == None && coins == Overlay(fetched.value, LoadQtyMap(store))
      ensures fetched.Ok? ==> Synced()
    {
      if fetched.Err? {
        return Some(fetched.error);
      }
      var qtyMap := LoadQtyMap(store);
      coins := Overlay(fetched.value, qtyMap);
      err := None;
    }

    /** The quantity input handler (app.js:105-118) of the row of the coin at
        `i`: the coin's quantity becomes the normalised text, and exactly the
        coin's key is rewritten in a freshly loaded map, which is saved whole.
        When no other coin shares the key, the page stays in step with the
        store. */
    method EditQty(i: nat, text: string)
      requires i < |coins|
      modifies this`coins, this`store
      ensures coins == old(coins)[i := old(coins)[i].(qty := NormalizeQty(text))]
      ensures store == StoreAfterEdit(old(store), Key(old(coins)[i]), NormalizeQty(text))
      ensures old(Synced()) && KeyUniqueAt(old(coins), i) ==> Synced()
    {
      var newQty := NormalizeQty(text);
      var c := coins[i];
      coins := coins[i := c.(qty := newQty)];
      var qtyMap := LoadQtyMap(store);
      qtyMap := qtyMap[Key(c) := newQty];
      store := Save(qtyMap);
      assert store == StoreAfterEdit(old(store), Key(c), newQty);
      if old(Synced()) && KeyUniqueAt(old(coins), i) {
        forall j | 0 <= j < |coins|
          ensures EffectiveQty(coins[j].qty) == StoredQty(LoadQtyMap(store), Key(coins[j]))
        {
          if j != i {
            assert coins[j] == old(coins)[j];
          }
        }
      }
    }

    /** `refreshPrices` (app.js:138-150): the gold price is awaited, then the
        silver price; a failure of either propagates before any field of
        `spot` is assigned, so a refresh is all or nothing. On success both
        metals take the fetched price per troy ounce and the price per gram
        derived from it. */
    method RefreshPrices(gold: Result<real, Failure>, silver: Result<real, Failure>)
      returns (err: Option<Failure>)
      modifies this`spot
      ensures gold.Err? ==> err == Some(gold.error) && spot == old(spot)
      ensures gold.Ok? && silver.Err? ==> err == Some(silver.error) && spot == old(spot)
      ensures gold.Ok? && silver.Ok? ==>
                err == None && spot == Spot(Quote(gold.value), Quote(silver.value))
    {
      if gold.Err? {
        return Some(gold.error);
      }
      var goldOzt := gold.value;
      if silver.Err? {
        return Some(silver.error);
      }
      var silvOzt := silver.value;

      spot := spot.(gold := spot.gold.(perOzt := Some(goldOzt)));
      spot := spot.(gold := spot.gold.(perGram := Some(goldOzt / TroyOzToGrams)));

      spot := spot.(silver := spot.silver.(perOzt := Some(silvOzt)));
      spot := spot.(silver := spot.silver.(perGram := Some(silvOzt / TroyOzToGrams)));
      err := None;
    }

    /** `main` (app.js:152-163): load the coin list, then refresh the prices;
        the first error ends the start-up and is what the user is shown. */
    method Start(catalog: Result<seq<Entry>, Failure>,
                 gold: Result<real, Failure>, silver: Result<real, Failure>)
      returns (err: Option<Failure>)
      modifies this`coins, this`spot
      ensures catalog.Err? ==> err == Some(catalog.error) && coins == old(coins) && spot == old(spot)
      ensures catalog.Ok? ==> coins == Overlay(catalog.value, LoadQtyMap(store)) && Synced()
      ensures catalog.Ok? && gold.Ok? && silver.Ok? ==>
                err == None && spot == Spot(Quote(gold.value), Quote(silver.value))
      ensures catalog.Ok? && gold.Err? ==> err == Some(gold.error) && spot == old(spot)
      ensures catalog.Ok? && gold.Ok? && silver.Err? ==> err == Some(silver.error) && spot == old(spot)
    {
      err := LoadCoins(catalog);
      if err.Some? {
        return;
      }
      err := RefreshPrices(gold, silver);
    }
  }

  /** A stored quantity survives an edit and a reload: after the handler stores
      the normalised text under a coin's key, loading the list again gives that
      coin, and every coin with the same metal and name, the stored value. */
  lemma EditSurvivesReload(entries: seq<Entry>, s: Stored, i: nat, text: string, j: nat)
    requires i < |entries| && j < |entries|
    requires entries[j].metal == entries[i].metal && entries[j].name == entries[i].name
    ensures var key := CoinKey(entries[i].metal, entries[i].name);
            Overlay(entries, LoadQtyMap(StoreAfterEdit(s, key, NormalizeQty(text))))[j].qty
              == Finite(EffectiveQty(NormalizeQty(text)))
  {
    var key := CoinKey(entries[i].metal, entries[i].name);
    EditThenReload(entries, s, key, NormalizeQty(text), j);
  }

  /** An edit of a finite count reads back as that count after a reload. */
  lemma EditOfCountSurvivesReload(entries: seq<Entry>, s: Stored, i: nat, n: nat)
    requires i < |entries|
    ensures var key := CoinKey(entries[i].metal, entries[i].name);
            Overlay(entries, LoadQtyMap(StoreAfterEdit(s, key, NormalizeQty(Decimal(n)))))[i].qty
              == Finite(n as real)
  {
    NormalizeDecimal([], n, []);
    assert [] + Decimal(n) + [] == Decimal(n);
    EditSurvivesReload(entries, s, i, Decimal(n), i);
  }
}
