/**
  The view `render` produces (app.js:70-136), as values: the silver table,
  the gold table and the four spot price fields. The DOM, the input
  elements and the currency formatting are not part of it.
 */
module Presentation {
  import opened Wrappers
  import opened Quantity
  import opened Keys
  import opened Coins
  import opened Valuation

  /** One table row: name, fine grams, the quantity shown in the input, the
      key the input carries, and the melt value as printed. */
  datatype Row = Row(name: string, fineGrams: real, qty: real, key: string, melt: Display)

  datatype View = View(
    silverRows: seq<Row>, goldRows: seq<Row>,
    goldSpot: Display, goldGram: Display, silverSpot: Display, silverGram: Display)

  /** `coins.filter(c => c.metal === metal)`. */
  function FilterMetal(coins: seq<Coin>, metal: string): (r: seq<Coin>)
    ensures |r| <= |coins|
    ensures forall i :: 0 <= i < |r| ==> r[i].metal == metal
  {
    if coins == [] then []
    else (if coins[0].metal == metal then [coins[0]] else []) + FilterMetal(coins[1..], metal)
  }

  /** `makeRow` (app.js:78-101) without the DOM. */
  function MakeRow(c: Coin, spot: Spot): (r: Row)
    ensures r.name == c.name && r.fineGrams == c.fineGrams && r.key == CoinKey(c.metal, c.name)
    ensures r.qty == EffectiveQty(c.qty)
    ensures r.melt.Dash? <==> PerGramFor(spot, c.metal).None?
  {
    Row(c.name, c.fineGrams, EffectiveQty(c.qty), Key(c), Money(Melt(c, spot)))
  }

  /** One row per coin, in order. */
  function Rows(coins: seq<Coin>, spot: Spot): (rows: seq<Row>)
    ensures |rows| == |coins|
    ensures forall i :: 0 <= i < |coins| ==> rows[i] == MakeRow(coins[i], spot)
  {
    if coins == [] then [] else [MakeRow(coins[0], spot)] + Rows(coins[1..], spot)
  }

  /** A render pass: silver coins in catalog order, then gold coins in
      catalog order, then the header prices. */
  function Render(coins: seq<Coin>, spot: Spot): (v: View)
    ensures var silver, gold := FilterMetal(coins, "silver"), FilterMetal(coins, "gold");
            && |v.silverRows| == |silver| && |v.goldRows| == |gold|
            && (forall i :: 0 <= i < |silver| ==> v.silverRows[i] == MakeRow(silver[i], spot))
            && (forall i :: 0 <= i < |gold| ==> v.goldRows[i] == MakeRow(gold[i], spot))
    ensures v.goldSpot.Dash? <==> spot.gold.perOzt.None?
    ensures v.goldGram.Dash? <==> spot.gold.perGram.None?
    ensures v.silverSpot.Dash? <==> spot.silver.perOzt.None?
    ensures v.silverGram.Dash? <==> spot.silver.perGram.None?
  {
    View(
      Rows(FilterMetal(coins, "silver"), spot), Rows(FilterMetal(coins, "gold"), spot),
      Money(spot.gold.perOzt), Money(spot.gold.perGram),
      Money(spot.silver.perOzt), Money(spot.silver.perGram))
  }

  /** Filtering keeps catalog order: it distributes over concatenation. */
  lemma {:induction false} FilterAppend(a: seq<Coin>, b: seq<Coin>, metal: string)
    ensures FilterMetal(a + b, metal) == FilterMetal(a, metal) + FilterMetal(b, metal)
  {
    if a == [] {
      assert a + b == b;
    } else {
      var ab := a + b;
      assert ab[0] == a[0] && ab[1..] == a[1..] + b;
      FilterAppend(a[1..], b, metal);
      var head := if a[0].metal == metal then [a[0]] else [];
      assert FilterMetal(ab, metal) == head + FilterMetal(a[1..] + b, metal);
      assert FilterMetal(a, metal) == head + FilterMetal(a[1..], metal);
    }
  }

  /** A coin is listed under a metal exactly when it is in the catalog with
      that metal. */
  lemma {:induction false} FilterMembership(coins: seq<Coin>, metal: string, c: Coin)
    ensures c in FilterMetal(coins, metal) <==> c in coins && c.metal == metal
  {
    if coins != [] {
      FilterMembership(coins[1..], metal, c);
      assert coins == [coins[0]] + coins[1..];
    }
  }

  /** Every gold or silver coin has exactly one row; a coin of any other metal
      has none, so the two tables together are as long as the catalog exactly
      when every coin is gold or silver. */
  lemma {:induction false} PartitionCount(coins: seq<Coin>)
    ensures |FilterMetal(coins, "silver")| + |FilterMetal(coins, "gold")| <= |coins|
    ensures (|FilterMetal(coins, "silver")| + |FilterMetal(coins, "gold")| == |coins|)
              <==> (forall i :: 0 <= i < |coins| ==> KnownMetal(coins[i].metal))
  {
    if coins != [] {
      PartitionCount(coins[1..]);
      if !KnownMetal(coins[0].metal) {
        assert |FilterMetal(coins, "silver")| + |FilterMetal(coins, "gold")| < |coins|;
      } else {
        assert (forall i :: 0 <= i < |coins| ==> KnownMetal(coins[i].metal))
           <==> (forall i :: 0 <= i < |coins[1..]| ==> KnownMetal(coins[1..][i].metal));
      }
    }
  }

  /** Before any price is known every melt cell and every header shows the dash. */
  lemma RenderUnpriced(coins: seq<Coin>)
    ensures var v := Render(coins, Unpriced);
            && (forall i :: 0 <= i < |v.silverRows| ==> v.silverRows[i].melt == Dash)
            && (forall i :: 0 <= i < |v.goldRows| ==> v.goldRows[i].melt == Dash)
            && v.goldSpot == Dash && v.goldGram == Dash && v.silverSpot == Dash && v.silverGram == Dash
  {
  }

  /** Rows of coins of one quoted metal show `MeltFromOzt` of the quote. */
  lemma RowsOfQuotedMetal(coins: seq<Coin>, spot: Spot, metal: string, perOzt: real)
    requires forall i :: 0 <= i < |coins| ==> coins[i].metal == metal
    requires PerGramFor(spot, metal) == Quote(perOzt).perGram
    ensures forall i :: 0 <= i < |coins| ==>
              Rows(coins, spot)[i].melt == Amount(MeltFromOzt(coins[i].fineGrams, EffectiveQty(coins[i].qty), perOzt))
  {
    forall i | 0 <= i < |coins|
      ensures Melt(coins[i], spot) == Some(MeltFromOzt(coins[i].fineGrams, EffectiveQty(coins[i].qty), perOzt))
    {
      MeltOfQuote(coins[i], spot, perOzt);
    }
  }

  /** With quoted prices every listed row shows its melt amount, and the
      headers show both prices of each metal. */
  lemma RenderPriced(coins: seq<Coin>, goldOzt: real, silverOzt: real)
    ensures var v := Render(coins, Spot(Quote(goldOzt), Quote(silverOzt)));
            var silvers := FilterMetal(coins, "silver");
            var golds := FilterMetal(coins, "gold");
            && |v.silverRows| == |silvers| && |v.goldRows| == |golds|
            && (forall i :: 0 <= i < |silvers| ==>
                  v.silverRows[i].melt == Amount(MeltFromOzt(silvers[i].fineGrams, EffectiveQty(silvers[i].qty), silverOzt)))
            && (forall i :: 0 <= i < |golds| ==>
                  v.goldRows[i].melt == Amount(MeltFromOzt(golds[i].fineGrams, EffectiveQty(golds[i].qty), goldOzt)))
            && v.goldSpot == Amount(goldOzt) && v.goldGram == Amount(goldOzt / TroyOzToGrams)
            && v.silverSpot == Amount(silverOzt) && v.silverGram == Amount(silverOzt / TroyOzToGrams)
  {
    var spot := Spot(Quote(goldOzt), Quote(silverOzt));
    RowsOfQuotedMetal(FilterMetal(coins, "silver"), spot, "silver", silverOzt);
    RowsOfQuotedMetal(FilterMetal(coins, "gold"), spot, "gold", goldOzt);
  }
}
