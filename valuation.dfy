/**
  Spot prices and the melt value of a coin (app.js:1, app.js:30-43,
  app.js:79-84). Prices and grams are real numbers; no rounding is modelled.
 */
module Valuation {
  import opened Wrappers
  import opened Quantity
  import opened Keys
  import opened Coins

  /** Grams in one troy ounce. */
  const TroyOzToGrams: real := 31.1034768

  /** One metal's entry of `spot`; `None` is `null`, before the first refresh. */
  datatype MetalPrice = MetalPrice(perOzt: Option<real>, perGram: Option<real>)

  datatype Spot = Spot(gold: MetalPrice, silver: MetalPrice)

  /** The initial `spot`: both metals null/null (app.js:30-33). */
  const Unpriced: Spot := Spot(MetalPrice(None, None), MetalPrice(None, None))

  /** A metal's entry after a successful refresh: the fetched price per troy
      ounce and the price per gram derived from it. */
  function Quote(perOzt: real): (p: MetalPrice)
    ensures p.perOzt == Some(perOzt) && p.perGram.Some?
    ensures p.perGram.value * TroyOzToGrams == perOzt
  {
    MetalPrice(Some(perOzt), Some(perOzt / TroyOzToGrams))
  }

  /** `spot[c.metal]?.perGram`: a metal other than gold or silver has none. */
  function PerGramFor(spot: Spot, metal: string): (r: Option<real>)
    ensures !KnownMetal(metal) ==> r.None?
    ensures metal == "gold" ==> r == spot.gold.perGram
    ensures metal == "silver" ==> r == spot.silver.perGram
  {
    if metal == "gold" then spot.gold.perGram
    else if metal == "silver" then spot.silver.perGram
    else None
  }

  /** The melt value of a coin (app.js:79-84): null while the metal's price per
      gram is not a number, otherwise fine grams times quantity times price
      per gram, the quantity taken as 1 when it is not finite. */
  function Melt(c: Coin, spot: Spot): (r: Option<real>)
    ensures r.None? <==> PerGramFor(spot, c.metal).None?
    ensures r.Some? && EffectiveQty(c.qty) == 0.0 ==> r.value == 0.0
  {
    var perGram := PerGramFor(spot, c.metal);
    if perGram.None? then None else Some(c.fineGrams * EffectiveQty(c.qty) * perGram.value)
  }

  /** What `money` and `num` print, with the locale formatting left abstract:
      the placeholder dash for null or NaN, otherwise the formatted amount. */
  datatype Display = Dash | Amount(value: real)

  function Money(n: Option<real>): (d: Display)
    ensures d.Dash? <==> n.None?
    ensures n.Some? ==> d.value == n.value
  {
    if n.None? then Dash else Amount(n.value)
  }

  /** Melt is null exactly when the coin's metal has no price per gram, and a
      null melt is shown as the dash, never as an amount (in particular not 0). */
  lemma MeltNullIffUnpriced(c: Coin, spot: Spot)
    ensures Melt(c, spot).None? <==> PerGramFor(spot, c.metal).None?
    ensures Money(Melt(c, spot)) == Dash <==> PerGramFor(spot, c.metal).None?
    ensures PerGramFor(spot, c.metal).None? ==> Money(Melt(c, spot)) != Amount(0.0)
  {
  }

  /** Before the first refresh no coin has a melt value. */
  lemma UnpricedHasNoMelt(c: Coin)
    ensures Money(Melt(c, Unpriced)) == Dash
  {
  }

  /** A coin of neither metal is never valued, whatever the prices. */
  lemma OtherMetalNeverValued(c: Coin, spot: Spot)
    requires !KnownMetal(c.metal)
    ensures Melt(c, spot) == None
  {
  }

  /** The melt formula stated on the price per troy ounce. */
  function MeltFromOzt(fineGrams: real, qty: real, perOzt: real): real {
    fineGrams * qty * perOzt / TroyOzToGrams
  }

  /** A metal priced from a quote values a coin of that metal by `MeltFromOzt`. */
  lemma MeltOfQuote(c: Coin, spot: Spot, perOzt: real)
    requires PerGramFor(spot, c.metal) == Quote(perOzt).perGram
    ensures Melt(c, spot) == Some(MeltFromOzt(c.fineGrams, EffectiveQty(c.qty), perOzt))
  {
    var x := c.fineGrams * EffectiveQty(c.qty);
    assert PerGramFor(spot, c.metal).Some?;
    assert PerGramFor(spot, c.metal).value == perOzt / TroyOzToGrams;
    assert Melt(c, spot).Some?;
    assert Melt(c, spot).value == c.fineGrams * EffectiveQty(c.qty) * PerGramFor(spot, c.metal).value;
    assert Melt(c, spot).value == x * (perOzt / TroyOzToGrams);
    assert Melt(c, spot) == Some(x * (perOzt / TroyOzToGrams));
    assert x * (perOzt / TroyOzToGrams) == MeltFromOzt(c.fineGrams, EffectiveQty(c.qty), perOzt);
  }

  /** With both metals quoted, a gold or silver coin is valued at its own
      metal's price per troy ounce. */
  lemma MeltOfQuotes(c: Coin, goldOzt: real, silverOzt: real)
    requires KnownMetal(c.metal)
    ensures Melt(c, Spot(Quote(goldOzt), Quote(silverOzt))) ==
              Some(MeltFromOzt(c.fineGrams, EffectiveQty(c.qty), if c.metal == "gold" then goldOzt else silverOzt))
  {
    MeltOfQuote(c, Spot(Quote(goldOzt), Quote(silverOzt)), if c.metal == "gold" then goldOzt else silverOzt);
  }

  /** Melt is linear in the quantity: k coins are worth k times one coin. */
  lemma MeltScalesWithQty(c: Coin, spot: Spot, k: real)
    requires PerGramFor(spot, c.metal).Some?
    ensures Melt(c.(qty := Finite(k)), spot).value == k * Melt(c.(qty := Finite(1.0)), spot).value
  {
  }
}
