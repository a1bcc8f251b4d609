/** The persistence identity of a coin (app.js:25-28). */
module Keys {
  import opened Wrappers

  /** `${c.metal}::${c.name}`: the key a coin's quantity is stored under. */
  function CoinKey(metal: string, name: string): (k: string)
    ensures |k| == |metal| + 2 + |name|
    ensures k[..|metal|] == metal && k[|metal|..|metal| + 2] == "::" && k[|metal| + 2..] == name
  {
    metal + "::" + name
  }

  /** The two metals the page prices and lists. */
  predicate KnownMetal(metal: string) {
    metal == "gold" || metal == "silver"
  }

  /** Reads a key back into its (metal, name) pair; the partner of `CoinKey`
      for keys of the two known metals. */
  function SplitKey(key: string): Option<(string, string)> {
    if |key| >= 6 && key[..6] == "gold::" then Some(("gold", key[6..]))
    else if |key| >= 8 && key[..8] == "silver::" then Some(("silver", key[8..]))
    else None
  }

  /** For a gold or silver coin the key determines metal and name. */
  lemma KeyRoundTrip(metal: string, name: string)
    requires KnownMetal(metal)
    ensures SplitKey(CoinKey(metal, name)) == Some((metal, name))
  {
    var key := CoinKey(metal, name);
    if metal == "gold" {
      assert key[..6] == "gold::" && key[6..] == name;
    } else {
      assert key[..6] != "gold::" by { assert key[0] == 's'; }
      assert key[..8] == "silver::" && key[8..] == name;
    }
  }

  /** Two gold-or-silver coins share a key exactly when they share metal and name. */
  lemma KeyInjective(metal1: string, name1: string, metal2: string, name2: string)
    requires KnownMetal(metal1) && KnownMetal(metal2)
    ensures CoinKey(metal1, name1) == CoinKey(metal2, name2) <==> metal1 == metal2 && name1 == name2
  {
    KeyRoundTrip(metal1, name1);
    KeyRoundTrip(metal2, name2);
  }

  /** Without the restriction to the two metals the key is not injective:
      a metal or a name containing "::" can collide with another pair. */
  lemma KeyCollidesForOtherMetals()
    ensures CoinKey("a::b", "c") == CoinKey("a", "b::c")
  {
  }
}
