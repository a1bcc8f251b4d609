/**
  The coin catalog and the quantity overlay `loadCoins` applies to it
  (app.js:58-68).
 */
module Coins {
  import opened Wrappers
  import opened Quantity
  import opened Keys
  import opened Store

  /** A catalog entry as the coin list resource gives it. */
  datatype Entry = Entry(name: string, metal: string, fineGrams: real)

  /** A coin of the in-memory catalog: the entry with its quantity. */
  datatype Coin = Coin(name: string, metal: string, fineGrams: real, qty: Qty)

  function Key(c: Coin): string {
    CoinKey(c.metal, c.name)
  }

  /** `Number.isFinite(qtyMap[key]) ? qtyMap[key] : 1` (app.js:66). */
  function StoredQty(m: map<string, Qty>, key: string): real {
    if key in m then EffectiveQty(m[key]) else 1.0
  }

  /** `{...c, qty: …}` for one entry. */
  function WithQty(e: Entry, m: map<string, Qty>): Coin {
    Coin(e.name, e.metal, e.fineGrams, Finite(StoredQty(m, CoinKey(e.metal, e.name))))
  }

  /** `coins.map(…)` in `loadCoins`: the catalog in its own order, each coin
      keeping its name, metal and fine grams and taking the stored quantity
      under its key when that is a finite number, and 1 otherwise. */
  function Overlay(entries: seq<Entry>, m: map<string, Qty>): (coins: seq<Coin>)
    ensures |coins| == |entries|
    ensures forall i :: 0 <= i < |entries| ==>
              && coins[i].name == entries[i].name
              && coins[i].metal == entries[i].metal
              && coins[i].fineGrams == entries[i].fineGrams
              && coins[i].qty == Finite(StoredQty(m, Key(coins[i])))
  {
    if entries == [] then [] else [WithQty(entries[0], m)] + Overlay(entries[1..], m)
  }

  /** A missing, corrupt or unusable store gives every coin quantity 1. */
  lemma {:induction false} UnusableStoreGivesOne(entries: seq<Entry>, s: Stored)
    requires !s.JsonObject?
    ensures forall i :: 0 <= i < |entries| ==> Overlay(entries, LoadQtyMap(s))[i].qty == Finite(1.0)
  {
    UnusableStoreLoadsEmpty(s);
  }

  /** Coins with the same metal and name share one stored quantity. */
  lemma SharedKeySharesQty(entries: seq<Entry>, m: map<string, Qty>, i: nat, j: nat)
    requires i < |entries| && j < |entries|
    requires entries[i].metal == entries[j].metal && entries[i].name == entries[j].name
    ensures Overlay(entries, m)[i].qty == Overlay(entries, m)[j].qty
  {
  }

  /** Save/load round trip: after an edit stores `q` under a key, the next
      load gives every coin with that key the effective value of `q` (a NaN
      was saved as `null` and reads back as 1), and every other coin the
      quantity it would have had before the edit. */
  lemma EditThenReload(entries: seq<Entry>, s: Stored, key: string, q: Qty, i: nat)
    requires i < |entries|
    ensures var after := Overlay(entries, LoadQtyMap(StoreAfterEdit(s, key, q)));
            var before := Overlay(entries, LoadQtyMap(s));
            && (Key(after[i]) == key ==> after[i].qty == Finite(EffectiveQty(q)))
            && (Key(after[i]) != key ==> after[i] == before[i])
  {
    var after := Overlay(entries, LoadQtyMap(StoreAfterEdit(s, key, q)));
    var before := Overlay(entries, LoadQtyMap(s));
    assert Key(after[i]) == Key(before[i]);
  }

  // ---- `loadCoins` as written ----

  /** The overlay with `loadQtyMap` as written; `None` is the TypeError that
      escapes `loadCoins` when the store holds `null` and the catalog is not
      empty (the lookup `qtyMap[coinKey(c)]` indexes `null`). */
  function OverlayAsWritten(entries: seq<Entry>, s: Stored): (r: Option<seq<Coin>>)
    ensures r.None? <==> s.JsonNull? && entries != []
    ensures r.Some? ==> r.value == Overlay(entries, LoadQtyMap(s))
  {
    match LoadQtyMapAsWritten(s)
    case Null => if entries == [] then Some([]) else None
    case Entries(m) => Some(Overlay(entries, m))
  }

  /** A stored `null` is valid JSON, so `loadQtyMap` does not fall back to the
      empty map and startup fails; the corrected load gives quantity 1. */
  lemma NullStoreAbortsLoad(e: Entry)
    ensures OverlayAsWritten([e], JsonNull) == None
    ensures Overlay([e], LoadQtyMap(JsonNull))[0].qty == Finite(1.0)
  {
  }

  /** An edit followed by a reload, as written: on a stored `null` the edit is
      not saved and the reload fails again; on a stored non-object value the
      edit is not saved and the reload shows quantity 1. The corrected
      write-back and load show the edited quantity in both cases. */
  lemma EditLostAcrossReload(e: Entry, q: Qty)
    ensures OverlayAsWritten([e], StoreAfterEditAsWritten(JsonNull, CoinKey(e.metal, e.name), q)) == None
    ensures OverlayAsWritten([e], StoreAfterEditAsWritten(JsonOther, CoinKey(e.metal, e.name), q))
              == Some([Coin(e.name, e.metal, e.fineGrams, Finite(1.0))])
    ensures Overlay([e], LoadQtyMap(StoreAfterEdit(JsonNull, CoinKey(e.metal, e.name), q)))[0].qty
              == Finite(EffectiveQty(q))
    ensures Overlay([e], LoadQtyMap(StoreAfterEdit(JsonOther, CoinKey(e.metal, e.name), q)))[0].qty
              == Finite(EffectiveQty(q))
  {
    var loaded := Overlay([e], map[]);
    assert loaded[0] == Coin(e.name, e.metal, e.fineGrams, Finite(1.0));
    assert loaded == [loaded[0]];
  }

  /** On every other store the two loads agree. */
  lemma OverlayAgreesOffNull(entries: seq<Entry>, s: Stored)
    requires !s.JsonNull?
    ensures OverlayAsWritten(entries, s) == Some(Overlay(entries, LoadQtyMap(s)))
  {
  }
}
