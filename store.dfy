/**
  The quantity store: the map from coin key to quantity that the page keeps
  under one browser storage key (app.js:11-23). The store is modelled by the
  JSON value its text parses to, with every map value reduced to whether it
  is a finite number.
 */
module Store {
  import opened Quantity

  /** What `JSON.parse(localStorage.getItem(QTY_STORAGE_KEY) || "{}")` meets. */
  datatype Stored =
    | Missing                                  // no item, or the empty string: read as "{}"
    | Unparseable                              // `JSON.parse` throws
    | JsonNull                                 // the text "null"
    | JsonObject(entries: map<string, Qty>)    // a JSON object
    | JsonOther                                // a number, string, boolean or array

  /** `saveQtyMap` (app.js:21-23): the whole map replaces what was stored.
      `JSON.stringify` writes NaN as `null`; both are `NotFinite` here. */
  function Save(m: map<string, Qty>): (s: Stored)
    ensures s.JsonObject? && LoadQtyMap(s) == m
  {
    JsonObject(m)
  }

  /** `loadQtyMap` (app.js:13-19) with every value that is not a JSON object
      read as the empty map: a missing, unparseable or otherwise unusable
      store means "no saved quantities". */
  function LoadQtyMap(s: Stored): (m: map<string, Qty>)
    ensures m == map[] || s == JsonObject(m)
  {
    if s.JsonObject? then s.entries else map[]
  }

  /** A saved map loads back unchanged. */
  lemma SaveLoadRoundTrip(m: map<string, Qty>)
    ensures LoadQtyMap(Save(m)) == m
  {
  }

  /** A store without a saved object loads as the empty map. */
  lemma UnusableStoreLoadsEmpty(s: Stored)
    requires !s.JsonObject?
    ensures LoadQtyMap(s) == map[]
  {
  }

  /** The input handler's write-back (app.js:112-114): load the map afresh,
      set the edited coin's key, save the whole map. Exactly one entry changes. */
  function StoreAfterEdit(s: Stored, key: string, q: Qty): (s': Stored)
    ensures LoadQtyMap(s').Keys == LoadQtyMap(s).Keys + {key}
    ensures LoadQtyMap(s')[key] == q
    ensures forall k :: k in LoadQtyMap(s) && k != key ==> LoadQtyMap(s')[k] == LoadQtyMap(s)[k]
  {
    Save(LoadQtyMap(s)[key := q])
  }

  // ---- The store as `loadQtyMap` and the handler treat it as written ----

  /** `JSON.parse`'s result, returned unchecked by `loadQtyMap` as written:
      either something that can be indexed by a key (an object, or a
      primitive or array on which every key reads as `undefined`), or `null`,
      on which indexing throws a TypeError. */
  datatype Parsed = Entries(m: map<string, Qty>) | Null

  function LoadQtyMapAsWritten(s: Stored): (p: Parsed)
    ensures p.Null? <==> s.JsonNull?
    ensures p.Entries? ==> p.m == LoadQtyMap(s)
  {
    match s
    case Missing => Entries(map[])
    case Unparseable => Entries(map[])
    case JsonNull => Null
    case JsonObject(m) => Entries(m)
    case JsonOther => Entries(map[])
  }

  /** The stored value after the input handler as written: on `null` the
      assignment `qtyMap[key] = newQty` throws before anything is saved; on a
      primitive the assignment is dropped (or throws in strict mode) and on an
      array `JSON.stringify` leaves the named property out, so in every case
      the stored value is unchanged. */
  function StoreAfterEditAsWritten(s: Stored, key: string, q: Qty): (s': Stored)
    ensures s.JsonNull? || s.JsonOther? ==> s' == s
    ensures !s.JsonNull? && !s.JsonOther? ==> s' == StoreAfterEdit(s, key, q)
  {
    match LoadQtyMapAsWritten(s)
    case Null => s
    case Entries(m) => if s.JsonOther? then s else Save(m[key := q])
  }

  /** The write-back as written leaves a store that holds JSON `null` or a
      non-object value as it was, so the edit is not saved; the corrected one
      saves it. */
  lemma EditLostOnNonObjectStore(key: string, q: Qty)
    ensures StoreAfterEditAsWritten(JsonNull, key, q) == JsonNull
    ensures StoreAfterEditAsWritten(JsonOther, key, q) == JsonOther
    ensures LoadQtyMap(StoreAfterEdit(JsonNull, key, q))[key] == q
    ensures LoadQtyMap(StoreAfterEdit(JsonOther, key, q))[key] == q
  {
  }

  /** On every usable store the two write-backs agree. */
  lemma EditAgreesOnUsableStore(s: Stored, key: string, q: Qty)
    requires !s.JsonNull? && !s.JsonOther?
    ensures StoreAfterEditAsWritten(s, key, q) == StoreAfterEdit(s, key, q)
  {
  }
}
