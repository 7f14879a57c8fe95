/** The module-level key state of the client: `keyMap` and `activeKeyId` (main.js:13-14),
    written by key events (main.js:150-155) and read for each binary frame
    (main.js:169-170). */
module Keys {
  import opened Wrappers
  import opened JsValues
  import opened Bytes

  /** A key returned by `importKey`; its material is never inspected by the model. */
  datatype CryptoKey = AesGcmKey(material: seq<byte>)

  /** `keyMap` is a JavaScript `Map`, keyed by whatever `data.key_id` held; `activeKeyId`
      starts as `null`. */
  datatype KeyStore = KeyStore(keyMap: map<JsValue, CryptoKey>, activeKeyId: JsValue)

  /** The state at start-up: an empty map and a `null` active id. */
  const Empty := KeyStore(map[], Null)

  /** The active id always names a stored key, except before the first key event. */
  predicate Valid(ks: KeyStore)
  {
    ks.activeKeyId in ks.keyMap || (ks.activeKeyId == Null && ks.keyMap == map[])
  }

  /** A `crypto:broadcast_key` or `crypto:key_rotate` event: `keyMap.set(id, key)` then
      `activeKeyId = id`. */
  function Put(ks: KeyStore, id: JsValue, key: CryptoKey): (r: KeyStore)
    ensures r.activeKeyId == id && id in r.keyMap && r.keyMap[id] == key
    ensures r.keyMap.Keys == ks.keyMap.Keys + {id}
    ensures forall other :: other in ks.keyMap && other != id ==> r.keyMap[other] == ks.keyMap[other]
  {
    KeyStore(ks.keyMap[id := key], id)
  }

  /** `keyMap.get(keyId) || (activeKeyId && keyMap.get(activeKeyId))`. A stored key is an
      object, hence truthy, so the fallback is taken exactly when `keyId` is absent, and
      it yields a key only when `activeKeyId` is truthy and stored. */
  function Lookup(ks: KeyStore, keyId: JsValue): (r: Option<CryptoKey>)
    ensures keyId in ks.keyMap ==> r == Some(ks.keyMap[keyId])
    ensures keyId !in ks.keyMap && Truthy(ks.activeKeyId) && ks.activeKeyId in ks.keyMap ==>
              r == Some(ks.keyMap[ks.activeKeyId])
    ensures r.None? <==> keyId !in ks.keyMap && (!Truthy(ks.activeKeyId) || ks.activeKeyId !in ks.keyMap)
  {
    if keyId in ks.keyMap then Some(ks.keyMap[keyId])
    else if Truthy(ks.activeKeyId) && ks.activeKeyId in ks.keyMap then Some(ks.keyMap[ks.activeKeyId])
    else None
  }

  /** The start-up state satisfies the invariant. */
  lemma EmptyValid()
    ensures Valid(Empty)
  {
  }

  /** Every key event preserves the invariant, whatever state it starts from. */
  lemma PutPreservesValid(ks: KeyStore, id: JsValue, key: CryptoKey)
    ensures Valid(Put(ks, id, key))
  {
  }

  /** Receiving the same id and key again changes nothing further. */
  lemma PutIdempotent(ks: KeyStore, id: JsValue, key: CryptoKey)
    ensures Put(Put(ks, id, key), id, key) == Put(ks, id, key)
  {
  }

  /** Under the invariant, a frame finds no key exactly when its id is unknown and the
      active id is falsy (`null` before any key event, or a key id of `0`, `""`, ...). */
  lemma LookupFailsIff(ks: KeyStore, keyId: JsValue)
    requires Valid(ks)
    ensures Lookup(ks, keyId).None? <==> keyId !in ks.keyMap && !Truthy(ks.activeKeyId)
  {
  }

  /** An active id of `0` disables the fallback even though the key for `0` is stored. */
  lemma ZeroActiveIdDisablesFallback(ks: KeyStore, key: CryptoKey, keyId: JsValue)
    requires keyId != Number(0.0) && keyId !in ks.keyMap
    ensures Lookup(Put(ks, Number(0.0), key), keyId) == None
  {
  }

  /** Older keys stay retrievable after a rotation: storing key 5 then key 7 still finds
      key 5 by its id, and 7 becomes the active id. */
  lemma RotationKeepsOlderKeys(ks: KeyStore, k5: CryptoKey, k7: CryptoKey)
    ensures Lookup(Put(Put(ks, Number(5.0), k5), Number(7.0), k7), Number(5.0)) == Some(k5)
    ensures Put(Put(ks, Number(5.0), k5), Number(7.0), k7).activeKeyId == Number(7.0)
  {
  }

  /** A frame whose id was never stored falls back to the key of the active id. */
  lemma UnknownIdUsesActiveKey(ks: KeyStore, id: JsValue, key: CryptoKey, unknown: JsValue)
    requires Truthy(id) && unknown !in ks.keyMap && unknown != id
    ensures Lookup(Put(ks, id, key), unknown) == Some(key)
  {
  }
}
