/**
 * The encrypted local persistence layer (services/storageService.ts).
 *
 * Web Crypto (AES-GCM, JWK key import/export), `JSON.stringify`/`JSON.parse`
 * and `TextEncoder`/`TextDecoder` are not modelled algorithmically: they are
 * the fields of a `Platform`, and `Lawful` states the laws the code relies
 * on. localStorage is a map from slot names to strings.
 */
module StorageService {
  import opened Wrappers
  import opened Json

  type byte = x: int | 0 <= x < 256

  /** The slot that holds the exported key. */
  const ENCRYPTION_KEY_STORAGE := "festplan_enc_key"

  /** Length of the AES-GCM nonce drawn by `getRandomValues`. */
  const IV_LENGTH := 12

  /** Key material of an AES-256-GCM `CryptoKey`. */
  datatype Key = Key(material: seq<byte>)

  /**
   * The browser facilities the codec calls. A `None` result is a thrown
   * exception or a rejected promise.
   */
  datatype Platform = Platform(
    serialize: Json -> string,                               // JSON.stringify
    parse: string -> Option<Json>,                           // JSON.parse
    encodeText: string -> seq<byte>,                         // TextEncoder.encode
    decodeText: seq<byte> -> string,                         // TextDecoder.decode
    exportKey: Key -> Json,                                  // subtle.exportKey("jwk", k)
    importKey: Json -> Option<Key>,                          // subtle.importKey("jwk", j, ...)
    encrypt: (Key, seq<byte>, seq<byte>) -> Option<seq<byte>>, // subtle.encrypt(key, iv, plain)
    decrypt: (Key, seq<byte>, seq<byte>) -> Option<seq<byte>>) // subtle.decrypt(key, iv, cipher)

  /**
   * What the codec assumes of the platform: parsing inverts serialising and
   * rejects the empty text, decoding inverts encoding, a JWK export imports
   * back to the same key, and decryption inverts a successful encryption
   * under the same key and nonce.
   */
  ghost predicate Lawful(p: Platform) {
    && p.parse("") == None
    && (forall v :: p.parse(p.serialize(v)) == Some(v))
    && (forall s :: p.decodeText(p.encodeText(s)) == s)
    && (forall k :: p.importKey(p.exportKey(k)) == Some(k))
    && (forall k, iv, pt :: p.encrypt(k, iv, pt).Some? ==>
          p.decrypt(k, iv, p.encrypt(k, iv, pt).value) == Some(pt))
  }

  type Slots = map<string, string>

  /** `localStorage.getItem(name)`. */
  function Item(slots: Slots, name: string): Option<string> {
    if name in slots then Some(slots[name]) else None
  }

  /** `if (localStorage.getItem(name))`: present and not the empty string. */
  predicate Filled(slots: Slots, name: string) {
    name in slots && slots[name] != ""
  }

  // ---------------------------------------------------------------------------
  // getOrCreateKey
  // ---------------------------------------------------------------------------

  /**
   * getOrCreateKey as a function of storage: the key (None when parsing or
   * importing the stored JWK fails) and the storage afterwards. `generated` is
   * the key `generateKey` would produce, or None when generating it, exporting
   * it or writing the export to the slot throws; nothing is then stored.
   */
  function KeyStep(p: Platform, slots: Slots, generated: Option<Key>): (r: (Option<Key>, Slots))
    ensures Filled(slots, ENCRYPTION_KEY_STORAGE) ==> r.1 == slots
    ensures !Filled(slots, ENCRYPTION_KEY_STORAGE) && generated.None? ==> r == (None, slots)
    ensures !Filled(slots, ENCRYPTION_KEY_STORAGE) && generated.Some? ==>
      r.0 == generated && r.1.Keys == slots.Keys + {ENCRYPTION_KEY_STORAGE}
      && (forall n :: n in slots && n != ENCRYPTION_KEY_STORAGE ==> r.1[n] == slots[n])
  {
    if Filled(slots, ENCRYPTION_KEY_STORAGE) then
      var parsed := p.parse(slots[ENCRYPTION_KEY_STORAGE]);
      (if parsed.Some? then p.importKey(parsed.value) else None, slots)
    else if generated.None? then
      (None, slots)
    else
      (generated,
       slots[ENCRYPTION_KEY_STORAGE := p.serialize(p.exportKey(generated.value))])
  }

  /** With the slot filled nothing is generated: the outcome does not depend on the fresh key. */
  lemma KeyStepFilledIgnoresGenerated(p: Platform, slots: Slots, g1: Option<Key>, g2: Option<Key>)
    requires Filled(slots, ENCRYPTION_KEY_STORAGE)
    ensures KeyStep(p, slots, g1) == KeyStep(p, slots, g2)
  {
  }

  /** After a key was created and exported into the empty slot, the next call imports that same key and writes nothing. */
  lemma KeyStepReusesStoredKey(p: Platform, slots: Slots, g: Key, g2: Option<Key>)
    requires Lawful(p)
    requires !Filled(slots, ENCRYPTION_KEY_STORAGE)
    ensures var s1 := KeyStep(p, slots, Some(g)).1;
      Filled(s1, ENCRYPTION_KEY_STORAGE) && KeyStep(p, s1, g2) == (Some(g), s1)
  {
    var text := p.serialize(p.exportKey(g));
    assert p.parse(text) == Some(p.exportKey(g));
    assert text != "";
  }

  // ---------------------------------------------------------------------------
  // The {iv, data} envelope
  // ---------------------------------------------------------------------------

  /** `Array.from(bytes)` as JSON. */
  function BytesJson(b: seq<byte>): (j: Json)
    ensures j.JArr? && |j.items| == |b|
  {
    JArr(seq(|b|, i requires 0 <= i < |b| => JNum(b[i])))
  }

  /** `{ iv: ivArray, data: encryptedArray }`. */
  function EnvelopeJson(iv: seq<byte>, data: seq<byte>): Json {
    JObj([("iv", BytesJson(iv)), ("data", BytesJson(data))])
  }

  /**
   * `new Uint8Array(v)` for an array of numbers: each number is taken modulo
   * 256. Any other shape is reported as None (see README, "Left out").
   */
  function ToBytes(v: Json): (r: Option<seq<byte>>)
    ensures r.Some? ==> v.JArr? && |r.value| == |v.items|
  {
    if v.JArr? && forall i :: 0 <= i < |v.items| ==> v.items[i].JNum? then
      Some(seq(|v.items|, i requires 0 <= i < |v.items| && v.items[i].JNum? => v.items[i].n % 256))
    else None
  }

  lemma ToBytesOfBytesJson(b: seq<byte>)
    ensures ToBytes(BytesJson(b)) == Some(b)
  {
    var r := ToBytes(BytesJson(b));
    assert r.Some?;
    assert r.value == b;
  }

  // ---------------------------------------------------------------------------
  // encryptData
  // ---------------------------------------------------------------------------

  /** The ciphertext of `v` under the key outcome, when both the key and the encryption succeed. */
  function Ciphertext(p: Platform, key: Option<Key>, iv: seq<byte>, v: Json): Option<seq<byte>> {
    if key.None? then None else p.encrypt(key.value, iv, p.encodeText(p.serialize(v)))
  }

  /** The text encryptData resolves to, given the outcome of getOrCreateKey. */
  function SealValue(p: Platform, key: Option<Key>, iv: seq<byte>, v: Json): (text: string)
    requires |iv| == IV_LENGTH
    ensures Ciphertext(p, key, iv, v).None? ==> text == p.serialize(v)
    ensures Ciphertext(p, key, iv, v).Some? ==>
      text == p.serialize(EnvelopeJson(iv, Ciphertext(p, key, iv, v).value))
  {
    var ct := Ciphertext(p, key, iv, v);
    if ct.Some? then p.serialize(EnvelopeJson(iv, ct.value))
    else p.serialize(v)   // any failure stores the value unencrypted
  }

  /** encryptData(v): the text and the storage afterwards (getOrCreateKey may fill the key slot). */
  function EncryptStep(p: Platform, slots: Slots, generated: Option<Key>, iv: seq<byte>, v: Json): (r: (string, Slots))
    requires |iv| == IV_LENGTH
    ensures Filled(slots, ENCRYPTION_KEY_STORAGE) || generated.None? ==> r.1 == slots
    ensures forall n :: n != ENCRYPTION_KEY_STORAGE ==> Item(r.1, n) == Item(slots, n)
  {
    var (key, slots1) := KeyStep(p, slots, generated);
    (SealValue(p, key, iv, v), slots1)
  }

  /**
   * With the key slot empty and key creation failing, encryptData stores the
   * plain `JSON.stringify(v)` and leaves storage as it was.
   */
  lemma KeyCreationFailureFallsBack(p: Platform, slots: Slots, iv: seq<byte>, v: Json)
    requires |iv| == IV_LENGTH
    requires !Filled(slots, ENCRYPTION_KEY_STORAGE)
    ensures EncryptStep(p, slots, None, iv, v) == (p.serialize(v), slots)
  {
  }

  /** Whether encryptData(v) produces an envelope rather than the plaintext fallback. */
  predicate Encrypts(p: Platform, slots: Slots, generated: Option<Key>, iv: seq<byte>, v: Json) {
    Ciphertext(p, KeyStep(p, slots, generated).0, iv, v).Some?
  }

  /**
   * A successful encryptData result parses to an object whose `iv` is the 12
   * nonce bytes and whose `data` is the ciphertext; otherwise it is the
   * plain `JSON.stringify(v)`. Only the key slot may change.
   */
  lemma EncryptStepShape(p: Platform, slots: Slots, generated: Option<Key>, iv: seq<byte>, v: Json)
    requires Lawful(p)
    requires |iv| == IV_LENGTH
    ensures var (text, slots1) := EncryptStep(p, slots, generated, iv, v);
      var ct := Ciphertext(p, KeyStep(p, slots, generated).0, iv, v);
      && (ct.Some? ==>
            && p.parse(text) == Some(EnvelopeJson(iv, ct.value))
            && ToBytes(BytesJson(iv)) == Some(iv) && |BytesJson(iv).items| == 12)
      && (ct.None? ==> p.parse(text) == Some(v))
      && (forall n :: n != ENCRYPTION_KEY_STORAGE ==> Item(slots1, n) == Item(slots, n))
  {
    ToBytesOfBytesJson(iv);
  }

  // ---------------------------------------------------------------------------
  // decryptData
  // ---------------------------------------------------------------------------

  /** How decryptData reads a stored text before any key is involved. */
  datatype Stored =
    | Missing                          // null or "": the default, at once
    | Unreadable                       // JSON.parse throws, or the value is null so `.iv` throws
    | Legacy(value: Json)              // no truthy `iv` or no truthy `data`: unencrypted data
    | Sealed(iv: Json, data: Json)     // an envelope to decrypt

  function Classify(p: Platform, cipherText: Option<string>): (r: Stored)
    ensures r.Missing? <==> cipherText.None? || cipherText.value == ""
    ensures r.Legacy? ==>
      && cipherText.Some? && p.parse(cipherText.value) == Some(r.value)
      && !r.value.JNull?
      && !(TruthyProperty(r.value, "iv") && TruthyProperty(r.value, "data"))
    ensures r.Sealed? ==> Truthy(r.iv) && Truthy(r.data)
  {
    if cipherText.None? || cipherText.value == "" then Missing
    else
      var parsed := p.parse(cipherText.value);
      if parsed.None? || parsed.value.JNull? then Unreadable
      else if !TruthyProperty(parsed.value, "iv") || !TruthyProperty(parsed.value, "data") then
        Legacy(parsed.value)
      else Sealed(Property(parsed.value, "iv").value, Property(parsed.value, "data").value)
  }

  /**
   * Decrypting an envelope with the key outcome: the decoded value only when
   * the key, both byte arrays, the decryption and the final parse all
   * succeed, the default otherwise.
   */
  function OpenSealed(p: Platform, key: Option<Key>, iv: Json, data: Json, default: Json): (r: Json)
    ensures r != default ==>
      && key.Some? && ToBytes(iv).Some? && ToBytes(data).Some?
      && p.decrypt(key.value, ToBytes(iv).value, ToBytes(data).value).Some?
      && p.parse(p.decodeText(p.decrypt(key.value, ToBytes(iv).value, ToBytes(data).value).value)) == Some(r)
    ensures (&& key.Some? && ToBytes(iv).Some? && ToBytes(data).Some?
             && p.decrypt(key.value, ToBytes(iv).value, ToBytes(data).value).Some?
             && p.parse(p.decodeText(p.decrypt(key.value, ToBytes(iv).value, ToBytes(data).value).value)).Some?)
            ==> Some(r) == p.parse(p.decodeText(p.decrypt(key.value, ToBytes(iv).value, ToBytes(data).value).value))
  {
    if key.None? then default
    else
      var ivBytes := ToBytes(iv);
      var dataBytes := ToBytes(data);
      if ivBytes.None? || dataBytes.None? then default
      else
        var plain := p.decrypt(key.value, ivBytes.value, dataBytes.value);
        if plain.None? then default
        else
          var decoded := p.parse(p.decodeText(plain.value));
          if decoded.None? then default else decoded.value
  }

  /** decryptData(cipherText, default): the value and the storage afterwards. */
  function DecryptStep(p: Platform, slots: Slots, generated: Option<Key>, cipherText: Option<string>, default: Json)
    : (r: (Json, Slots))
    ensures (cipherText.None? || cipherText.value == "") ==> r == (default, slots)
    ensures r.1 == slots || r.1 == KeyStep(p, slots, generated).1
  {
    match Classify(p, cipherText)
    case Missing => (default, slots)
    case Unreadable => (default, slots)
    case Legacy(v) => (v, slots)
    case Sealed(iv, data) =>
      var (key, slots1) := KeyStep(p, slots, generated);
      (OpenSealed(p, key, iv, data, default), slots1)
  }

  /** Text that parses to a non-null value without a truthy `iv` or `data` is returned as it parsed, and storage is untouched. */
  lemma LegacyTextReturnedUnchanged(p: Platform, slots: Slots, generated: Option<Key>, text: string, v: Json, default: Json)
    requires text != "" && p.parse(text) == Some(v) && !v.JNull?
    requires !TruthyProperty(v, "iv") || !TruthyProperty(v, "data")
    ensures DecryptStep(p, slots, generated, Some(text), default) == (v, slots)
  {
  }

  /** Text that does not parse, or parses to `null`, gives the default and touches nothing. */
  lemma UnreadableTextGivesDefault(p: Platform, slots: Slots, generated: Option<Key>, text: string, default: Json)
    requires p.parse(text).None? || p.parse(text) == Some(JNull)
    ensures DecryptStep(p, slots, generated, Some(text), default) == (default, slots)
  {
  }

  /**
   * Empty `iv` and `data` arrays are truthy, so `{"iv":[],"data":[]}` takes
   * the decryption path; when the cipher rejects it the default comes back.
   */
  lemma EmptyEnvelopeTakesDecryptPath(p: Platform, slots: Slots, generated: Option<Key>, text: string, default: Json)
    requires text != "" && p.parse(text) == Some(EnvelopeJson([], []))
    requires forall k :: p.decrypt(k, [], []) == None
    ensures Classify(p, Some(text)) == Sealed(JArr([]), JArr([]))
    ensures DecryptStep(p, slots, generated, Some(text), default).0 == default
  {
    assert EnvelopeJson([], []).members[..1] == [("iv", BytesJson([]))];
    assert BytesJson([]) == JArr([]);
    ToBytesOfBytesJson([]);
  }

  /**
   * Round trip: with a lawful platform, decrypting what encryptData
   * produced gives back the value, over any later storage whose key slot is
   * still the one encryptData left behind; decryptData then writes nothing.
   */
  lemma {:induction false} EncryptThenDecrypt(p: Platform, slots: Slots, g1: Option<Key>, g2: Option<Key>,
                                              iv: seq<byte>, v: Json, default: Json, later: Slots)
    requires Lawful(p)
    requires |iv| == IV_LENGTH
    requires Encrypts(p, slots, g1, iv, v)
    requires Item(later, ENCRYPTION_KEY_STORAGE) == Item(EncryptStep(p, slots, g1, iv, v).1, ENCRYPTION_KEY_STORAGE)
    ensures DecryptStep(p, later, g2, Some(EncryptStep(p, slots, g1, iv, v).0), default) == (v, later)
  {
    var (key, slots1) := KeyStep(p, slots, g1);
    var k := key.value;
    var ct := Ciphertext(p, key, iv, v).value;
    var env := EnvelopeJson(iv, ct);
    var text := SealValue(p, key, iv, v);
    assert text == p.serialize(env);
    assert p.parse(text) == Some(env);
    assert text != "";
    assert env.members[1].0 != "iv" by { assert "data"[0] != "iv"[0]; }
    assert env.members[..1] == [("iv", BytesJson(iv))];
    assert Lookup(env.members[..1], "iv") == Some(BytesJson(iv));
    assert Property(env, "iv") == Some(BytesJson(iv));
    assert Property(env, "data") == Some(BytesJson(ct));
    assert Classify(p, Some(text)) == Sealed(BytesJson(iv), BytesJson(ct));
    // The key slot is filled, and it yields the key encryptData used.
    if !Filled(slots, ENCRYPTION_KEY_STORAGE) {
      var jwk := p.serialize(p.exportKey(g1.value));
      assert slots1[ENCRYPTION_KEY_STORAGE] == jwk;
      assert p.parse(jwk) == Some(p.exportKey(g1.value));
      assert jwk != "";
    }
    assert KeyStep(p, later, g2) == (key, later);
    ToBytesOfBytesJson(iv);
    ToBytesOfBytesJson(ct);
    var pt := p.encodeText(p.serialize(v));
    assert p.decrypt(k, iv, ct) == Some(pt);
    assert p.decodeText(pt) == p.serialize(v);
    assert OpenSealed(p, Some(k), BytesJson(iv), BytesJson(ct), default) == v;
  }

  /**
   * When encryption fails, the plaintext fallback is still read back through
   * the legacy path, provided the value is not `null` and lacks a truthy
   * `iv` or `data`; no key is involved, so any storage will do.
   */
  lemma FallbackReadAsLegacy(p: Platform, slots: Slots, g1: Option<Key>, g2: Option<Key>,
                             iv: seq<byte>, v: Json, default: Json, later: Slots)
    requires Lawful(p)
    requires |iv| == IV_LENGTH
    requires !Encrypts(p, slots, g1, iv, v)
    requires !v.JNull? && !(TruthyProperty(v, "iv") && TruthyProperty(v, "data"))
    ensures DecryptStep(p, later, g2, Some(EncryptStep(p, slots, g1, iv, v).0), default) == (v, later)
  {
    var text := EncryptStep(p, slots, g1, iv, v).0;
    assert text == p.serialize(v);
    assert p.parse(text) == Some(v);
    assert text != "";
  }

  /** The fallback for `null` is the text "null", which decryptData reads back as the default, not as `null`. */
  lemma FallbackOfNullIsLost(p: Platform, slots: Slots, g1: Option<Key>, g2: Option<Key>,
                             iv: seq<byte>, default: Json, later: Slots)
    requires Lawful(p)
    requires |iv| == IV_LENGTH
    requires !Encrypts(p, slots, g1, iv, JNull)
    ensures DecryptStep(p, later, g2, Some(EncryptStep(p, slots, g1, iv, JNull).0), default) == (default, later)
  {
    var text := EncryptStep(p, slots, g1, iv, JNull).0;
    assert p.parse(text) == Some(JNull);
    assert text != "";
  }

  // ---------------------------------------------------------------------------
  // The storage medium and the three operations over it
  // ---------------------------------------------------------------------------

  /** `localStorage`: one string per slot name. */
  class LocalStorage {
    var slots: Slots

    constructor (initial: Slots)
      ensures slots == initial
    {
      slots := initial;
    }

    method GetItem(name: string) returns (r: Option<string>)
      ensures r == Item(slots, name)
    {
      r := if name in slots then Some(slots[name]) else None;
    }

    method SetItem(name: string, value: string)
      modifies this
      ensures slots == old(slots)[name := value]
    {
      slots := slots[name := value];
    }

    /** Reads the key slot and, only when it is empty, writes the export of a freshly generated key. */
    method GetOrCreateKey(p: Platform, generated: Option<Key>) returns (key: Option<Key>)
      modifies this
      ensures (key, slots) == KeyStep(p, old(slots), generated)
    {
      var jwk := GetItem(ENCRYPTION_KEY_STORAGE);
      if jwk.Some? && jwk.value != "" {
        var parsed := p.parse(jwk.value);
        key := if parsed.Some? then p.importKey(parsed.value) else None;
        return;
      }
      if generated.None? {
        key := None;
        return;
      }
      var exported := p.exportKey(generated.value);
      SetItem(ENCRYPTION_KEY_STORAGE, p.serialize(exported));
      key := generated;
    }

    method EncryptData(p: Platform, generated: Option<Key>, iv: seq<byte>, v: Json) returns (text: string)
      requires |iv| == IV_LENGTH
      modifies this
      ensures (text, slots) == EncryptStep(p, old(slots), generated, iv, v)
    {
      var key := GetOrCreateKey(p, generated);
      text := SealValue(p, key, iv, v);
    }

    method DecryptData(p: Platform, generated: Option<Key>, cipherText: Option<string>, default: Json)
      returns (r: Json)
      modifies this
      ensures (r, slots) == DecryptStep(p, old(slots), generated, cipherText, default)
    {
      var stored := Classify(p, cipherText);
      match stored {
        case Missing => r := default;
        case Unreadable => r := default;
        case Legacy(v) => r := v;
        case Sealed(iv, data) =>
          var key := GetOrCreateKey(p, generated);
          r := OpenSealed(p, key, iv, data, default);
      }
    }
  }
}
