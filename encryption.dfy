/** The client-side field cipher: a process-wide service holding an
    optional key, derived from the session token for signed-in users and
    kept in local storage for anonymous devices.

    AES and SHA-256 are a foreign library. They are replaced by stand-ins
    with the two properties the application depends on: the digest is an
    injective function of its input, and opening a ciphertext under the key
    that sealed it gives the plaintext back. The stand-ins keep no secret. */
module Encryption {
  import opened Wrappers
  import opened Json
  import opened Storage

  /** Appended to the session token before hashing. */
  const Salt: string := "mental-health-salt"

  datatype CipherError =
    | KeyNotInitialized   // "Encryption key not initialized"
    | NotJson             // `JSON.parse` of the decrypted text threw

  predicate IsHexDigit(c: char) {
    '0' <= c <= '9' || 'a' <= c <= 'f'
  }

  predicate IsHex(s: string) {
    forall i :: 0 <= i < |s| ==> IsHexDigit(s[i])
  }

  /** Stand-in for `SHA256(input).toString()`. */
  function Sha256Hex(input: string): (h: string)
    ensures |h| > 0
  {
    "sha256:" + input
  }

  /** The digest stand-in is injective, as SHA-256 is assumed to be. */
  lemma Sha256Injective(a: string, b: string)
    ensures Sha256Hex(a) == Sha256Hex(b) <==> a == b
  {
    if Sha256Hex(a) == Sha256Hex(b) {
      assert a == Sha256Hex(a)[7..] && b == Sha256Hex(b)[7..];
    }
  }

  /** The key of a signed-in user: the digest of the token and the salt. */
  function SessionKey(token: string): (k: string)
    ensures k != ""
  {
    Sha256Hex(token + Salt)
  }

  /** Two sessions share a key exactly when they share a token. */
  lemma SessionKeyInjective(t1: string, t2: string)
    ensures SessionKey(t1) == SessionKey(t2) <==> t1 == t2
  {
    Sha256Injective(t1 + Salt, t2 + Salt);
    if t1 + Salt == t2 + Salt {
      assert t1 == (t1 + Salt)[..|t1|];
      assert t2 == (t2 + Salt)[..|t2|];
    }
  }

  /** Stand-in for `AES.encrypt(data, key).toString()`. */
  function Seal(key: string, data: string): string {
    Serialize(JArray([JString(key), JString(data)]))
  }

  /** Stand-in for `AES.decrypt(text, key).toString(Utf8)`: the plaintext
      under the right key, the empty string otherwise. */
  function Open(key: string, text: string): string {
    match Parse(text)
    case Some(JArray(items)) =>
      if |items| == 2 && items[0] == JString(key) && items[1].JString? then items[1].str else ""
    case _ => ""
  }

  lemma OpenSeal(key: string, data: string)
    ensures Open(key, Seal(key, data)) == data
  {
    RoundTrip(JArray([JString(key), JString(data)]));
  }

  /** Under a different key nothing of the plaintext comes back. */
  lemma OpenWithOtherKey(key: string, other: string, data: string)
    requires key != other
    ensures Open(other, Seal(key, data)) == ""
  {
    RoundTrip(JArray([JString(key), JString(data)]));
  }

  /** What `initializeKey(userSession)` leaves behind: the key, and the
      local-storage entries. `randomKey` is the text of 32 fresh random
      bytes, used only when no device key is stored. */
  function InitializedKey(session: Option<string>, items: map<string, string>, randomKey: string)
    : (r: (string, map<string, string>))
    requires randomKey != ""
    ensures r.0 != ""
    ensures Truthy(session) ==> r == (SessionKey(session.value), items)
    ensures !Truthy(session) ==> DeviceKeyKey in r.1 && r.1[DeviceKeyKey] == r.0
    ensures !Truthy(session) && DeviceKeyKey in items && items[DeviceKeyKey] != "" ==>
      r == (items[DeviceKeyKey], items)
    ensures r.1 - {DeviceKeyKey} == items - {DeviceKeyKey}
  {
    if Truthy(session) then (SessionKey(session.value), items)
    else if DeviceKeyKey in items && items[DeviceKeyKey] != "" then (items[DeviceKeyKey], items)
    else (randomKey, items[DeviceKeyKey := randomKey])
  }

  /** Without a session, a second initialization reuses the device key the
      first one settled on and writes nothing: storage is written at most
      once, whatever random value the second call draws. */
  lemma DeviceKeyIdempotent(items: map<string, string>, random1: string, random2: string)
    requires random1 != "" && random2 != ""
    ensures var (k1, s1) := InitializedKey(None, items, random1);
      InitializedKey(None, s1, random2) == (k1, s1)
    ensures var (_, s1) := InitializedKey(None, items, random1);
      s1 == items || (s1 == items[DeviceKeyKey := random1] && !Truthy(if DeviceKeyKey in items then Some(items[DeviceKeyKey]) else None))
  {
  }

  class EncryptionService {
    var encryptionKey: Option<string>

    constructor()
      ensures encryptionKey == None
    {
      encryptionKey := None;
    }

    /** The key is set and non-empty (the service tests it for truthiness). */
    predicate HasKey()
      reads this
    {
      Truthy(encryptionKey)
    }

    method InitializeKey(userSession: Option<string>, storage: LocalStorage, randomKey: string)
      requires |randomKey| == 64 && IsHex(randomKey)
      modifies this, storage
      ensures HasKey()
      ensures (encryptionKey.value, storage.items) == InitializedKey(userSession, old(storage.items), randomKey)
    {
      if Truthy(userSession) {
        encryptionKey := Some(SessionKey(userSession.value));
      } else {
        var deviceKey := storage.GetItem(DeviceKeyKey);
        if !Truthy(deviceKey) {
          deviceKey := Some(randomKey);
          storage.SetItem(DeviceKeyKey, randomKey);
        }
        encryptionKey := deviceKey;
      }
    }

    function Encrypt(data: string): (r: Result<string, CipherError>)
      reads this
      ensures r.Failure? <==> !HasKey()
      ensures r.Failure? ==> r.error == KeyNotInitialized
      ensures r.Success? ==> Open(encryptionKey.value, r.value) == data
      ensures r.Success? ==> r.value != ""
    {
      if !HasKey() then Failure(KeyNotInitialized)
      else
        OpenSeal(encryptionKey.value, data);
        Success(Seal(encryptionKey.value, data))
    }

    function Decrypt(text: string): (r: Result<string, CipherError>)
      reads this
      ensures r.Failure? <==> !HasKey()
      ensures r.Failure? ==> r.error == KeyNotInitialized
    {
      if !HasKey() then Failure(KeyNotInitialized)
      else Success(Open(encryptionKey.value, text))
    }

    /** Under one key, decryption undoes encryption. */
    lemma DecryptEncrypt(data: string)
      requires HasKey()
      ensures Encrypt(data).Success? && Decrypt(Encrypt(data).value) == Success(data)
    {
    }

    /** `encrypt(JSON.stringify(obj))`. */
    function EncryptObject(obj: Json): (r: Result<string, CipherError>)
      reads this
      ensures r.Failure? <==> !HasKey()
      ensures r.Success? ==> Parse(Open(encryptionKey.value, r.value)) == Some(obj)
      ensures r.Success? ==> r.value != ""
    {
      RoundTrip(obj);
      Encrypt(Serialize(obj))
    }

    /** `JSON.parse(decrypt(text))`: fails when there is no key or when the
        decrypted text is not JSON (as with a wrong key, which gives ""). */
    function DecryptObject(text: string): (r: Result<Json, CipherError>)
      reads this
      ensures !HasKey() ==> r == Failure(KeyNotInitialized)
      ensures r.Success? ==> Parse(Open(encryptionKey.value, text)) == Some(r.value)
    {
      match Decrypt(text)
      case Failure(e) => Failure(e)
      case Success(plain) =>
        match Parse(plain)
        case Some(v) => Success(v)
        case None => Failure(NotJson)
    }

    lemma DecryptObjectEncryptObject(obj: Json)
      requires HasKey()
      ensures EncryptObject(obj).Success? && DecryptObject(EncryptObject(obj).value) == Success(obj)
    {
    }

    /** Forgets the key; local storage, and the device key kept there, is
        outside this method's frame and so stays as it was. */
    method ClearKey()
      modifies this
      ensures encryptionKey == None && !HasKey()
    {
      encryptionKey := None;
    }

    /** The first 16 characters of the digest of 16 fresh random bytes;
        `randomDigest` is that digest. */
    function GenerateAnonymousId(randomDigest: string): (id: string)
      requires |randomDigest| == 64 && IsHex(randomDigest)
      ensures |id| == 16 && IsHex(id) && id <= randomDigest
    {
      randomDigest[..16]
    }
  }

  /** Holder of the single service instance (`EncryptionService.instance`). */
  class Registry {
    var instance: EncryptionService?

    constructor()
      ensures instance == null
    {
      instance := null;
    }

    /** Creates the instance on the first call and returns that same
        instance on every later call. */
    method GetInstance() returns (e: EncryptionService)
      modifies this
      ensures instance == e
      ensures old(instance) != null ==> e == old(instance)
      ensures old(instance) == null ==> fresh(e) && e.encryptionKey == None
    {
      if instance == null {
        instance := new EncryptionService();
      }
      e := instance;
    }
  }
}
