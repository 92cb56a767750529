/**
 * The PIN oracle that the session lock manager relies on: an authenticated envelope
 * produced by `encryptWithPin` / `generatePinTestData` and checked by `verifyPin`.
 *
 * Key derivation (PBKDF2 with SHA-256, section 5.2 of RFC 8018) is an arbitrary
 * deterministic function `kdf` supplied by the caller; AES-GCM is taken in its
 * ideal form: a sealed payload opens exactly under the key and nonce it was sealed
 * with, and under no other. Base64 encoding of the fields is not modelled.
 */
module PinEnvelope {
  import opened JsBuiltins

  /** PBKDF2-SHA-256 of a PIN and a salt, as a deterministic function. */
  type Kdf = (string, seq<byte>) -> seq<byte>

  const Pbkdf2Iterations: nat := 200000
  const KeyLengthBits: nat := 256
  const SaltLength: nat := 32
  const IvLength: nat := 12
  const SchemaVersion: int := 1

  /** An AES-GCM ciphertext with its tag, in the ideal-cipher view. */
  datatype Sealed = Sealed(key: seq<byte>, nonce: seq<byte>, plaintext: string)

  /** The stored envelope `{ data, iv, salt, version }`. */
  datatype EncryptedData = EncryptedData(data: Sealed, iv: seq<byte>, salt: seq<byte>, version: int)

  /** The pattern `^\d{4,6}$` that key derivation demands of a PIN. */
  predicate IsPinFormat(pin: string) {
    4 <= |pin| <= 6 && AllDigits(pin)
  }

  /** `encryptWithPin(payload, pin)` with the fresh salt and nonce as parameters;
      `None` when key derivation rejects the PIN. */
  function EncryptWithPin(kdf: Kdf, payload: string, pin: string, salt: seq<byte>, iv: seq<byte>)
    : (r: Option<EncryptedData>)
    ensures r.Some? <==> IsPinFormat(pin)
    ensures r.Some? ==> r.value.salt == salt && r.value.iv == iv && r.value.version == SchemaVersion
  {
    if !IsPinFormat(pin) then None
    else Some(EncryptedData(Sealed(kdf(pin, salt), iv, payload), iv, salt, SchemaVersion))
  }

  /** `decryptWithPin(envelope, pin)`; `None` when it throws. */
  function DecryptWithPin(kdf: Kdf, env: EncryptedData, pin: string): (r: Option<string>)
    ensures !IsPinFormat(pin) ==> r.None?
    ensures r.Some? ==> r.value == env.data.plaintext && env.data.key == kdf(pin, env.salt)
  {
    if !IsPinFormat(pin) then None
    else if env.data.key == kdf(pin, env.salt) && env.data.nonce == env.iv then Some(env.data.plaintext)
    else None
  }

  /** The JSON text of the marker payload `{ test: 'financeiq_pin_validation', timestamp }`. */
  function TestPayload(timestamp: nat): string {
    "{\"test\":\"financeiq_pin_validation\",\"timestamp\":" + NatToString(timestamp) + "}"
  }

  /** `generatePinTestData(pin)`: the marker payload sealed under the PIN. */
  function GeneratePinTestData(kdf: Kdf, pin: string, salt: seq<byte>, iv: seq<byte>, now: nat)
    : (r: Option<EncryptedData>)
    ensures r.Some? <==> IsPinFormat(pin)
    ensures r.Some? ==> DecryptWithPin(kdf, r.value, pin) == Some(TestPayload(now))
  {
    EncryptWithPin(kdf, TestPayload(now), pin, salt, iv)
  }

  /** `verifyPin(pin, testData)`: true exactly when decryption does not throw. */
  predicate VerifyPin(kdf: Kdf, pin: string, env: EncryptedData)
    ensures VerifyPin(kdf, pin, env) ==> IsPinFormat(pin) && env.data.key == kdf(pin, env.salt)
  {
    DecryptWithPin(kdf, env, pin).Some?
  }

  /** Decrypting with the PIN used to encrypt returns the payload. */
  lemma DecryptEncrypt(kdf: Kdf, payload: string, pin: string, salt: seq<byte>, iv: seq<byte>)
    requires IsPinFormat(pin)
    ensures DecryptWithPin(kdf, EncryptWithPin(kdf, payload, pin, salt, iv).value, pin) == Some(payload)
  {
  }

  /** The test envelope generated for a PIN verifies under that PIN. */
  lemma VerifyGenerated(kdf: Kdf, pin: string, salt: seq<byte>, iv: seq<byte>, now: nat)
    requires IsPinFormat(pin)
    ensures GeneratePinTestData(kdf, pin, salt, iv, now).Some?
    ensures VerifyPin(kdf, pin, GeneratePinTestData(kdf, pin, salt, iv, now).value)
  {
  }

  /** A PIN whose derived key differs from the right one on this salt is rejected. */
  lemma WrongPinRejected(kdf: Kdf, pin: string, other: string, salt: seq<byte>, iv: seq<byte>, now: nat)
    requires IsPinFormat(pin)
    requires kdf(other, salt) != kdf(pin, salt)
    ensures !VerifyPin(kdf, other, GeneratePinTestData(kdf, pin, salt, iv, now).value)
  {
  }
}
