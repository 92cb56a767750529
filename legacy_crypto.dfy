/**
 * The legacy four-digit PIN hash utilities: a lowercase hex codec, the exact
 * four-digit format check, the `salt:hash` storage string written by `hashPin` and
 * taken apart by `verifyPin`, and the test PIN generator.
 *
 * PBKDF2 with SHA-256 and 100 000 iterations (section 5.2 of RFC 8018) is the
 * arbitrary deterministic function `derive`, returning the 256 bits asked for;
 * the random salt and the random byte are parameters.
 */
module LegacyCrypto {
  import opened JsBuiltins

  const SaltLength: nat := 16
  const Iterations: nat := 100000
  const DerivedLength: nat := 32

  const PinFormatError: string := "PIN doit être exactement 4 chiffres"

  /** A salt from `generateSalt`: 16 random bytes. */
  type Salt = s: seq<byte> | |s| == SaltLength witness seq(16, _ => 0)

  /** The output of `deriveBits(..., 256)`: 32 bytes. */
  type Digest = s: seq<byte> | |s| == DerivedLength witness seq(32, _ => 0)

  /** PBKDF2 of the PIN's UTF-8 bytes under a salt. */
  type DeriveBits = (string, seq<byte>) -> Digest

  // ---------------------------------------------------------------------------
  // Hex codec

  /** Lowercase hexadecimal digit, as `Number.prototype.toString(16)` writes it. */
  function HexChar(d: nat): (c: char)
    requires d < 16
    ensures IsRadixDigit(c, Sixteen) && RadixDigitValue(c, Sixteen) == d
    ensures IsLowerHex(c)
  {
    if d < 10 then DigitChar(d) else ('a' as int + (d - 10)) as char
  }

  predicate IsLowerHex(c: char) {
    IsDigit(c) || ('a' <= c <= 'f')
  }

  predicate AllLowerHex(s: string) {
    forall i :: 0 <= i < |s| ==> IsLowerHex(s[i])
  }

  /** `byte.toString(16).padStart(2, '0')`. */
  function ByteToHex(b: byte): (s: string)
    ensures s == [HexChar(b / 16), HexChar(b % 16)]
  {
    var digits := if b < 16 then [HexChar(b)] else [HexChar(b / 16), HexChar(b % 16)];
    PadStart(digits, 2, '0')
  }

  /** `arrayToHex`: two lowercase hex digits per byte, in order. */
  function ArrayToHex(bytes: seq<byte>): (s: string)
    ensures |s| == 2 * |bytes|
    ensures AllLowerHex(s) && ':' !in s
  {
    if bytes == [] then [] else ByteToHex(bytes[0]) + ArrayToHex(bytes[1..])
  }

  /** What `hexToArray` stores at index `k`: `parseInt` of the k-th pair in radix 16,
      written into a `Uint8Array` (NaN becomes 0, negatives wrap). */
  function PairByte(hex: string, k: nat): byte
    requires k < |hex| / 2
  {
    ToUint8(ParseInt(hex[2 * k..2 * k + 2], Sixteen))
  }

  /** The array `hexToArray` returns: one entry per complete pair; an odd final
      character is dropped. */
  function HexDecode(hex: string): (r: seq<byte>)
    ensures |r| == |hex| / 2
  {
    DecodePairs(hex, |hex| / 2)
  }

  /** The bytes of the first `n` pairs of `hex`, in order. */
  function DecodePairs(hex: string, n: nat): (r: seq<byte>)
    requires 2 * n <= |hex|
    ensures |r| == n
  {
    if n == 0 then [] else DecodePairs(hex, n - 1) + [PairByte(hex, n - 1)]
  }

  lemma {:induction false} DecodePairsAt(hex: string, n: nat, k: nat)
    requires 2 * n <= |hex| && k < n
    ensures DecodePairs(hex, n)[k] == PairByte(hex, k)
  {
    if k < n - 1 {
      DecodePairsAt(hex, n - 1, k);
    }
  }

  /** `hexToArray`: fills a zeroed `Uint8Array` of `floor(length / 2)` entries pair by
      pair; the write for an odd final character falls outside it and is ignored. */
  method HexToArray(hex: string) returns (bytes: array<byte>)
    ensures fresh(bytes)
    ensures bytes[..] == HexDecode(hex)
  {
    ghost var half := |hex| / 2;
    assert 2 * half <= |hex| <= 2 * half + 1;
    bytes := new byte[|hex| / 2];
    var i := 0;
    ghost var done := 0;  // entries written so far
    while i < |hex|
      invariant 0 <= i <= |hex| + 1 && bytes.Length == half
      invariant done <= half && (i == 2 * done || (done == half && i == 2 * half + 2))
      invariant bytes[..done] == DecodePairs(hex, done)
    {
      if i / 2 < bytes.Length {
        assert i == 2 * done;
        ghost var before := bytes[..done];
        bytes[i / 2] := ToUint8(ParseInt(hex[i..i + 2], Sixteen));
        assert bytes[..done + 1] == before + [PairByte(hex, done)];
        done := done + 1;
      }
      i := i + 2;
    }
    assert done == half;
    assert bytes[..] == bytes[..done];
  }

  lemma {:induction false} ArrayToHexPair(bytes: seq<byte>, k: nat)
    requires k < |bytes|
    ensures ArrayToHex(bytes)[2 * k..2 * k + 2] == ByteToHex(bytes[k])
  {
    if k > 0 {
      ArrayToHexPair(bytes[1..], k - 1);
      var rest := ArrayToHex(bytes[1..]);
      assert ArrayToHex(bytes)[2 * k..2 * k + 2] == rest[2 * (k - 1)..2 * (k - 1) + 2];
    }
  }

  lemma ParseByteToHex(b: byte)
    ensures ParseInt(ByteToHex(b), Sixteen) == Some(b)
  {
    var hi, lo := HexChar(b / 16), HexChar(b % 16);
    assert ByteToHex(b) == [hi, lo];
    ParseIntOfHexPair(hi, lo);
    assert 16 * (b / 16) + b % 16 == b;
  }

  lemma PairByteOfHex(bytes: seq<byte>, k: nat)
    requires k < |bytes|
    ensures PairByte(ArrayToHex(bytes), k) == bytes[k]
  {
    var hex := ArrayToHex(bytes);
    var b := bytes[k];
    ArrayToHexPair(bytes, k);
    var pair := hex[2 * k..2 * k + 2];
    assert pair == ByteToHex(b);
    ParseByteToHex(b);
    var parsed := ParseInt(pair, Sixteen);
    assert parsed == Some(b);
    assert ToUint8(parsed) == b;
  }

  /** Decoding the hex text of a byte array gives the array back. */
  lemma HexRoundTrip(bytes: seq<byte>)
    ensures HexDecode(ArrayToHex(bytes)) == bytes
  {
    var hex := ArrayToHex(bytes);
    var decoded := HexDecode(hex);
    forall k | 0 <= k < |bytes|
      ensures decoded[k] == bytes[k]
    {
      DecodePairsAt(hex, |bytes|, k);
      PairByteOfHex(bytes, k);
    }
  }

  /** Hex text determines the bytes it encodes. */
  lemma ArrayToHexInjective(a: seq<byte>, b: seq<byte>)
    requires ArrayToHex(a) == ArrayToHex(b)
    ensures a == b
  {
    HexRoundTrip(a);
    HexRoundTrip(b);
  }

  // ---------------------------------------------------------------------------
  // PIN format, hashing and verification

  /** `isValidPinFormat`: a string that is exactly four ASCII digits. */
  predicate IsValidPinFormat(pin: string) {
    |pin| == 4 && AllDigits(pin)
  }

  /** The accepted and rejected PINs of the source's tests. */
  lemma PinFormatExamples()
    ensures IsValidPinFormat("0000") && IsValidPinFormat("1234") && IsValidPinFormat("9999")
    ensures IsValidPinFormat("0123")
    ensures !IsValidPinFormat("") && !IsValidPinFormat("123") && !IsValidPinFormat("12345")
    ensures !IsValidPinFormat("abcd") && !IsValidPinFormat("12a4") && !IsValidPinFormat("12.4")
    ensures !IsValidPinFormat(" 1234") && !IsValidPinFormat("1234 ")
  {
    assert !IsDigit("abcd"[0]) && !IsDigit("12a4"[2]) && !IsDigit("12.4"[2]);
  }

  /** `hashPin(pin)` with the random salt as a parameter: `hex(salt):hex(derived)`,
      or the format error. */
  function HashPin(derive: DeriveBits, pin: string, salt: Salt): (r: Result<string>)
    ensures r.Ok? <==> IsValidPinFormat(pin)
    ensures r.Err? ==> r.message == PinFormatError
    ensures r.Ok? ==>
      && |r.value| == 2 * SaltLength + 1 + 2 * DerivedLength
      && r.value[2 * SaltLength] == ':'
      && AllLowerHex(r.value[..2 * SaltLength]) && AllLowerHex(r.value[2 * SaltLength + 1..])
    ensures r.Ok? ==> r.value == ArrayToHex(salt) + ":" + ArrayToHex(derive(pin, salt))
  {
    if pin == [] || |pin| != 4 || !AllDigits(pin) then Err(PinFormatError)
    else
      var text := ArrayToHex(salt) + ":" + ArrayToHex(derive(pin, salt));
      assert text[..2 * SaltLength] == ArrayToHex(salt);
      assert text[2 * SaltLength + 1..] == ArrayToHex(derive(pin, salt));
      Ok(text)
  }

  /** The text before the first `':'`, i.e. the first field of `split(':')`. */
  function FirstField(s: string): (f: string)
    ensures |f| <= |s| && f == s[..|f|]
    ensures ':' !in f
    ensures |f| < |s| ==> s[|f|] == ':'
  {
    if s == [] || s[0] == ':' then [] else [s[0]] + FirstField(s[1..])
  }

  /** `verifyPin(pin, storedHash)`: false for a malformed PIN or stored string, otherwise
      whether the hex of the key derived from the stored salt equals the stored hash
      (only the first two `':'`-separated fields are looked at). */
  predicate VerifyPin(derive: DeriveBits, pin: string, storedHash: string)
    ensures VerifyPin(derive, pin, storedHash) ==>
      && IsValidPinFormat(pin) && ':' in storedHash
      && FirstField(storedHash) != []
      && FirstField(storedHash[|FirstField(storedHash)| + 1..])
         == ArrayToHex(derive(pin, HexDecode(FirstField(storedHash))))
  {
    if pin == [] || |pin| != 4 || !AllDigits(pin) then false
    else if storedHash == [] || ':' !in storedHash then false
    else
      var saltHex := FirstField(storedHash);
      var expectedHashHex := FirstField(storedHash[|saltHex| + 1..]);
      if saltHex == [] || expectedHashHex == [] then false
      else ArrayToHex(derive(pin, HexDecode(saltHex))) == expectedHashHex
  }

  /** The early rejections of `verifyPin`, which never reach key derivation: a malformed PIN,
      no `:`, an empty salt field, or an empty hash field. */
  lemma VerifyRejectsMalformed(derive: DeriveBits, pin: string, storedHash: string)
    ensures !IsValidPinFormat(pin) ==> !VerifyPin(derive, pin, storedHash)
    ensures ':' !in storedHash ==> !VerifyPin(derive, pin, storedHash)
    ensures |storedHash| > 0 && storedHash[0] == ':' ==> !VerifyPin(derive, pin, storedHash)
    ensures ':' in storedHash && FirstField(storedHash[|FirstField(storedHash)| + 1..]) == []
      ==> !VerifyPin(derive, pin, storedHash)
  {
  }

  /** The stored string of `hashPin` splits back into the hex salt and the hex hash. */
  lemma SplitHashed(saltHex: string, hashHex: string)
    requires ':' !in saltHex && ':' !in hashHex
    ensures FirstField(saltHex + ":" + hashHex) == saltHex
    ensures FirstField(hashHex) == hashHex
  {
    var s := saltHex + ":" + hashHex;
    var f := FirstField(s);
    assert s[|saltHex|] == ':';
  }

  /** A PIN verifies against its own hash, for every salt and every key derivation. */
  lemma VerifyHashed(derive: DeriveBits, pin: string, salt: Salt)
    requires IsValidPinFormat(pin)
    ensures HashPin(derive, pin, salt).Ok?
    ensures VerifyPin(derive, pin, HashPin(derive, pin, salt).value)
  {
    var saltHex := ArrayToHex(salt);
    var hashHex := ArrayToHex(derive(pin, salt));
    var stored := saltHex + ":" + hashHex;
    assert HashPin(derive, pin, salt).value == stored;
    SplitHashed(saltHex, hashHex);
    assert stored[|saltHex|] == ':';
    assert stored[|saltHex| + 1..] == hashHex;
    HexRoundTrip(salt);
  }

  /** Another PIN whose derived key under the same salt differs is rejected. */
  lemma VerifyOtherRejected(derive: DeriveBits, pin: string, other: string, salt: Salt)
    requires IsValidPinFormat(pin)
    requires derive(other, salt) != derive(pin, salt)
    ensures !VerifyPin(derive, other, HashPin(derive, pin, salt).value)
  {
    VerifyHashed(derive, pin, salt);
    if VerifyPin(derive, other, HashPin(derive, pin, salt).value) {
      var saltHex := ArrayToHex(salt);
      var hashHex := ArrayToHex(derive(pin, salt));
      var stored := saltHex + ":" + hashHex;
      SplitHashed(saltHex, hashHex);
      assert stored[|saltHex| + 1..] == hashHex;
      HexRoundTrip(salt);
      ArrayToHexInjective(derive(other, salt), derive(pin, salt));
    }
  }

  // ---------------------------------------------------------------------------
  // Test PIN generation

  /** `String(n).padStart(4, '0')` for `n < 10000`: four digits of value `n`. */
  function FourDigitPin(n: nat): (pin: string)
    requires n < 10000
    ensures IsValidPinFormat(pin) && DecimalValue(pin) == n
  {
    var s := NatToString(n);
    NatToStringLength(n, 4);
    DecimalValueZeroPad(4 - |s|, s);
    PadStart(s, 4, '0')
  }

  /** `generateRandomPin` as written, with the one random byte of its `Uint8Array(1)`
      as a parameter: the byte modulo 10000, padded. */
  function GenerateRandomPin(random: byte): (pin: string)
    ensures IsValidPinFormat(pin) && DecimalValue(pin) == random
  {
    FourDigitPin(random % 10000)
  }

  /** A byte is below 10000, so the generated PIN never exceeds 0255. */
  lemma RandomPinAtMost255(random: byte)
    ensures DecimalValue(GenerateRandomPin(random)) <= 255
    ensures GenerateRandomPin(random)[0] == '0'
  {
    var pin := GenerateRandomPin(random);
    DecimalValueBounds(pin);
  }

  /** So most valid PINs, "1234" among them, are never generated. */
  lemma RandomPinMisses1234(random: byte)
    ensures GenerateRandomPin(random) != "1234"
  {
    RandomPinAtMost255(random);
  }

  /** The evidently intended generator: drawn from a 32-bit random word
      (`Uint32Array(1)`), reduced modulo 10000. */
  function GenerateRandomPinCorrected(random: nat): (pin: string)
    requires random < 0x1_0000_0000
    ensures IsValidPinFormat(pin) && DecimalValue(pin) == random % 10000
  {
    FourDigitPin(random % 10000)
  }

  /** Every valid PIN is generated by the corrected generator from some word. */
  lemma CorrectedCoversAllPins(pin: string)
    requires IsValidPinFormat(pin)
    ensures DecimalValue(pin) < 10000
    ensures GenerateRandomPinCorrected(DecimalValue(pin)) == pin
  {
    var n := DecimalValue(pin);
    DecimalValueBounds(pin);
    DecimalValueInjective(GenerateRandomPinCorrected(n), pin);
  }
}
