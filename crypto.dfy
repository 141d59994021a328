/** The credential vault (app/lib/crypto.ts): the 32-byte key check, and the
    framing `IV(16) ‖ tag(16) ‖ ciphertext` around an AES-256-GCM seal. The cipher
    itself is a parameter; `AeadCorrect` states the two properties of
    authenticated encryption the framing relies on. */
module Vault {
  import opened Common

  type Byte = x: int | 0 <= x < 256
  type Bytes = seq<Byte>

  const IvLength: nat := 16
  const AuthTagLength: nat := 16
  const KeyLength: nat := 32

  /** What `randomBytes(16)` and `randomBytes(32)` hand back. */
  type Iv = s: Bytes | |s| == IvLength witness seq(16, i => 0)
  type RawKey = s: Bytes | |s| == KeyLength witness seq(32, i => 0)

  datatype Sealed = Sealed(ciphertext: Bytes, tag: Bytes)

  /** An AEAD cipher: `seal(key, iv, plaintext)` and `open(key, iv, tag, ciphertext)`,
      where `open` yields `None` when the tag does not authenticate. */
  datatype Aead = Aead(seal: (Bytes, Bytes, Bytes) -> Sealed,
                       open: (Bytes, Bytes, Bytes, Bytes) -> Option<Bytes>)

  /** AES-256-GCM as the framing relies on it (NIST SP 800-38D, sections 7.1 and 7.2):
      16-byte tags, opening what was sealed gives the plaintext back, and only a
      (16-byte tag, ciphertext) pair that sealing produced opens at all. Shorter
      tags, which the Node.js decipher also accepts, are given no guarantee. */
  ghost predicate AeadCorrect(a: Aead) {
    && (forall k, iv, p :: |a.seal(k, iv, p).tag| == AuthTagLength)
    && (forall k, iv, p :: a.open(k, iv, a.seal(k, iv, p).tag, a.seal(k, iv, p).ciphertext) == Some(p))
    && (forall k, iv, t, c :: |t| == AuthTagLength && a.open(k, iv, t, c).Some? ==>
          a.seal(k, iv, a.open(k, iv, t, c).value) == Sealed(c, t))
  }

  /** The text conversions around the cipher: `toString('base64')`,
      `Buffer.from(_, 'base64')`, and the UTF-8 encoding of the plaintext on the way
      in (`update(plaintext, 'utf8', _)`) and out (`update(_, _, 'utf8')`). */
  datatype Codec = Codec(toBase64: Bytes -> string, fromBase64: string -> Bytes,
                         toUtf8: string -> Bytes, fromUtf8: Bytes -> string)

  /** Base64 decoding undoes encoding, and so does UTF-8 (a Dafny `char` is a
      Unicode scalar value, so every string has a UTF-8 form). */
  ghost predicate CodecCorrect(c: Codec) {
    && (forall b :: c.fromBase64(c.toBase64(b)) == b)
    && (forall s :: c.fromUtf8(c.toUtf8(s)) == s)
  }

  const KeyUnsetMessage := "ENCRYPTION_KEY_32B_BASE64 environment variable is not set"
  const KeyLengthMessage := "Encryption key must be exactly 32 bytes"
  const AuthFailMessage := "Unsupported state or unable to authenticate data"

  /** `getEncryptionKey()`: the environment variable, base64-decoded by `decode`,
      must be set and decode to exactly 32 bytes. */
  function GetEncryptionKey(env: Option<string>, decode: string -> Bytes): (r: Result<Bytes>)
    ensures r.Ok? <==> Truthy(env) && |decode(env.value)| == KeyLength
    ensures r.Ok? ==> r.value == decode(env.value)
    ensures !Truthy(env) ==> r == Fail(KeyUnsetMessage)
    ensures Truthy(env) && |decode(env.value)| != KeyLength ==> r == Fail(KeyLengthMessage)
  {
    if !Truthy(env) then Fail(KeyUnsetMessage)
    else
      var key := decode(env.value);
      if |key| != KeyLength then Fail(KeyLengthMessage) else Ok(key)
  }

  /** `generateEncryptionKey()`: 32 random bytes, base64-encoded by `encode`. */
  function GenerateEncryptionKey(random: RawKey, encode: Bytes -> string): string {
    encode(random)
  }

  /** A generated key is accepted by the key check, given that base64 decoding
      undoes encoding. */
  lemma GeneratedKeyAccepted(random: RawKey, encode: Bytes -> string, decode: string -> Bytes)
    requires decode(encode(random)) == random && encode(random) != ""
    ensures GetEncryptionKey(Some(GenerateEncryptionKey(random, encode)), decode) == Ok(random)
  {
  }

  // ---------------------------------------------------------------------------
  // Framing

  /** `Buffer.concat([iv, authTag, encrypted])`. */
  function Frame(iv: Bytes, tag: Bytes, ciphertext: Bytes): (r: Bytes)
    ensures |r| == |iv| + |tag| + |ciphertext|
  {
    iv + tag + ciphertext
  }

  function Min(a: nat, b: nat): nat { if a <= b then a else b }

  /** `buf.subarray(lo, hi)`: out-of-range bounds are clamped to the length. */
  function Subarray(s: Bytes, lo: nat, hi: nat): (r: Bytes)
    requires lo <= hi
    ensures |r| <= hi - lo
  {
    s[Min(lo, |s|)..Min(hi, |s|)]
  }

  datatype Parts = Parts(iv: Bytes, tag: Bytes, ciphertext: Bytes)

  /** The three `subarray` calls of `decrypt`: bytes [0,16), [16,32) and [32,..). */
  function Unframe(combined: Bytes): (r: Parts)
    ensures r.iv + r.tag + r.ciphertext == combined
    ensures |combined| >= IvLength + AuthTagLength ==> |r.iv| == IvLength && |r.tag| == AuthTagLength
  {
    Parts(Subarray(combined, 0, IvLength),
          Subarray(combined, IvLength, IvLength + AuthTagLength),
          combined[Min(IvLength + AuthTagLength, |combined|)..])
  }

  /** Slicing undoes concatenation whenever the IV and the tag have 16 bytes. */
  lemma UnframeFrame(iv: Bytes, tag: Bytes, ciphertext: Bytes)
    requires |iv| == IvLength && |tag| == AuthTagLength
    ensures Unframe(Frame(iv, tag, ciphertext)) == Parts(iv, tag, ciphertext)
  {
    var c := Frame(iv, tag, ciphertext);
    assert c[..16] == iv;
    assert c[16..32] == tag;
    assert c[32..] == ciphertext;
  }

  // ---------------------------------------------------------------------------
  // Encrypt and decrypt

  /** The frame `encrypt` builds for a key, an IV and plaintext bytes (before base64). */
  function Sealing(aead: Aead, key: Bytes, iv: Bytes, plaintext: Bytes): Bytes {
    var s := aead.seal(key, iv, plaintext);
    Frame(iv, s.tag, s.ciphertext)
  }

  /** What the decipher yields for a key and a framed value (after base64, before UTF-8). */
  function Opening(aead: Aead, key: Bytes, combined: Bytes): Result<Bytes> {
    var parts := Unframe(combined);
    match aead.open(key, parts.iv, parts.tag, parts.ciphertext)
    case None => Fail(AuthFailMessage)
    case Some(p) => Ok(p)
  }

  /** The text `encrypt` returns for a key, an IV and a plaintext: the UTF-8
      plaintext sealed, the ciphertext passed through base64 (`update` and `final`
      write base64 that `Buffer.from` reads back), framed, and base64-encoded. */
  function EncryptedText(codec: Codec, aead: Aead, key: Bytes, iv: Bytes, plaintext: string): string {
    var cipher := aead.seal(key, iv, codec.toUtf8(plaintext));
    codec.toBase64(Frame(iv, cipher.tag, codec.fromBase64(codec.toBase64(cipher.ciphertext))))
  }

  /** The text `decrypt` returns for a key and a base64 value: the frame decoded
      and sliced, the ciphertext passed through base64 into the decipher, and the
      plaintext read as UTF-8. */
  function DecryptedText(codec: Codec, aead: Aead, key: Bytes, text: string): Result<string> {
    var parts := Unframe(codec.fromBase64(text));
    match aead.open(key, parts.iv, parts.tag, codec.fromBase64(codec.toBase64(parts.ciphertext)))
    case None => Fail(AuthFailMessage)
    case Some(p) => Ok(codec.fromUtf8(p))
  }

  /** `encrypt(plaintext)`: fetch the key, seal under a fresh IV, frame, encode. */
  method Encrypt(env: Option<string>, codec: Codec, aead: Aead, iv: Iv, plaintext: string)
    returns (r: Result<string>)
    ensures r.Ok? <==> GetEncryptionKey(env, codec.fromBase64).Ok?
    ensures GetEncryptionKey(env, codec.fromBase64).Err? ==> r == Err(GetEncryptionKey(env, codec.fromBase64).error)
    ensures r.Ok? ==> r.value == EncryptedText(codec, aead, codec.fromBase64(env.value), iv, plaintext)
  {
    var key := GetEncryptionKey(env, codec.fromBase64);
    if key.Err? {
      return Err(key.error);
    }
    var cipher := aead.seal(key.value, iv, codec.toUtf8(plaintext));
    var encrypted := codec.toBase64(cipher.ciphertext);
    var authTag := cipher.tag;
    var combined := Frame(iv, authTag, codec.fromBase64(encrypted));
    r := Ok(codec.toBase64(combined));
  }

  /** `decrypt(ciphertext)`: fetch the key, decode and slice the frame, open. */
  method Decrypt(env: Option<string>, codec: Codec, aead: Aead, ciphertext: string)
    returns (r: Result<string>)
    ensures GetEncryptionKey(env, codec.fromBase64).Err? ==> r == Err(GetEncryptionKey(env, codec.fromBase64).error)
    ensures GetEncryptionKey(env, codec.fromBase64).Ok? ==>
      r == DecryptedText(codec, aead, codec.fromBase64(env.value), ciphertext)
  {
    var key := GetEncryptionKey(env, codec.fromBase64);
    if key.Err? {
      return Err(key.error);
    }
    var combined := codec.fromBase64(ciphertext);
    var iv := Subarray(combined, 0, IvLength);
    var authTag := Subarray(combined, IvLength, IvLength + AuthTagLength);
    var encrypted := combined[Min(IvLength + AuthTagLength, |combined|)..];
    var plain := aead.open(key.value, iv, authTag, codec.fromBase64(codec.toBase64(encrypted)));
    if plain.None? {
      return Fail(AuthFailMessage);
    }
    r := Ok(codec.fromUtf8(plain.value));
  }

  /** With a correct codec, the text `encrypt` returns is the base64 of the
      framed sealing of the UTF-8 plaintext: an IV, a 16-byte tag, then the
      ciphertext. */
  lemma EncryptedTextIsSealing(codec: Codec, aead: Aead, key: Bytes, iv: Iv, plaintext: string)
    requires CodecCorrect(codec) && AeadCorrect(aead)
    ensures var combined := codec.fromBase64(EncryptedText(codec, aead, key, iv, plaintext));
      && combined == Sealing(aead, key, iv, codec.toUtf8(plaintext))
      && combined[..IvLength] == iv
      && |combined| == IvLength + AuthTagLength + |aead.seal(key, iv, codec.toUtf8(plaintext)).ciphertext|
  {
    var cipher := aead.seal(key, iv, codec.toUtf8(plaintext));
    assert codec.fromBase64(codec.toBase64(cipher.ciphertext)) == cipher.ciphertext;
    var combined := Frame(iv, cipher.tag, cipher.ciphertext);
    assert codec.fromBase64(codec.toBase64(combined)) == combined;
    assert combined[..IvLength] == iv;
  }

  /** With a correct codec, `decrypt` is the byte-level opening of the decoded
      value, read as UTF-8. */
  lemma DecryptedTextIsOpening(codec: Codec, aead: Aead, key: Bytes, text: string)
    requires CodecCorrect(codec)
    ensures var opening := Opening(aead, key, codec.fromBase64(text));
      && (DecryptedText(codec, aead, key, text).Ok? <==> opening.Ok?)
      && (opening.Ok? ==> DecryptedText(codec, aead, key, text) == Ok(codec.fromUtf8(opening.value)))
      && (opening.Err? ==> DecryptedText(codec, aead, key, text) == Fail(AuthFailMessage))
  {
    var parts := Unframe(codec.fromBase64(text));
    assert codec.fromBase64(codec.toBase64(parts.ciphertext)) == parts.ciphertext;
  }

  /** decrypt(encrypt(p)) == p for text, under the same key and a correct codec. */
  lemma {:induction false} DecryptEncryptText(codec: Codec, aead: Aead, key: Bytes, iv: Iv, plaintext: string)
    requires CodecCorrect(codec) && AeadCorrect(aead)
    ensures DecryptedText(codec, aead, key, EncryptedText(codec, aead, key, iv, plaintext)) == Ok(plaintext)
  {
    var text := EncryptedText(codec, aead, key, iv, plaintext);
    EncryptedTextIsSealing(codec, aead, key, iv, plaintext);
    DecryptedTextIsOpening(codec, aead, key, text);
    DecryptEncrypt(aead, key, iv, codec.toUtf8(plaintext));
    assert codec.fromUtf8(codec.toUtf8(plaintext)) == plaintext;
  }

  /** decrypt(encrypt(p)) == p under the same key. */
  lemma {:induction false} DecryptEncrypt(aead: Aead, key: Bytes, iv: Iv, plaintext: Bytes)
    requires AeadCorrect(aead)
    ensures Opening(aead, key, Sealing(aead, key, iv, plaintext)) == Ok(plaintext)
  {
    var s := aead.seal(key, iv, plaintext);
    assert |s.tag| == AuthTagLength;
    UnframeFrame(iv, s.tag, s.ciphertext);
  }

  /** Only an authentic frame decrypts: a value that opens is exactly the sealing
      of what it opens to, under its own IV. */
  lemma {:induction false} OnlyAuthenticFramesOpen(aead: Aead, key: Bytes, combined: Bytes)
    requires AeadCorrect(aead) && |combined| >= IvLength + AuthTagLength
    ensures Opening(aead, key, combined).Ok? ==>
      combined == Sealing(aead, key, Unframe(combined).iv, Opening(aead, key, combined).value)
  {
    var parts := Unframe(combined);
    var o := aead.open(key, parts.iv, parts.tag, parts.ciphertext);
    if o.Some? {
      assert aead.seal(key, parts.iv, o.value) == Sealed(parts.ciphertext, parts.tag);
    }
  }

  /** Tampering never yields the original plaintext: a value that starts with the
      same IV and decrypts to `p` is the untouched output of encrypting `p`. */
  lemma TamperedNeverOpensToOriginal(aead: Aead, key: Bytes, iv: Iv, plaintext: Bytes, combined: Bytes)
    requires AeadCorrect(aead)
    requires |combined| >= IvLength + AuthTagLength && combined[..IvLength] == iv
    requires Opening(aead, key, combined) == Ok(plaintext)
    ensures combined == Sealing(aead, key, iv, plaintext)
  {
    OnlyAuthenticFramesOpen(aead, key, combined);
    assert Unframe(combined).iv == combined[..IvLength];
  }
}
