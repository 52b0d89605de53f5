/** The at-rest cipher of the notifier (src/core/crypto.js): a 32-character key derived from a
    configured string, and the envelope `hex(iv) ":" hex(ciphertext)` around AES-256-CBC.
    The block cipher itself, with its UTF-8 conversion of the text, is an oracle pair. */
module SecretCipher {
  import opened Wrappers
  import opened Text
  import Hex

  const KeyLength: nat := 32
  const IvLength: nat := 16

  const EncryptFailed: string := "数据加密失败"
  const DecryptFailed: string := "数据解密失败"

  /** AES-256-CBC with PKCS#7 padding, as Node's createCipheriv/createDecipheriv provide it:
      `seal(key, iv, text)` encrypts the UTF-8 bytes of `text`; `open(key, iv, ct)` decrypts
      and yields None when the cipher rejects the input (bad padding, wrong length). */
  datatype Aes = Aes(
    seal: (string, seq<Hex.byte>, string) -> seq<Hex.byte>,
    open: (string, seq<Hex.byte>, seq<Hex.byte>) -> Option<string>)

  /** The one fact relied on about the cipher: decryption under the same key and IV undoes it. */
  ghost predicate InversePair(aes: Aes)
  {
    forall key, iv, text :: aes.open(key, iv, aes.seal(key, iv, text)) == Some(text)
  }

  /** `s.padEnd(n, c)`: `s` followed by enough copies of `c` to reach length `n`. */
  function PadEnd(s: string, n: nat, c: char): (r: string)
    ensures |r| == if |s| >= n then |s| else n
    ensures r[..|s|] == s
    ensures forall k :: |s| <= k < |r| ==> r[k] == c
    decreases n - |s|
  {
    if |s| >= n then s else PadEnd(s + [c], n, c)
  }

  /** The constructor's key: `(encryptionKey || '').padEnd(32, '0').slice(0, 32)`. Lengths here
      count characters, where JavaScript counts UTF-16 units; the two differ only for a key
      holding a character beyond U+FFFF, and such a key is unusable either way (`KeyUsable`
      accepts only ASCII keys). */
  function DeriveKey(encryptionKey: Option<string>): (key: string)
    ensures |key| == KeyLength
  {
    var s := encryptionKey.GetOr("");
    PadEnd(s, KeyLength, '0')[..KeyLength]
  }

  /** A configured string of 32 or more characters contributes its first 32; a shorter one is
      a prefix of the key and the rest is '0'. A missing key behaves as the empty string. */
  lemma DeriveKeyShape(encryptionKey: Option<string>)
    ensures var s := encryptionKey.GetOr("");
      && (|s| >= KeyLength ==> DeriveKey(encryptionKey) == s[..KeyLength])
      && (|s| < KeyLength ==>
            (DeriveKey(encryptionKey)[..|s|] == s
             && forall k :: |s| <= k < KeyLength ==> DeriveKey(encryptionKey)[k] == '0'))
    ensures DeriveKey(None) == DeriveKey(Some(""))
  {
  }

  /** The number of bytes of `s` in UTF-8, which is what `Buffer.from(key)` holds. */
  function Utf8Length(s: string): nat
  {
    if |s| == 0 then 0
    else (if s[0] < 0x80 as char then 1 else if s[0] < 0x800 as char then 2
          else if s[0] < 0x10000 as char then 3 else 4) + Utf8Length(s[1..])
  }

  /** AES-256 accepts the key only when its UTF-8 form is exactly 32 bytes. */
  predicate KeyUsable(key: string)
  {
    Utf8Length(key) == KeyLength
  }

  predicate IsAscii(s: string)
  {
    forall k :: 0 <= k < |s| ==> s[k] < 0x80 as char
  }

  lemma {:induction false} Utf8LengthBounds(s: string)
    ensures Utf8Length(s) >= |s|
    ensures Utf8Length(s) == |s| <==> IsAscii(s)
  {
    if |s| > 0 {
      Utf8LengthBounds(s[1..]);
      if IsAscii(s[1..]) && s[0] < 0x80 as char {
        assert IsAscii(s);
      }
    }
  }

  /** The derived key is usable exactly when it is plain ASCII; a configured key with any
      other character makes every encryption and decryption fail. */
  lemma DerivedKeyUsable(encryptionKey: Option<string>)
    ensures KeyUsable(DeriveKey(encryptionKey)) <==> IsAscii(DeriveKey(encryptionKey))
  {
    Utf8LengthBounds(DeriveKey(encryptionKey));
  }

  /** The service object: the derived key and the algorithm. */
  datatype CryptoService = CryptoService(key: string, aes: Aes) {

    /** `encrypt(text)` with the random IV as a parameter: the envelope on success, the one
        generic error otherwise. */
    function Encrypt(iv: seq<Hex.byte>, text: string): (r: Result<string, string>)
      requires |iv| == IvLength
      ensures r.Err? <==> !KeyUsable(key)
      ensures r.Err? ==> r.error == EncryptFailed
      ensures r.Ok? ==> Split(r.value, ':') == [Hex.Encode(iv), Hex.Encode(aes.seal(key, iv, text))]
    {
      if !KeyUsable(key) then Err(EncryptFailed)
      else
        var ivHex := Hex.Encode(iv);
        var ctHex := Hex.Encode(aes.seal(key, iv, text));
        Hex.EncodeHasNoColon(iv);
        Hex.EncodeHasNoColon(aes.seal(key, iv, text));
        SplitJoin([ivHex, ctHex], ':');
        Ok(ivHex + ":" + ctHex)
    }

    /** `decrypt(envelope)`: the first ':'-separated piece is the IV and the second the
        ciphertext, both hex; further pieces are ignored. The IV is read leniently, as
        `Buffer.from` does, but the decipher refuses ciphertext hex whose JavaScript length
        (in UTF-16 code units) is odd. */
    function Decrypt(envelope: string): (r: Result<string, string>)
      ensures r.Err? ==> r.error == DecryptFailed
      ensures r.Ok? ==>
        (KeyUsable(key) && |Split(envelope, ':')| >= 2
         && |Hex.Decode(Split(envelope, ':')[0])| == IvLength
         && Utf16Length(Split(envelope, ':')[1]) % 2 == 0)
      ensures |Split(envelope, ':')| >= 2 && Utf16Length(Split(envelope, ':')[1]) % 2 == 1 ==> r == Err(DecryptFailed)
    {
      var parts := Split(envelope, ':');
      var iv := Hex.Decode(parts[0]);
      if !KeyUsable(key) || |iv| != IvLength || |parts| < 2 || Utf16Length(parts[1]) % 2 == 1 then Err(DecryptFailed)
      else
        match aes.open(key, iv, Hex.Decode(parts[1]))
        case None => Err(DecryptFailed)
        case Some(text) => Ok(text)
    }
  }

  /** `new CryptoService(encryptionKey)` */
  function NewCryptoService(encryptionKey: Option<string>, aes: Aes): (c: CryptoService)
    ensures |c.key| == KeyLength && c.aes == aes
  {
    CryptoService(DeriveKey(encryptionKey), aes)
  }

  /** Decrypting an envelope made by the same service gives the text back. */
  lemma DecryptEncrypt(c: CryptoService, iv: seq<Hex.byte>, text: string)
    requires InversePair(c.aes)
    requires |iv| == IvLength
    requires KeyUsable(c.key)
    ensures c.Encrypt(iv, text).Ok?
    ensures c.Decrypt(c.Encrypt(iv, text).value) == Ok(text)
  {
    var ct := c.aes.seal(c.key, iv, text);
    Hex.DecodeEncode(iv);
    Hex.DecodeEncode(ct);
  }

  /** Two texts without ':' joined by one ':' split back into the two. */
  lemma EnvelopePieces(a: string, b: string)
    requires ':' !in a && ':' !in b
    ensures Split(a + ":" + b, ':') == [a, b]
  {
    SplitNoSeparator(b, ':');
    SplitAfterPiece(a, ':', b);
  }

  /** An envelope whose ciphertext hex has an odd trailing digit is refused, even when the
      digits before it are this service's ciphertext of `text`. */
  lemma OddCiphertextRejected(c: CryptoService, iv: seq<Hex.byte>, text: string)
    ensures c.Decrypt(Hex.Encode(iv) + ":" + Hex.Encode(c.aes.seal(c.key, iv, text)) + "0") == Err(DecryptFailed)
  {
    var ivHex, ct := Hex.Encode(iv), Hex.Encode(c.aes.seal(c.key, iv, text));
    Hex.EncodeHasNoColon(iv);
    Hex.EncodeHasNoColon(c.aes.seal(c.key, iv, text));
    assert ivHex + ":" + ct + "0" == ivHex + ":" + (ct + "0");
    EnvelopePieces(ivHex, ct + "0");
    Utf16LengthAppend(ct, "0");
  }

  /** A character beyond U+FFFF counts twice in JavaScript, so appending one to the ciphertext
      hex keeps its length even; the hex reading stops before it, and the text comes back. */
  lemma AstralTailIgnored(c: CryptoService, iv: seq<Hex.byte>, text: string)
    requires InversePair(c.aes)
    requires |iv| == IvLength
    requires KeyUsable(c.key)
    ensures c.Decrypt(Hex.Encode(iv) + ":" + Hex.Encode(c.aes.seal(c.key, iv, text)) + "\U{1F600}") == Ok(text)
  {
    var bytes := c.aes.seal(c.key, iv, text);
    var ivHex, ctHex := Hex.Encode(iv), Hex.Encode(bytes) + "\U{1F600}";
    Hex.EncodeHasNoColon(iv);
    AstralTailPiece(bytes);
    assert ivHex + ":" + Hex.Encode(bytes) + "\U{1F600}" == ivHex + ":" + ctHex;
    EnvelopePieces(ivHex, ctHex);
    Hex.DecodeEncode(iv);
  }

  /** The ciphertext piece with the character U+1F600 after it. */
  lemma AstralTailPiece(bytes: seq<Hex.byte>)
    ensures ':' !in Hex.Encode(bytes) + "\U{1F600}"
    ensures Utf16Length(Hex.Encode(bytes) + "\U{1F600}") % 2 == 0
    ensures Hex.Decode(Hex.Encode(bytes) + "\U{1F600}") == bytes
  {
    var ct := Hex.Encode(bytes);
    Hex.EncodeHasNoColon(bytes);
    Utf16LengthAppend(ct, "\U{1F600}");
    assert Utf16Length(ct) == |ct|;
    Hex.DecodeEncodeThen(bytes, "\U{1F600}");
  }

  /** The part of an envelope before the first ':' is the IV as 32 lower-case hex digits. */
  lemma EnvelopeIvPart(c: CryptoService, iv: seq<Hex.byte>, text: string)
    requires |iv| == IvLength
    requires c.Encrypt(iv, text).Ok?
    ensures var head := Split(c.Encrypt(iv, text).value, ':')[0];
      |head| == 2 * IvLength && forall k :: 0 <= k < |head| ==> Hex.IsLowerHexChar(head[k])
  {
  }

  /** `CryptoService.generateKey()` with its 32 random bytes as a parameter: 64 lower-case hex
      digits that read back as those bytes. */
  function GenerateKey(random: seq<Hex.byte>): (r: string)
    requires |random| == 32
    ensures |r| == 64
    ensures forall k :: 0 <= k < |r| ==> Hex.IsLowerHexChar(r[k])
    ensures Hex.Decode(r) == random
  {
    Hex.DecodeEncode(random);
    Hex.Encode(random)
  }
}
