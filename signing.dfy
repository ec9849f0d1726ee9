/** The request signature of the private endpoints (`Api._sign`): an
    HMAC-SHA512 (RFC 2104) keyed with the base64-decoded secret over the URL
    path followed by the SHA-256 digest of the nonce text and the
    form-encoded body, returned base64-encoded (section 4 of RFC 4648).
    The hash functions, HMAC, base64 and form encoding are parameters: the
    model fixes only which inputs reach which step, in which order. */
module Signing {
  import opened Wrappers
  import opened PyValues

  newtype byte = b: int | 0 <= b < 0x100

  /** The library routines the signature is composed from. */
  datatype Primitives = Primitives(
    urlencode: map<string, Value> -> string,          // urllib.parse.urlencode
    utf8: string -> seq<byte>,                        // str.encode()
    sha256: seq<byte> -> seq<byte>,                   // hashlib.sha256(...).digest()
    hmacSha512: (seq<byte>, seq<byte>) -> seq<byte>,  // hmac.new(key, msg, sha512).digest()
    b64encode: seq<byte> -> string,                   // base64.b64encode(...).decode()
    b64decode: string -> Option<seq<byte>>)           // base64.b64decode of ASCII text; None: binascii.Error

  /** The HMAC message: the path's bytes, then the SHA-256 digest of the
      nonce text followed by the encoded body. */
  function Message(p: Primitives, urlpath: string, nonceText: string, postdata: string): seq<byte> {
    p.utf8(urlpath) + p.sha256(p.utf8(nonceText + postdata))
  }

  /** The `API-Sign` header for a decoded secret. */
  function Signature(p: Primitives, key: seq<byte>, urlpath: string, nonceText: string, postdata: string): string {
    p.b64encode(p.hmacSha512(key, Message(p, urlpath, nonceText, postdata)))
  }

  predicate IsAscii(s: string) {
    forall i :: 0 <= i < |s| ==> s[i] as int < 0x80
  }

  /** `base64.b64decode(secret)` on a text: a text with a non-ASCII
      character is refused with ValueError before any decoding; an ASCII
      text that is not valid base64 raises binascii.Error. */
  function DecodeSecret(p: Primitives, secret: string): (r: Result<seq<byte>, Error>)
    ensures r.Success? <==> IsAscii(secret) && p.b64decode(secret).Some?
    ensures !IsAscii(secret) ==> r == Failure(ValueError)
    ensures IsAscii(secret) && p.b64decode(secret).None? ==> r == Failure(BinasciiError)
    ensures r.Success? ==> Some(r.value) == p.b64decode(secret)
  {
    if !IsAscii(secret) then Failure(ValueError)
    else
      match p.b64decode(secret)
      case None => Failure(BinasciiError)
      case Some(key) => Success(key)
  }

  /** `Api._sign(data, urlpath)` with `self.secret == secret`. */
  function Sign(p: Primitives, secret: string, data: map<string, Value>, urlpath: string): (r: Result<string, Error>)
    ensures r.Success? <==> "nonce" in data && IsAscii(secret) && p.b64decode(secret).Some?
    ensures "nonce" !in data ==> r == Failure(KeyError("nonce"))
    ensures "nonce" in data && !IsAscii(secret) ==> r == Failure(ValueError)
    ensures "nonce" in data && IsAscii(secret) && p.b64decode(secret).None? ==> r == Failure(BinasciiError)
    ensures r.Success? ==>
      r.value == Signature(p, p.b64decode(secret).value, urlpath, ValueStr(data["nonce"]), p.urlencode(data))
  {
    var postdata := p.urlencode(data);
    if "nonce" !in data then Failure(KeyError("nonce"))
    else
      match DecodeSecret(p, secret)
      case Failure(e) => Failure(e)
      case Success(key) => Success(Signature(p, key, urlpath, ValueStr(data["nonce"]), postdata))
  }

  /** What the signature lemmas assume of the primitives. Each part holds
      of the real routines: UTF-8 and base64 encoding are injective, and the
      digests have fixed lengths (32 bytes for SHA-256, 64 for HMAC-SHA512).
      Neither digest can be injective, so their collisions are named in the
      conclusions instead of being assumed away. */
  ghost predicate WellBehaved(p: Primitives) {
    && (forall a, b :: p.utf8(a) == p.utf8(b) ==> a == b)
    && (forall m :: |p.sha256(m)| == 32)
    && (forall k, m :: |p.hmacSha512(k, m)| == 64)
    && (forall a, b :: p.b64encode(a) == p.b64encode(b) ==> a == b)
  }

  /** Two different byte strings with the same SHA-256 digest. */
  predicate Sha256Collision(p: Primitives, a: seq<byte>, b: seq<byte>) {
    a != b && p.sha256(a) == p.sha256(b)
  }

  /** Two different messages with the same HMAC-SHA512 under one key. */
  predicate HmacCollision(p: Primitives, key: seq<byte>, a: seq<byte>, b: seq<byte>) {
    a != b && p.hmacSha512(key, a) == p.hmacSha512(key, b)
  }

  /** The text whose digest `_sign` takes: the nonce text, then the encoded body. */
  function SignedText(p: Primitives, data: map<string, Value>): string
    requires "nonce" in data
  {
    ValueStr(data["nonce"]) + p.urlencode(data)
  }

  lemma SuffixCancel<T>(a: seq<T>, b: seq<T>, c: seq<T>, d: seq<T>)
    requires a + c == b + d && |c| == |d|
    ensures a == b && c == d
  {
    assert a == (a + c)[..|a|];
    assert b == (b + d)[..|b|];
    assert c == (a + c)[|a|..];
    assert d == (b + d)[|b|..];
  }

  lemma PrefixCancel<T>(t: seq<T>, a: seq<T>, b: seq<T>)
    ensures t + a == t + b ==> a == b
  {
    if t + a == t + b {
      assert a == (t + a)[|t|..];
    }
  }

  /** The HMAC message `_sign` builds for `data` and `urlpath`. */
  function SignedMessage(p: Primitives, data: map<string, Value>, urlpath: string): seq<byte>
    requires "nonce" in data
  {
    Message(p, urlpath, ValueStr(data["nonce"]), p.urlencode(data))
  }

  /** Equal signatures come from an HMAC collision on the two messages, or
      from equal paths together with equal signed texts or a SHA-256
      collision on the two texts' bytes. */
  lemma SignatureBinds(p: Primitives, key: seq<byte>, path1: string, text1: string, body1: string,
                       path2: string, text2: string, body2: string)
    requires WellBehaved(p)
    requires Signature(p, key, path1, text1, body1) == Signature(p, key, path2, text2, body2)
    ensures || HmacCollision(p, key, Message(p, path1, text1, body1), Message(p, path2, text2, body2))
            || (&& path1 == path2
                && (text1 + body1 == text2 + body2 || Sha256Collision(p, p.utf8(text1 + body1), p.utf8(text2 + body2))))
  {
    var m1, m2 := p.utf8(text1 + body1), p.utf8(text2 + body2);
    if Message(p, path1, text1, body1) == Message(p, path2, text2, body2) {
      SuffixCancel(p.utf8(path1), p.utf8(path2), p.sha256(m1), p.sha256(m2));
    }
  }

  /** Two requests to the same path whose signed texts differ carry
      different signatures, unless HMAC collides on their messages or
      SHA-256 collides on their texts. */
  lemma SignSeparatesTexts(p: Primitives, secret: string, data1: map<string, Value>,
                           data2: map<string, Value>, urlpath: string)
    requires WellBehaved(p)
    requires Sign(p, secret, data1, urlpath).Success? && Sign(p, secret, data2, urlpath).Success?
    requires SignedText(p, data1) != SignedText(p, data2)
    ensures || Sign(p, secret, data1, urlpath) != Sign(p, secret, data2, urlpath)
            || HmacCollision(p, p.b64decode(secret).value, SignedMessage(p, data1, urlpath), SignedMessage(p, data2, urlpath))
            || Sha256Collision(p, p.utf8(SignedText(p, data1)), p.utf8(SignedText(p, data2)))
  {
    if Sign(p, secret, data1, urlpath) == Sign(p, secret, data2, urlpath) {
      SignatureBinds(p, p.b64decode(secret).value, urlpath, ValueStr(data1["nonce"]), p.urlencode(data1),
                     urlpath, ValueStr(data2["nonce"]), p.urlencode(data2));
    }
  }

  /** Two requests with the same nonce whose bodies encode differently
      carry different signatures, unless HMAC or SHA-256 collides. */
  lemma SignSeparatesBodies(p: Primitives, secret: string, data1: map<string, Value>,
                            data2: map<string, Value>, urlpath: string)
    requires WellBehaved(p)
    requires Sign(p, secret, data1, urlpath).Success? && Sign(p, secret, data2, urlpath).Success?
    requires data1["nonce"] == data2["nonce"]
    requires p.urlencode(data1) != p.urlencode(data2)
    ensures || Sign(p, secret, data1, urlpath) != Sign(p, secret, data2, urlpath)
            || HmacCollision(p, p.b64decode(secret).value, SignedMessage(p, data1, urlpath), SignedMessage(p, data2, urlpath))
            || Sha256Collision(p, p.utf8(SignedText(p, data1)), p.utf8(SignedText(p, data2)))
  {
    PrefixCancel(ValueStr(data1["nonce"]), p.urlencode(data1), p.urlencode(data2));
    SignSeparatesTexts(p, secret, data1, data2, urlpath);
  }

  /** Signatures for different URL paths differ, whatever the body, unless
      HMAC collides on the two messages. */
  lemma SignSeparatesPaths(p: Primitives, secret: string, data: map<string, Value>, path1: string, path2: string)
    requires WellBehaved(p)
    requires Sign(p, secret, data, path1).Success?
    requires path1 != path2
    ensures || Sign(p, secret, data, path1) != Sign(p, secret, data, path2)
            || HmacCollision(p, p.b64decode(secret).value, SignedMessage(p, data, path1), SignedMessage(p, data, path2))
  {
    var t := ValueStr(data["nonce"]);
    if Sign(p, secret, data, path1) == Sign(p, secret, data, path2) {
      SignatureBinds(p, p.b64decode(secret).value, path1, t, p.urlencode(data), path2, t, p.urlencode(data));
    }
  }

  /* A sample of primitives meeting `WellBehaved`, so that the lemmas above
     do not rest on an impossible hypothesis. */

  /** Byte `j` (most significant first) of a code point's three-byte form. */
  function CodePointByte(c: char, j: nat): byte
    requires j < 3
  {
    var n := c as int;
    (if j == 0 then n / 65536 % 256 else if j == 1 then n / 256 % 256 else n % 256) as byte
  }

  /** A fixed-width encoding of text: three bytes per code point. */
  function ThreeByteEncode(s: string): seq<byte> {
    seq(3 * |s|, i requires 0 <= i < 3 * |s| => CodePointByte(s[i / 3], i % 3))
  }

  function ZeroDigest(m: seq<byte>): seq<byte> {
    seq(32, i => 0)
  }

  function ZeroMac(key: seq<byte>, m: seq<byte>): seq<byte> {
    seq(64, i => 0)
  }

  /** One character per byte. */
  function ByteChars(b: seq<byte>): string {
    seq(|b|, i requires 0 <= i < |b| => b[i] as int as char)
  }

  function SamplePrimitives(): Primitives {
    Primitives(d => "", ThreeByteEncode, ZeroDigest, ZeroMac, ByteChars, s => None)
  }

  /** A number is fixed by its quotient and remainder by 256. */
  lemma DivMod256(x: int, y: int)
    requires 0 <= x && 0 <= y && x / 256 == y / 256 && x % 256 == y % 256
    ensures x == y
  {
  }

  lemma CodePointBytesDetermine(c: char, d: char)
    requires forall j :: 0 <= j < 3 ==> CodePointByte(c, j) == CodePointByte(d, j)
    ensures c == d
  {
    var m, n := c as int, d as int;
    assert CodePointByte(c, 0) == CodePointByte(d, 0) && CodePointByte(c, 1) == CodePointByte(d, 1);
    assert CodePointByte(c, 2) == CodePointByte(d, 2);
    assert m / 256 / 256 == m / 65536 && n / 256 / 256 == n / 65536;
    DivMod256(m / 256, n / 256);
    DivMod256(m, n);
  }

  lemma ThreeByteEncodeInjective(a: string, b: string)
    requires ThreeByteEncode(a) == ThreeByteEncode(b)
    ensures a == b
  {
    assert |a| == |b|;
    forall i | 0 <= i < |a|
      ensures a[i] == b[i]
    {
      forall j | 0 <= j < 3
        ensures CodePointByte(a[i], j) == CodePointByte(b[i], j)
      {
        assert ThreeByteEncode(a)[3 * i + j] == ThreeByteEncode(b)[3 * i + j];
      }
      CodePointBytesDetermine(a[i], b[i]);
    }
  }

  lemma ByteCharsInjective(a: seq<byte>, b: seq<byte>)
    requires ByteChars(a) == ByteChars(b)
    ensures a == b
  {
    assert |a| == |b|;
    forall i | 0 <= i < |a|
      ensures a[i] == b[i]
    {
      assert ByteChars(a)[i] == ByteChars(b)[i];
    }
  }

  /** The hypothesis of the signature lemmas can be met. */
  lemma SamplePrimitivesWellBehaved()
    ensures WellBehaved(SamplePrimitives())
  {
    var p := SamplePrimitives();
    forall a, b | p.utf8(a) == p.utf8(b)
      ensures a == b
    {
      ThreeByteEncodeInjective(a, b);
    }
    forall a, b | p.b64encode(a) == p.b64encode(b)
      ensures a == b
    {
      ByteCharsInjective(a, b);
    }
  }
}
