/** Stripped base64url (section 5 of RFC 4648) and the signed session tokens built on it. */
module SessionToken {
  import opened Basics
  import opened Chunking

  type Sextet = v: int | 0 <= v < 64

  /* ----- base64url ----- */

  function Letter(v: Sextet): char {
    if v < 26 then ('A' as int + v) as char
    else if v < 52 then ('a' as int + (v - 26)) as char
    else if v < 62 then ('0' as int + (v - 52)) as char
    else if v == 62 then '-' else '_'
  }

  function ValueOf(c: char): Option<Sextet> {
    if 'A' <= c <= 'Z' then Some(c as int - 'A' as int)
    else if 'a' <= c <= 'z' then Some(c as int - 'a' as int + 26)
    else if '0' <= c <= '9' then Some(c as int - '0' as int + 52)
    else if c == '-' then Some(62)
    else if c == '_' then Some(63)
    else None
  }

  predicate PlainLetter(c: char) {
    c != '=' && c != '.' && c as int < 128
  }

  /** The URL-safe alphabet (table 2 of RFC 4648), and its letters in their places. */
  lemma TheAlphabet()
    ensures Letter(0) == 'A' && Letter(25) == 'Z' && Letter(26) == 'a' && Letter(51) == 'z'
    ensures Letter(52) == '0' && Letter(61) == '9' && Letter(62) == '-' && Letter(63) == '_'
    ensures forall v: Sextet :: v < 61 && v != 25 && v != 51 ==> Letter(v + 1) as int == Letter(v) as int + 1
  {
  }

  /** The first test vectors of section 10 of RFC 4648, without their padding: f, fo, foo. */
  lemma TestVectors()
    ensures Letters([102]) == "Zg" && Letters([102, 111]) == "Zm8" && Quad(102, 111, 111) == "Zm9v"
  {
    assert Letter(25) == 'Z' && Letter(32) == 'g' && Letter(38) == 'm' && Letter(60) == '8' && Letter(61) == '9';
    assert Letter(47) == 'v';
  }

  lemma LettersDecode(v: Sextet)
    ensures ValueOf(Letter(v)) == Some(v) && PlainLetter(Letter(v))
  {
  }

  /** Four letters for three bytes. */
  function Quad(x: Byte, y: Byte, z: Byte): string {
    [Letter(x / 4), Letter(x % 4 * 16 + y / 16), Letter(y % 16 * 4 + z / 64), Letter(z % 64)]
  }

  /** The letters of the encoding, three bytes to four letters, without padding. */
  function Letters(raw: Bytes): string {
    if |raw| == 0 then ""
    else if |raw| == 1 then [Letter(raw[0] / 4), Letter(raw[0] % 4 * 16)]
    else if |raw| == 2 then [Letter(raw[0] / 4), Letter(raw[0] % 4 * 16 + raw[1] / 16), Letter(raw[1] % 16 * 4)]
    else Quad(raw[0], raw[1], raw[2]) + Letters(raw[3..])
  }

  function Equals(n: nat): string {
    seq(n, _ => '=')
  }

  /** The padded encoding. */
  function Encode(raw: Bytes): string {
    Letters(raw) + Equals((3 - |raw| % 3) % 3)
  }

  /** Without the trailing equals signs. */
  function Strip(s: string): string {
    if s != "" && s[|s| - 1] == '=' then Strip(s[..|s| - 1]) else s
  }

  function Pad(s: string): string {
    s + Equals((-|s|) % 4)
  }

  function Decode(s: string): Option<Bytes> {
    if s == "" then Some([])
    else if |s| < 4 then None
    else
      var a, b, c, d := ValueOf(s[0]), ValueOf(s[1]), ValueOf(s[2]), ValueOf(s[3]);
      if a.None? || b.None? then None
      else if |s| == 4 && s[2] == '=' && s[3] == '=' then Some([a.value * 4 + b.value / 16])
      else if c.None? then None
      else if |s| == 4 && s[3] == '=' then
        Some([a.value * 4 + b.value / 16, b.value % 16 * 16 + c.value / 4])
      else if d.None? then None
      else
        var rest := Decode(s[4..]);
        if rest.None? then None
        else Some([a.value * 4 + b.value / 16, b.value % 16 * 16 + c.value / 4, c.value % 4 * 64 + d.value] + rest.value)
  }

  function B64u(raw: Bytes): string {
    Strip(Encode(raw))
  }

  function B64uDecode(text: string): Option<Bytes> {
    Decode(Pad(text))
  }

  lemma {:induction false} LettersShape(raw: Bytes)
    ensures forall k :: 0 <= k < |Letters(raw)| ==> PlainLetter(Letters(raw)[k])
    ensures |Letters(raw)| == |raw| / 3 * 4 + (if |raw| % 3 == 0 then 0 else |raw| % 3 + 1)
    decreases |raw|
  {
    if |raw| == 1 {
      LettersDecode(raw[0] / 4);
      LettersDecode(raw[0] % 4 * 16);
    } else if |raw| == 2 {
      LettersDecode(raw[0] / 4);
      LettersDecode(raw[0] % 4 * 16 + raw[1] / 16);
      LettersDecode(raw[1] % 16 * 4);
    } else if |raw| >= 3 {
      LettersDecode(raw[0] / 4);
      LettersDecode(raw[0] % 4 * 16 + raw[1] / 16);
      LettersDecode(raw[1] % 16 * 4 + raw[2] / 64);
      LettersDecode(raw[2] % 64);
      LettersShape(raw[3..]);
    }
  }

  lemma {:induction false} StripEquals(s: string, n: nat)
    requires s == "" || s[|s| - 1] != '='
    ensures Strip(s + Equals(n)) == s
  {
    if n == 0 {
      assert s + Equals(0) == s;
    } else {
      var t := s + Equals(n);
      assert t[|t| - 1] == '=' && t[..|t| - 1] == s + Equals(n - 1);
      StripEquals(s, n - 1);
    }
  }

  lemma StrippedIsLetters(raw: Bytes)
    ensures B64u(raw) == Letters(raw) && Pad(Letters(raw)) == Encode(raw)
  {
    LettersShape(raw);
    StripEquals(Letters(raw), (3 - |raw| % 3) % 3);
    PadMatches(|raw|);
  }

  lemma PadMatches(n: nat)
    ensures var letters := n / 3 * 4 + (if n % 3 == 0 then 0 else n % 3 + 1);
            (-letters) % 4 == (3 - n % 3) % 3
  {
  }

  /** The bits of three bytes, cut into sextets and put together again. */
  lemma GroupArithmetic(x: Byte, y: Byte, z: Byte)
    ensures x / 4 * 4 + (x % 4 * 16 + y / 16) / 16 == x
    ensures (x % 4 * 16 + y / 16) % 16 * 16 + (y % 16 * 4 + z / 64) / 4 == y
    ensures (y % 16 * 4 + z / 64) % 4 * 64 + z % 64 == z
  {
  }

  lemma DecodeOne(x: Byte)
    ensures Decode([Letter(x / 4), Letter(x % 4 * 16), '=', '=']) == Some([x])
  {
    LettersDecode(x / 4);
    LettersDecode(x % 4 * 16);
    GroupArithmetic(x, 0, 0);
  }

  lemma DecodeTwo(x: Byte, y: Byte)
    ensures Decode([Letter(x / 4), Letter(x % 4 * 16 + y / 16), Letter(y % 16 * 4), '=']) == Some([x, y])
  {
    LettersDecode(x / 4);
    LettersDecode(x % 4 * 16 + y / 16);
    LettersDecode(y % 16 * 4);
    GroupArithmetic(x, y, 0);
  }

  lemma DecodeThree(x: Byte, y: Byte, z: Byte, tail: string, rest: Bytes)
    requires Decode(tail) == Some(rest)
    ensures Decode(Quad(x, y, z) + tail) == Some([x, y, z] + rest)
  {
    var a, b, c, d: Sextet := x / 4, x % 4 * 16 + y / 16, y % 16 * 4 + z / 64, z % 64;
    GroupArithmetic(x, y, z);
    QuadDecodes(a, b, c, d, tail, rest);
  }

  lemma QuadDecodes(a: Sextet, b: Sextet, c: Sextet, d: Sextet, tail: string, rest: Bytes)
    requires Decode(tail) == Some(rest)
    ensures Decode([Letter(a), Letter(b), Letter(c), Letter(d)] + tail)
            == Some([a * 4 + b / 16, b % 16 * 16 + c / 4, c % 4 * 64 + d] + rest)
  {
    LettersDecode(a);
    LettersDecode(b);
    LettersDecode(c);
    LettersDecode(d);
    var s := [Letter(a), Letter(b), Letter(c), Letter(d)] + tail;
    assert s[4..] == tail;
  }

  lemma EncodeTwo(raw: Bytes)
    requires |raw| == 2
    ensures Encode(raw) == [Letter(raw[0] / 4), Letter(raw[0] % 4 * 16 + raw[1] / 16), Letter(raw[1] % 16 * 4), '=']
  {
  }

  lemma EncodeThree(raw: Bytes)
    requires |raw| >= 3
    ensures Encode(raw) == Quad(raw[0], raw[1], raw[2]) + Encode(raw[3..])
  {
  }

  lemma FirstThree(raw: Bytes)
    requires |raw| >= 3
    ensures [raw[0], raw[1], raw[2]] + raw[3..] == raw
  {
  }

  lemma {:induction false} DecodeEncode(raw: Bytes)
    ensures Decode(Encode(raw)) == Some(raw)
    decreases |raw|
  {
    if |raw| == 0 {
      assert Encode(raw) == "";
    } else if |raw| == 1 {
      DecodeOne(raw[0]);
      assert [raw[0]] == raw;
    } else if |raw| == 2 {
      EncodeTwo(raw);
      DecodeTwo(raw[0], raw[1]);
      assert [raw[0], raw[1]] == raw;
    } else {
      EncodeThree(raw);
      DecodeEncode(raw[3..]);
      DecodeThree(raw[0], raw[1], raw[2], Encode(raw[3..]), raw[3..]);
      FirstThree(raw);
    }
  }

  /** Stripped base64url decodes back, for every byte string. */
  lemma RoundTrip(raw: Bytes)
    ensures B64uDecode(B64u(raw)) == Some(raw)
  {
    StrippedIsLetters(raw);
    DecodeEncode(raw);
  }

  lemma EncodingIsInjective(a: Bytes, b: Bytes)
    requires B64u(a) == B64u(b)
    ensures a == b
  {
    RoundTrip(a);
    RoundTrip(b);
  }

  /* ----- tokens ----- */

  datatype Value = Num(n: int) | Text(s: string)

  type Claims = map<string, Value>

  /** JSON text of claims and back, the number a text spells, and the keyed digest of a
      text: all abstract. */
  datatype Codec = Codec(dump: Claims -> Bytes, load: Bytes -> Option<Claims>, number: string -> Option<int>,
                         mac: (Bytes, string) -> Bytes)

  ghost predicate Faithful(c: Codec) {
    forall claims :: c.load(c.dump(claims)) == Some(claims)
  }

  /** No two texts share a digest under the secret. */
  ghost predicate Collisionless(c: Codec, secret: Bytes) {
    forall a, b :: c.mac(secret, a) == c.mac(secret, b) ==> a == b
  }

  function Signature(c: Codec, secret: Bytes, body: string): string {
    B64u(c.mac(secret, body))
  }

  function Issue(c: Codec, claims: Claims, secret: Bytes, ttl: int, now: int): string {
    var body := B64u(c.dump(claims["exp" := Num(now + ttl)]));
    body + "." + Signature(c, secret, body)
  }

  /** Position of the first dot, or the length. */
  function Dot(token: string): (i: nat)
    ensures i <= |token|
    ensures i < |token| ==> token[i] == '.'
    ensures forall k :: 0 <= k < i ==> token[k] != '.'
  {
    if token == "" || token[0] == '.' then 0 else Dot(token[1..]) + 1
  }

  predicate Ascii(s: string) {
    forall k :: 0 <= k < |s| ==> s[k] as int < 128
  }

  /** What the verifier does with a token: None, the claims, or an exception. */
  datatype Verdict = Rejected | Accepted(claims: Claims) | Raises

  /** A missing expiry counts as time zero. */
  function Check(c: Codec, claims: Claims, now: int): Verdict {
    var exp := if "exp" in claims then claims["exp"] else Num(0);
    var at := match exp case Num(n) => Some(n) case Text(s) => c.number(s);
    if at.None? then Raises else if at.value < now then Rejected else Accepted(claims)
  }

  /** The claims in a body whose signature matched. */
  function Open(c: Codec, body: string, now: int): Verdict {
    var raw := B64uDecode(body);
    if raw.None? then Rejected
    else
      var claims := c.load(raw.value);
      if claims.None? then Rejected else Check(c, claims.value, now)
  }

  function Verify(c: Codec, token: string, secret: Bytes, now: int): Verdict {
    var i := Dot(token);
    if i == |token| then Rejected
    else if !Ascii(token) then Raises
    else if !Signed(c, token, secret) then Rejected
    else Open(c, token[..i], now)
  }

  predicate Signed(c: Codec, token: string, secret: Bytes)
    requires Dot(token) < |token|
  {
    token[Dot(token) + 1..] == Signature(c, secret, token[..Dot(token)])
  }

  lemma IssuedParts(c: Codec, claims: Claims, secret: Bytes, ttl: int, now: int)
    ensures var token := Issue(c, claims, secret, ttl, now);
            var body := B64u(c.dump(claims["exp" := Num(now + ttl)]));
            && Dot(token) == |body| < |token| && Ascii(token)
            && token[..|body|] == body && token[|body| + 1..] == Signature(c, secret, body)
  {
    var raw := c.dump(claims["exp" := Num(now + ttl)]);
    var body := B64u(raw);
    StrippedIsLetters(raw);
    LettersShape(raw);
    StrippedIsLetters(c.mac(secret, body));
    LettersShape(c.mac(secret, body));
    Concatenated(body, Signature(c, secret, body));
  }

  lemma Concatenated(body: string, sig: string)
    requires forall k :: 0 <= k < |body| ==> PlainLetter(body[k])
    requires forall k :: 0 <= k < |sig| ==> PlainLetter(sig[k])
    ensures var token := body + "." + sig;
            && Dot(token) == |body| < |token| && Ascii(token)
            && token[..|body|] == body && token[|body| + 1..] == sig
  {
    var token := body + "." + sig;
    assert token[|body|] == '.';
    assert forall k :: 0 <= k < |body| ==> token[k] == body[k];
    assert forall k :: |body| < k < |token| ==> token[k] == sig[k - |body| - 1];
  }

  /** An issued token verifies, to its claims with the expiry, exactly until it expires. */
  lemma IssuedTokenVerifies(c: Codec, claims: Claims, secret: Bytes, ttl: int, now: int, later: int)
    requires Faithful(c)
    ensures Verify(c, Issue(c, claims, secret, ttl, now), secret, later)
            == if later <= now + ttl then Accepted(claims["exp" := Num(now + ttl)]) else Rejected
  {
    var data := claims["exp" := Num(now + ttl)];
    var token := Issue(c, claims, secret, ttl, now);
    IssuedParts(c, claims, secret, ttl, now);
    RoundTrip(c.dump(data));
    assert Open(c, token[..Dot(token)], later) == Check(c, data, later);
  }

  /** When a claim set counts as expired: by its number, or the number its text spells; without one
      it expired at time zero, and a text that spells none raises. */
  lemma ExpiryDecides(c: Codec, claims: Claims, now: int)
    ensures "exp" !in claims ==> Check(c, claims, now) == if now <= 0 then Accepted(claims) else Rejected
    ensures "exp" in claims && claims["exp"].Num? ==>
              Check(c, claims, now) == if now <= claims["exp"].n then Accepted(claims) else Rejected
    ensures "exp" in claims && claims["exp"].Text? ==>
              var at := c.number(claims["exp"].s);
              Check(c, claims, now)
              == if at.None? then Raises else if now <= at.value then Accepted(claims) else Rejected
  {
  }

  /** Only what is signed under the secret is accepted, and as the claims its body holds. */
  lemma OnlySignedIsAccepted(c: Codec, token: string, secret: Bytes, now: int)
    requires Verify(c, token, secret, now).Accepted?
    ensures exists body: string :: SignedAs(c, token, secret, body, Verify(c, token, secret, now).claims)
  {
    SplitAtDot(token);
    assert SignedAs(c, token, secret, token[..Dot(token)], Verify(c, token, secret, now).claims);
  }

  predicate SignedAs(c: Codec, token: string, secret: Bytes, body: string, claims: Claims) {
    token == body + "." + B64u(c.mac(secret, body)) && B64uDecode(body).Some?
    && c.load(B64uDecode(body).value) == Some(claims)
  }

  lemma SameSignatureSameBody(c: Codec, secret: Bytes, a: string, b: string)
    requires Collisionless(c, secret) && Signature(c, secret, a) == Signature(c, secret, b)
    ensures a == b
  {
    EncodingIsInjective(c.mac(secret, a), c.mac(secret, b));
  }

  lemma CutAround(text: string, k: nat)
    requires k < |text|
    ensures text == text[..k] + [text[k]] + text[k + 1..]
  {
  }

  lemma SplitAtDot(token: string)
    requires Dot(token) < |token|
    ensures token == token[..Dot(token)] + "." + token[Dot(token) + 1..]
  {
    CutAround(token, Dot(token));
  }

  /** A token accepted under an issued token's signature is that token: no claim can be
      edited in without a new signature. */
  lemma SignatureBindsClaims(c: Codec, claims: Claims, secret: Bytes, ttl: int, now: int, edited: string, later: int)
    requires Collisionless(c, secret) && Verify(c, edited, secret, later).Accepted?
    requires Signature(c, secret, edited[..Dot(edited)])
             == Signature(c, secret, B64u(c.dump(claims["exp" := Num(now + ttl)])))
    ensures edited == Issue(c, claims, secret, ttl, now)
  {
    SplitAtDot(edited);
    SameSignatureSameBody(c, secret, edited[..Dot(edited)], B64u(c.dump(claims["exp" := Num(now + ttl)])));
  }
}
