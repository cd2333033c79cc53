/**
App tokens: a slug and an expiry time in a length-prefixed frame, signed, in base64url without
padding (section 5 of RFC 4648). The signature is any function from bytes to 32 bytes.
*/
module AppToken {
  import opened Integers
  import opened Wrappers

  // ---------- base64url

  type Sextet = x: int | 0 <= x < 64

  function Letter(x: Sextet): char {
    if x < 26 then ('A' as int + x) as char
    else if x < 52 then ('a' as int + x - 26) as char
    else if x < 62 then ('0' as int + x - 52) as char
    else if x == 62 then '-'
    else '_'
  }

  function SextetOf(c: char): Option<Sextet> {
    if 'A' <= c <= 'Z' then Some(c as int - 'A' as int)
    else if 'a' <= c <= 'z' then Some(c as int - 'a' as int + 26)
    else if '0' <= c <= '9' then Some(c as int - '0' as int + 52)
    else if c == '-' then Some(62)
    else if c == '_' then Some(63)
    else None
  }

  // Three bytes are four sextets.

  function Sextet1(a: Byte): Sextet { a / 4 }

  function Sextet2(a: Byte, b: Byte): Sextet { a % 4 * 16 + b / 16 }

  function Sextet3(b: Byte, c: Byte): Sextet { b % 16 * 4 + c / 64 }

  function Sextet4(c: Byte): Sextet { c % 64 }

  function Byte1(w: Sextet, x: Sextet): Byte { w as int * 4 + x / 16 }

  function Byte2(x: Sextet, y: Sextet): Byte { x as int % 16 * 16 + y / 4 }

  function Byte3(y: Sextet, z: Sextet): Byte { y as int % 4 * 64 + z }

  lemma GroupReads(a: Byte, b: Byte, c: Byte)
    ensures Byte1(Sextet1(a), Sextet2(a, b)) == a
    ensures Byte2(Sextet2(a, b), Sextet3(b, c)) == b
    ensures Byte3(Sextet3(b, c), Sextet4(c)) == c
  {
  }

  function Sextets(bs: seq<Byte>): seq<Sextet> {
    if |bs| == 0 then []
    else if |bs| == 1 then [Sextet1(bs[0]), Sextet2(bs[0], 0)]
    else if |bs| == 2 then [Sextet1(bs[0]), Sextet2(bs[0], bs[1]), Sextet3(bs[1], 0)]
    else [Sextet1(bs[0]), Sextet2(bs[0], bs[1]), Sextet3(bs[1], bs[2]), Sextet4(bs[2])] + Sextets(bs[3..])
  }

  /** The whole bytes of a run of sextets; bits that are left over are dropped. */
  function Octets(xs: seq<Sextet>): seq<Byte> {
    if |xs| < 2 then []
    else if |xs| == 2 then [Byte1(xs[0], xs[1])]
    else if |xs| == 3 then [Byte1(xs[0], xs[1]), Byte2(xs[1], xs[2])]
    else [Byte1(xs[0], xs[1]), Byte2(xs[1], xs[2]), Byte3(xs[2], xs[3])] + Octets(xs[4..])
  }

  function Letters(xs: seq<Sextet>): string {
    if xs == [] then "" else [Letter(xs[0])] + Letters(xs[1..])
  }

  /** The sextets of a text; line ends are skipped, anything else outside the alphabet is an error. */
  function SextetsOf(s: string): Option<seq<Sextet>> {
    if s == "" then Some([])
    else
      var rest := SextetsOf(s[1..]);
      if s[0] == '\r' || s[0] == '\n' then rest
      else if SextetOf(s[0]).Some? && rest.Some? then Some([SextetOf(s[0]).value] + rest.value)
      else None
  }

  function Encode(bs: seq<Byte>): string {
    Letters(Sextets(bs))
  }

  function Decode(s: string): Option<seq<Byte>> {
    var xs := SextetsOf(s);
    if xs.None? || |xs.value| % 4 == 1 then None else Some(Octets(xs.value))
  }

  lemma LetterReads(x: Sextet)
    ensures SextetOf(Letter(x)) == Some(x) && Letter(x) != '\r' && Letter(x) != '\n'
  {
  }

  lemma {:induction false} LettersRead(xs: seq<Sextet>)
    ensures SextetsOf(Letters(xs)) == Some(xs)
  {
    hide Letter, SextetOf;
    if xs != [] {
      LetterReads(xs[0]);
      LettersRead(xs[1..]);
      assert Letters(xs)[1..] == Letters(xs[1..]);
      assert [xs[0]] + xs[1..] == xs;
    }
  }

  lemma {:induction false} OctetsRead(bs: seq<Byte>)
    ensures Octets(Sextets(bs)) == bs && |Sextets(bs)| % 4 != 1
  {
    hide Sextet1, Sextet2, Sextet3, Sextet4, Byte1, Byte2, Byte3;
    if |bs| == 1 {
      GroupReads(bs[0], 0, 0);
    } else if |bs| == 2 {
      GroupReads(bs[0], bs[1], 0);
    } else if |bs| >= 3 {
      GroupReads(bs[0], bs[1], bs[2]);
      OctetsRead(bs[3..]);
      assert Sextets(bs)[4..] == Sextets(bs[3..]);
      assert bs == [bs[0], bs[1], bs[2]] + bs[3..];
    }
  }

  /** Decoding undoes encoding. */
  lemma DecodeEncode(bs: seq<Byte>)
    ensures Decode(Encode(bs)) == Some(bs)
  {
    hide Letters, SextetsOf, Sextets, Octets;
    LettersRead(Sextets(bs));
    OctetsRead(bs);
  }

  /** The alphabet: "A" to "Z", "a" to "z", "0" to "9", "-" and "_", in this order. */
  lemma AlphabetIs(x: Sextet)
    ensures x < 26 ==> Letter(x) == 'A' + x as char && 'A' <= Letter(x) <= 'Z'
    ensures 26 <= x < 52 ==> Letter(x) == 'a' + (x - 26) as char && 'a' <= Letter(x) <= 'z'
    ensures 52 <= x < 62 ==> Letter(x) == '0' + (x - 52) as char && '0' <= Letter(x) <= '9'
    ensures x == 62 ==> Letter(x) == '-'
    ensures x == 63 ==> Letter(x) == '_'
  {
  }

  lemma GroupWrites(w: Sextet, x: Sextet, y: Sextet, z: Sextet)
    ensures
      var a: Byte, b: Byte, c: Byte := 4 * w as int + x / 16, x % 16 * 16 + y as int / 4, y % 4 * 64 + z as int;
      && Sextet1(a) == w && Sextet2(a, b) == x && Sextet3(b, c) == y && Sextet4(c) == z
      && (y % 4 == 0 ==> Sextet3(b, 0) == y) && (x % 16 == 0 ==> Sextet2(a, 0) == x)
  {
  }

  lemma {:induction false} LettersAppend(xs: seq<Sextet>, ys: seq<Sextet>)
    ensures Letters(xs + ys) == Letters(xs) + Letters(ys)
  {
    if xs == [] {
      assert xs + ys == ys;
    } else {
      assert (xs + ys)[1..] == xs[1..] + ys;
      LettersAppend(xs[1..], ys);
    }
  }

  lemma FourLetters(w: Sextet, x: Sextet, y: Sextet, z: Sextet)
    ensures Letters([w]) == [Letter(w)]
    ensures Letters([w, x]) == [Letter(w), Letter(x)]
    ensures Letters([w, x, y]) == [Letter(w), Letter(x), Letter(y)]
    ensures Letters([w, x, y, z]) == [Letter(w), Letter(x), Letter(y), Letter(z)]
  {
    hide Letter, Letters;
    NoLetters();
    FirstLetter(w, []);
    FirstLetter(x, []);
    FirstLetter(y, []);
    FirstLetter(z, []);
    FirstLetter(w, [x]);
    FirstLetter(x, [y]);
    FirstLetter(y, [z]);
    FirstLetter(w, [x, y]);
    FirstLetter(x, [y, z]);
    FirstLetter(w, [x, y, z]);
    assert [w] == [w] + [] && [x] == [x] + [] && [y] == [y] + [] && [z] == [z] + [];
    assert [w, x] == [w] + [x] && [x, y] == [x] + [y] && [y, z] == [y] + [z];
    assert [w, x, y] == [w] + [x, y] && [x, y, z] == [x] + [y, z] && [w, x, y, z] == [w] + [x, y, z];
  }

  lemma FirstLetter(x: Sextet, xs: seq<Sextet>)
    ensures Letters([x] + xs) == [Letter(x)] + Letters(xs)
  {
    hide Letter;
    assert ([x] + xs)[1..] == xs;
  }

  /** Four groups of six bits, in three bytes, are four letters, whatever follows them. */
  lemma EncodeThree(w: Sextet, x: Sextet, y: Sextet, z: Sextet, rest: seq<Byte>)
    ensures Encode([4 * w as int + x / 16, x % 16 * 16 + y as int / 4, y % 4 * 64 + z as int] + rest)
         == [Letter(w), Letter(x), Letter(y), Letter(z)] + Encode(rest)
  {
    hide Sextet1, Sextet2, Sextet3, Sextet4, Letters, Letter;
    GroupWrites(w, x, y, z);
    var bs: seq<Byte> := [4 * w as int + x / 16, x % 16 * 16 + y as int / 4, y % 4 * 64 + z as int];
    assert (bs + rest)[3..] == rest;
    assert Sextets(bs + rest) == [w, x, y, z] + Sextets(rest);
    LettersAppend([w, x, y, z], Sextets(rest));
    FourLetters(w, x, y, z);
  }

  /** One or two bytes at the end are two or three letters, the bits that are missing zero. */
  lemma EncodeLast(w: Sextet, x: Sextet, y: Sextet)
    ensures Encode([]) == ""
    ensures x % 16 == 0 ==> Encode([4 * w as int + x / 16]) == [Letter(w), Letter(x)]
    ensures y % 4 == 0 ==>
              Encode([4 * w as int + x / 16, x % 16 * 16 + y as int / 4]) == [Letter(w), Letter(x), Letter(y)]
  {
    hide Sextet1, Sextet2, Sextet3, Sextet4, Letters, Letter;
    GroupWrites(w, x, y, 0);
    FourLetters(w, x, y, 0);
    NoLetters();
  }

  lemma NoLetters()
    ensures Letters([]) == ""
  {
  }

  /** Text with a character outside the alphabet that is no line end, is refused. */
  lemma {:induction false} ForeignIsRefused(s: string, i: nat)
    requires i < |s|
    requires !('A' <= s[i] <= 'Z') && !('a' <= s[i] <= 'z') && !('0' <= s[i] <= '9')
    requires s[i] !in "-_\r\n"
    ensures SextetsOf(s).None? && Decode(s).None?
  {
    if i > 0 {
      ForeignIsRefused(s[1..], i - 1);
    }
  }

  lemma {:induction false} WholeGroups(bs: seq<Byte>)
    requires |bs| % 3 == 0
    ensures |Sextets(bs)| % 4 == 0
  {
    if bs != [] {
      WholeGroups(bs[3..]);
    }
  }

  /** A single letter behind whole groups of four is refused. */
  lemma LoneLetterIsRefused(bs: seq<Byte>, x: Sextet)
    requires |bs| % 3 == 0
    ensures Decode(Encode(bs) + [Letter(x)]) == None
  {
    hide Letters, Letter, SextetsOf, Sextets;
    WholeGroups(bs);
    LettersAppend(Sextets(bs), [x]);
    FourLetters(x, 0, 0, 0);
    LettersRead(Sextets(bs) + [x]);
  }

  // ---------- The expiry time

  /** The last `k` base-256 digits of `n`, the most significant first. */
  function BigEndian(n: nat, k: nat): (s: seq<Byte>)
    ensures |s| == k
  {
    if k == 0 then [] else BigEndian(n / 256, k - 1) + [n % 256]
  }

  function FromBigEndian(s: seq<Byte>): nat {
    if s == [] then 0 else FromBigEndian(s[..|s| - 1]) * 256 + s[|s| - 1]
  }

  function Pow256(k: nat): (p: nat)
    ensures p > 0
  {
    if k == 0 then 1 else 256 * Pow256(k - 1)
  }

  lemma Pow8()
    ensures Pow256(8) == 2 * TWO_63
  {
    assert Pow256(4) == 0x1_0000_0000;
  }

  lemma {:induction false} BigEndianReads(n: nat, k: nat)
    requires n < Pow256(k)
    ensures FromBigEndian(BigEndian(n, k)) == n
  {
    if k > 0 {
      BigEndianReads(n / 256, k - 1);
      assert BigEndian(n, k)[..k - 1] == BigEndian(n / 256, k - 1);
    }
  }

  lemma {:induction false} BigEndianWrites(s: seq<Byte>)
    ensures FromBigEndian(s) < Pow256(|s|) && BigEndian(FromBigEndian(s), |s|) == s
  {
    if s != [] {
      BigEndianWrites(s[..|s| - 1]);
      assert s == s[..|s| - 1] + [s[|s| - 1]];
    }
  }

  /** The unsigned integer with the same 64 bits. */
  function Unsigned(x: Int64): nat {
    if x < 0 then x + 2 * TWO_63 else x
  }

  function Signed(n: nat): Int64
    requires n < 2 * TWO_63
  {
    if n >= TWO_63 then n - 2 * TWO_63 else n
  }

  function ExpiryBytes(e: Int64): (s: seq<Byte>)
    ensures |s| == 8
  {
    BigEndian(Unsigned(e), 8)
  }

  function ExpiryOf(s: seq<Byte>): Int64
    requires |s| == 8
  {
    BigEndianWrites(s);
    Pow8();
    Signed(FromBigEndian(s))
  }

  lemma ExpiryReads(e: Int64)
    ensures ExpiryOf(ExpiryBytes(e)) == e
  {
    Pow8();
    BigEndianReads(Unsigned(e), 8);
  }

  lemma ExpiryWrites(s: seq<Byte>)
    requires |s| == 8
    ensures ExpiryBytes(ExpiryOf(s)) == s
  {
    Pow8();
    BigEndianWrites(s);
  }

  lemma NextByte(s: seq<Byte>, k: nat)
    requires k < |s|
    ensures FromBigEndian(s[..k + 1]) == FromBigEndian(s[..k]) * 256 + s[k]
  {
    assert s[..k + 1][..k] == s[..k];
  }

  lemma EightBytes(s: seq<Byte>)
    requires |s| == 8
    ensures FromBigEndian(s)
         == s[0] as int * 0x100_0000_0000_0000 + s[1] as int * 0x1_0000_0000_0000 + s[2] as int * 0x100_0000_0000
            + s[3] as int * 0x1_0000_0000 + s[4] as int * 0x100_0000 + s[5] as int * 0x1_0000 + s[6] as int * 0x100
            + s[7] as int
  {
    hide FromBigEndian;
    NoBytes(s);
    NextByte(s, 0);
    NextByte(s, 1);
    NextByte(s, 2);
    NextByte(s, 3);
    NextByte(s, 4);
    NextByte(s, 5);
    NextByte(s, 6);
    NextByte(s, 7);
    assert s[..8] == s;
  }

  lemma NoBytes(s: seq<Byte>)
    ensures FromBigEndian(s[..0]) == 0
  {
  }

  /** The expiry takes eight bytes, the most significant first, as two's complement. */
  lemma ExpiryBytesAre(e: Int64)
    ensures
      var s := ExpiryBytes(e);
      (if e < 0 then e as int + 0x1_0000_0000_0000_0000 else e as int)
      == s[0] as int * 0x100_0000_0000_0000 + s[1] as int * 0x1_0000_0000_0000 + s[2] as int * 0x100_0000_0000
         + s[3] as int * 0x1_0000_0000 + s[4] as int * 0x100_0000 + s[5] as int * 0x1_0000 + s[6] as int * 0x100
         + s[7] as int
  {
    hide BigEndian, FromBigEndian;
    Pow8();
    BigEndianReads(Unsigned(e), 8);
    EightBytes(ExpiryBytes(e));
  }

  // ---------- Tokens

  const TTL := 300

  type Signature = s: seq<Byte> | |s| == 32 witness seq(32, i => 0)

  type Mac = seq<Byte> -> Signature

  type Slug = s: seq<Byte> | |s| <= 255

  function Cut(slug: seq<Byte>): Slug {
    if |slug| > 255 then slug[..255] else slug
  }

  function Payload(slug: Slug, expiry: Int64): seq<Byte> {
    [|slug|] + slug + ExpiryBytes(expiry)
  }

  /** A frame: length, slug, expiry and signature. */
  function Frame(mac: Mac, slug: Slug, expiry: Int64): seq<Byte> {
    Payload(slug, expiry) + mac(Payload(slug, expiry))
  }

  function LowByte(n: nat): Byte {
    n % 256
  }

  method Issue(mac: Mac, slug: seq<Byte>, now: Int64) returns (token: string)
    requires now + 300 < TWO_63
    ensures token == Encode(Frame(mac, Cut(slug), now + TTL))
    ensures
      var slug := if |slug| <= 255 then slug else slug[..255];
      var payload := [|slug|] + slug + ExpiryBytes(now + 300);
      token == Encode(payload + mac(payload))
  {
    hide Encode, ExpiryBytes;
    var cut := slug;
    if |slug| > 255 {
      cut := slug[..255];
    }
    var expiry: Int64 := now + TTL;
    var payload := [LowByte(|cut|)];
    payload := payload + cut;
    payload := payload + ExpiryBytes(expiry);
    var sig := mac(payload);
    token := Encode(payload + sig);
  }

  function Validate(mac: Mac, token: string, now: int): Option<Slug> {
    var raw := Decode(token);
    if raw.None? || |raw.value| < 41 then None else
    var slugLen: nat := raw.value[0];
    if |raw.value| != 1 + slugLen + 8 + 32 then None else
    var payload, sig := raw.value[..1 + slugLen + 8], raw.value[1 + slugLen + 8..];
    if mac(payload) != sig || now > ExpiryOf(payload[1 + slugLen..]) then None
    else Some(payload[1..1 + slugLen])
  }

  /** The control centre's check for one app. */
  predicate ValidateForSlug(mac: Mac, token: string, slug: seq<Byte>, now: int) {
    Validate(mac, token, now).Some? && Validate(mac, token, now).value == slug
  }

  // ---------- What a token proves

  lemma FrameParts(mac: Mac, slug: Slug, expiry: Int64)
    ensures
      var raw, n := Frame(mac, slug, expiry), 1 + |slug| + 8;
      && |raw| == n + 32 && raw[0] == |slug|
      && raw[..n] == Payload(slug, expiry) && raw[n..] == mac(Payload(slug, expiry))
      && raw[..n][1..1 + |slug|] == slug && raw[..n][1 + |slug|..] == ExpiryBytes(expiry)
  {
    hide ExpiryBytes;
  }

  /** Slug and expiry are determined by the frame. */
  lemma FramesAreInjective(mac: Mac, s: Slug, e: Int64, t: Slug, f: Int64)
    requires Frame(mac, s, e) == Frame(mac, t, f)
    ensures s == t && e == f
  {
    hide ExpiryBytes, ExpiryOf, Payload;
    FrameParts(mac, s, e);
    FrameParts(mac, t, f);
    ExpiryReads(e);
    ExpiryReads(f);
  }

  lemma ValidateFrame(mac: Mac, token: string, slug: Slug, expiry: Int64, now: int)
    requires Decode(token) == Some(Frame(mac, slug, expiry))
    ensures Validate(mac, token, now) == if now <= expiry then Some(slug) else None
  {
    hide ExpiryBytes, ExpiryOf, Payload, Frame, Decode;
    FrameParts(mac, slug, expiry);
    ExpiryReads(expiry);
  }

  /** A token is accepted for a slug exactly when it decodes to a signed frame for that slug that has not expired. */
  lemma AcceptedIffSigned(mac: Mac, token: string, slug: Slug, now: int)
    ensures Validate(mac, token, now) == Some(slug)
       <==> exists e: Int64 :: now <= e && Decode(token) == Some(Frame(mac, slug, e))
  {
    hide Decode;
    if Validate(mac, token, now) == Some(slug) {
      var e := AcceptedFrame(mac, token, slug, now);
    }
    forall e: Int64 | now <= e && Decode(token) == Some(Frame(mac, slug, e))
      ensures Validate(mac, token, now) == Some(slug)
    {
      ValidateFrame(mac, token, slug, e, now);
    }
  }

  lemma AcceptedFrame(mac: Mac, token: string, slug: Slug, now: int) returns (e: Int64)
    requires Validate(mac, token, now) == Some(slug)
    ensures now <= e && Decode(token) == Some(Frame(mac, slug, e))
  {
    hide Decode, ExpiryBytes, ExpiryOf;
    var raw := Decode(token).value;
    var n: nat := raw[0];
    var payload := raw[..1 + n + 8];
    e := ExpiryOf(payload[1 + n..]);
    ExpiryWrites(payload[1 + n..]);
    assert payload == [raw[0]] + payload[1..1 + n] + payload[1 + n..];
    assert raw == payload + raw[1 + n + 8..];
  }

  /** An issued token is accepted until 300 seconds later, for the first 255 bytes of the slug. */
  method IssueAndValidate(mac: Mac, slug: seq<Byte>, now: Int64, later: int)
    returns (token: string, accepted: Option<Slug>)
    requires now + 300 < TWO_63
    ensures token == Encode(Frame(mac, Cut(slug), now + 300))
    ensures accepted == Validate(mac, token, later)
         == if later <= now + 300 then Some(if |slug| <= 255 then slug else slug[..255]) else None
    ensures forall other ::
              ValidateForSlug(mac, token, other, later)
              <==> later <= now + 300 && other == if |slug| <= 255 then slug else slug[..255]
  {
    hide Decode, Encode, Frame, Validate;
    token := Issue(mac, slug, now);
    accepted := Validate(mac, token, later);
    DecodeEncode(Frame(mac, Cut(slug), now + TTL));
    ValidateFrame(mac, token, Cut(slug), now + TTL, later);
  }

  /** An app's own token is good for the app exactly if its slug was not cut. */
  method OwnToken(mac: Mac, slug: seq<Byte>, now: Int64) returns (good: bool)
    requires now + 300 < TWO_63
    ensures good == ValidateForSlug(mac, Encode(Frame(mac, Cut(slug), now + 300)), slug, now)
    ensures good <==> |slug| <= 255
  {
    hide Validate, ValidateForSlug;
    var token, accepted := IssueAndValidate(mac, slug, now, now);
    good := ValidateForSlug(mac, token, slug, now);
  }
}
