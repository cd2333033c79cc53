/**
Session keys: 64-bit signed integers that name the resume session of a conversation. Telegram
channels use the chat id; tabs use a hash, computed by the same loop in two places, with
wrap-around. Strings are sequences of bytes.
*/
module SessionKey {
  import opened Integers
  import opened Sequences
  import opened Wrappers

  const BASIS: Int64 := -2166136261
  const PRIME := 16777619

  const DEFAULT_KEY: Int64 := -1

  function XorBytes(x: Byte, y: Byte): Byte {
    ((x as bv8) ^ (y as bv8)) as int
  }

  /** `h ^= int64(b)`: only the low byte changes. */
  function Mixed(h: Int64, b: Byte): int {
    h - h % 256 + XorBytes(h % 256, b)
  }

  /** The state of the hash loop after the bytes of `s`. */
  function Hash(s: seq<Byte>): Int64 {
    if s == [] then BASIS else Wrap(Mixed(Hash(s[..|s| - 1]), s[|s| - 1]) * PRIME)
  }

  function Negated(h: Int64): Int64 {
    if h >= 0 then Wrap(-h - 2) else h
  }

  const COLON: Byte := 58
  /** "tg", "cc" and "default". */
  const TG: seq<Byte> := [116, 103]
  const CC: seq<Byte> := [99, 99]
  const DEFAULT: seq<Byte> := [100, 101, 102, 97, 117, 108, 116]

  /** The key of a tab for the control centre. */
  function ConvKey(convID: seq<Byte>): Int64 {
    if convID == [] then DEFAULT_KEY else Negated(Hash(convID))
  }

  lemma HashNext(s: seq<Byte>, i: nat)
    requires i < |s|
    ensures Hash(s[..i + 1]) == Wrap(Mixed(Hash(s[..i]), s[i]) * PRIME)
  {
    assert s[..i + 1][..i] == s[..i];
  }

  method ConvSessionID(convID: seq<Byte>) returns (key: Int64)
    ensures key == ConvKey(convID)
  {
    hide Hash, Mixed;
    if |convID| == 0 {
      return DEFAULT_KEY;
    }
    var h := BASIS;
    EmptyHash();
    assert convID[..0] == [];
    var i := 0;
    while i < |convID|
      invariant i <= |convID| && h == Hash(convID[..i])
    {
      HashNext(convID, i);
      var x: int := Mixed(h, convID[i]);
      h := Wrap(x * PRIME);
      i := i + 1;
    }
    assert convID[..i] == convID;
    if h >= 0 {
      h := Wrap(-2 - h as int);
    }
    return h;
  }

  lemma EmptyHash()
    ensures Hash([]) == BASIS
  {
  }

  // ---------- Decimal numbers

  predicate IsDigit(b: Byte) {
    48 <= b <= 57
  }

  predicate AllDigits(s: seq<Byte>) {
    forall i | 0 <= i < |s| :: IsDigit(s[i])
  }

  function Number(s: seq<Byte>): int {
    if s == [] then 0 else Number(s[..|s| - 1]) * 10 + s[|s| - 1] as int - 48
  }

  /** A base-10 64-bit integer: an optional sign, then digits, and no overflow. */
  function ParseInt(s: seq<Byte>): Option<Int64> {
    var signed := s != [] && (s[0] == 43 || s[0] == 45);
    var digits := if signed then s[1..] else s;
    if digits == [] || !AllDigits(digits) then None
    else
      var n := if signed && s[0] == 45 then -Number(digits) else Number(digits);
      if -TWO_63 <= n < TWO_63 then Some(n) else None
  }

  /** The digits of a number, as formatting writes them. */
  function Digits(n: nat): (s: seq<Byte>)
    ensures s != [] && AllDigits(s)
  {
    if n < 10 then [48 + n] else Digits(n / 10) + [48 + n % 10]
  }

  function Decimal(n: int): seq<Byte> {
    if n < 0 then [45] + Digits(-n) else Digits(n)
  }

  lemma {:induction false} NumberOfDigits(n: nat)
    ensures Number(Digits(n)) == n
  {
    if n >= 10 {
      NumberOfDigits(n / 10);
      assert Digits(n)[..|Digits(n)| - 1] == Digits(n / 10);
    } else {
      assert [48 + n][..0] == [];
    }
  }

  /** Every number in decimal is read back if it fits in 64 bits, and refused if it does not. */
  lemma ParseDecimal(n: int)
    ensures ParseInt(Decimal(n)) == if -0x8000_0000_0000_0000 <= n <= 0x7FFF_FFFF_FFFF_FFFF then Some(n) else None
  {
    hide Digits, Number;
    if n < 0 {
      NumberOfDigits(-n);
      assert Decimal(n)[1..] == Digits(-n);
    } else {
      NumberOfDigits(n);
    }
  }

  /** A digit more is ten times the number and that digit. */
  lemma OneMoreDigit(n: nat, d: nat)
    requires n > 0 && d < 10
    ensures Digits(10 * n + d) == Digits(n) + [48 + d] && Digits(d) == [48 + d]
  {
  }

  lemma {:induction false} LeadingZero(digits: seq<Byte>)
    ensures Number([48] + digits) == Number(digits)
  {
    if digits == [] {
      assert ([48] + digits)[..0] == [];
    } else {
      assert ([48] + digits)[..|digits|] == [48] + digits[..|digits| - 1];
      LeadingZero(digits[..|digits| - 1]);
    }
  }

  /** A plus sign and leading zeros make no difference; no digits, or anything else, is refused. */
  lemma OtherDecimals(digits: seq<Byte>)
    requires forall i | 0 <= i < |digits| :: 48 <= digits[i] <= 57
    ensures digits == [] ==> ParseInt(digits) == ParseInt([43]) == ParseInt([45]) == None
    ensures digits != [] ==> ParseInt([43] + digits) == ParseInt([48] + digits) == ParseInt(digits)
    ensures digits != [] ==> ParseInt([45, 48] + digits) == ParseInt([45] + digits)
  {
    hide Number;
    LeadingZero(digits);
    assert ([43] + digits)[1..] == digits && ([45] + digits)[1..] == digits;
    assert ([45, 48] + digits)[1..] == [48] + digits;
  }

  lemma NotDecimal(s: seq<Byte>, i: nat)
    requires i < |s| && !(48 <= s[i] <= 57) && (i == 0 ==> s[0] != 43 && s[0] != 45)
    ensures ParseInt(s) == None
  {
    if s[0] == 43 || s[0] == 45 {
      assert s[1..][i - 1] == s[i];
    }
  }

  // ---------- Channels

  function Channel(prefix: seq<Byte>, value: seq<Byte>): seq<Byte> {
    prefix + [COLON] + value
  }

  function ChannelKey(c: seq<Byte>): Int64 {
    var i := IndexOf(c, COLON);
    if i < 0 then DEFAULT_KEY else
    var prefix, value := c[..i], c[i + 1..];
    if prefix == TG && ParseInt(value).Some? then ParseInt(value).value
    else if prefix == CC && value != [] && value != DEFAULT then Negated(Hash(value))
    else DEFAULT_KEY
  }

  method ChannelSessionKey(c: seq<Byte>) returns (key: Int64)
    ensures key == ChannelKey(c)
  {
    hide Hash, Mixed, ParseInt;
    var i := IndexOf(c, COLON);
    if i < 0 {
      return DEFAULT_KEY;
    }
    var prefix, value := c[..i], c[i + 1..];
    if prefix == TG {
      var id := ParseInt(value);
      if id.Some? {
        return id.value;
      }
    }
    if prefix == CC && |value| > 0 && value != DEFAULT {
      var h := BASIS;
      EmptyHash();
      assert value[..0] == [];
      var j := 0;
      while j < |value|
        invariant j <= |value| && h == Hash(value[..j])
      {
        HashNext(value, j);
        var x: int := Mixed(h, value[j]);
        h := Wrap(x * PRIME);
        j := j + 1;
      }
      assert value[..j] == value;
      if h >= 0 {
        h := Wrap(-2 - h as int);
      }
      return h;
    }
    return DEFAULT_KEY;
  }

  lemma SplitsAtColon(prefix: seq<Byte>, value: seq<Byte>)
    requires COLON !in prefix
    ensures IndexOf(Channel(prefix, value), COLON) == |prefix|
    ensures Channel(prefix, value)[..|prefix|] == prefix && Channel(prefix, value)[|prefix| + 1..] == value
  {
    IndexOfIs(prefix, COLON, value);
  }

  lemma TabKey(c: seq<Byte>)
    ensures ChannelKey(Channel(CC, c)) == if c == [] || c == DEFAULT then DEFAULT_KEY else ConvKey(c)
  {
    hide Hash, IndexOf, Negated;
    SplitsAtColon(CC, c);
  }

  /**
  The key of any channel: "tg:" with a number is that number, "cc:" with a name other than
  "default" is the key of the tab of that name, and everything else has the key -1.
  */
  lemma ChannelKeyIs(prefix: seq<Byte>, value: seq<Byte>)
    requires 58 !in prefix
    ensures ChannelKey(prefix) == -1
    ensures ChannelKey(prefix + [58] + value) ==
            if prefix == [116, 103] && ParseInt(value).Some? then ParseInt(value).value
            else if prefix == [99, 99] && value != [] && value != [100, 101, 102, 97, 117, 108, 116] then ConvKey(value)
            else -1
  {
    hide Hash, IndexOf, Negated, ParseInt;
    SplitsAtColon(prefix, value);
  }

  /**
  The key of a name by its hash: a negative hash as it is, any other reflected below -1, except
  for the largest one, for which that wraps around to itself.
  */
  lemma ConvKeyIs(convID: seq<Byte>)
    ensures convID == [] ==> ConvKey(convID) == -1
    ensures convID != [] ==>
              var h := Hash(convID) as int;
              ConvKey(convID) == if h < 0 || h == 0x7FFF_FFFF_FFFF_FFFF then h else -2 - h
  {
    hide Hash;
  }

  /** Two tabs share a key exactly if their hashes are equal or reflections of each other. */
  lemma KeysCollideIff(a: seq<Byte>, b: seq<Byte>)
    requires a != [] && b != []
    ensures ConvKey(a) == ConvKey(b) <==> Hash(a) == Hash(b) || Hash(a) as int + Hash(b) as int == -2
  {
    hide Hash, ConvKey;
    ConvKeyIs(a);
    ConvKeyIs(b);
  }

  /** The two computations give one key to every tab except the one that is called "default". */
  method KeysAgree(convID: seq<Byte>) returns (conv: Int64, channel: Int64)
    ensures conv == ConvKey(convID) && channel == ChannelKey([99, 99, 58] + convID)
    ensures conv == channel <==> convID != [100, 101, 102, 97, 117, 108, 116]
  {
    hide Hash, ChannelKey;
    assert Channel(CC, convID) == [99, 99, 58] + convID;
    conv := ConvSessionID(convID);
    channel := ChannelSessionKey(Channel(CC, convID));
    TabKey(convID);
    HashOfDefault();
  }

  /** A tab key is negative exactly when the hash is not the largest integer, whose negation wraps around. */
  lemma TabKeyIsNegative(convID: seq<Byte>)
    ensures ConvKey(convID) < 0 <==> Hash(convID) != 0x7FFF_FFFF_FFFF_FFFF
    ensures ConvKey(convID) == -1 <==> convID == [] || Hash(convID) == -1
    ensures ConvKey(convID) != 0
  {
    EmptyHash();
    hide Hash;
  }

  /** A Telegram channel has its chat id for key, whatever the id. */
  lemma ChatKey(id: Int64)
    ensures ChannelKey([116, 103, 58] + Decimal(id)) == id
  {
    hide Hash, IndexOf, ParseInt, Decimal;
    assert Channel(TG, Decimal(id)) == [116, 103, 58] + Decimal(id);
    SplitsAtColon(TG, Decimal(id));
    ParseDecimal(id);
  }

  /** A tab shares its key with a positive chat id only if its hash is the largest integer. */
  lemma TabsAvoidChats(convID: seq<Byte>, id: Int64)
    requires id > 0 && ChannelKey([99, 99, 58] + convID) == ChannelKey([116, 103, 58] + Decimal(id))
    ensures convID != [] && Hash(convID) == MAX_INT == id
  {
    hide Hash, ChannelKey, Decimal;
    assert Channel(CC, convID) == [99, 99, 58] + convID;
    TabKey(convID);
    ChatKey(id);
  }

  // ---------- Concrete keys

  /** One step of the loop: `was` with its low byte `low` replaced by `mixed`, times the prime. */
  lemma Step(s: seq<Byte>, i: nat, was: Int64, low: Byte, mixed: Byte, now: Int64)
    requires i < |s| && Hash(s[..i]) == was && was % 256 == low && XorBytes(low, s[i]) == mixed
    requires Wrap((was - low + mixed) * PRIME) == now
    ensures Hash(s[..i + 1]) == now
  {
    hide Hash, Wrap, XorBytes;
    HashNext(s, i);
  }

  lemma HashOfDefaultSteps()
    ensures XorBytes(59, 100) == 95 && Wrap((-2166136261 - 59 + 95) * PRIME) == -36342608285148275
    ensures XorBytes(141, 101) == 232 && Wrap((-36342608285148275 - 141 + 232) * PRIME) == -3756662064070578632
    ensures XorBytes(56, 102) == 94 && Wrap((-3756662064070578632 - 56 + 94) * PRIME) == -5795858941113926150
    ensures XorBytes(250, 97) == 155 && Wrap((-5795858941113926150 - 250 + 155) * PRIME) == 7020721851542420225
    ensures XorBytes(1, 117) == 116 && Wrap((7020721851542420225 - 1 + 116) * PRIME) == -5422988323788187748
    ensures XorBytes(156, 108) == 240 && Wrap((-5422988323788187748 - 156 + 240) * PRIME) == 6963302624689401552
    ensures XorBytes(208, 116) == 164 && Wrap((6963302624689401552 - 208 + 164) * PRIME) == -571897435127714772
  {
  }

  /** "default" hashes to a number other than the default key, so the two computations differ on it. */
  lemma HashOfDefault()
    ensures Hash([100, 101, 102, 97, 117, 108, 116]) == -571897435127714772
  {
    hide Hash, XorBytes, Wrap;
    EmptyHash();
    HashOfDefaultSteps();
    var s: seq<Byte> := [100, 101, 102, 97, 117, 108, 116];
    assert s[..0] == [] && s[..7] == s;
    Step(s, 0, -2166136261, 59, 95, -36342608285148275);
    Step(s, 1, -36342608285148275, 141, 232, -3756662064070578632);
    Step(s, 2, -3756662064070578632, 56, 94, -5795858941113926150);
    Step(s, 3, -5795858941113926150, 250, 155, 7020721851542420225);
    Step(s, 4, 7020721851542420225, 1, 116, -5422988323788187748);
    Step(s, 5, -5422988323788187748, 156, 240, 6963302624689401552);
    Step(s, 6, 6963302624689401552, 208, 164, -571897435127714772);
  }

  lemma HashOfMinusOneSteps()
    ensures XorBytes(59, 45) == 22 && Wrap((-2166136261 - 59 + 22) * PRIME) == -36342609509914462
    ensures XorBytes(162, 49) == 147 && Wrap((-36342609509914462 - 162 + 147) * PRIME) == -3777210726298574999
  {
  }

  /** "-1". */
  lemma HashOfMinusOne()
    ensures Hash([45, 49]) == -3777210726298574999
  {
    hide Hash, XorBytes, Wrap;
    EmptyHash();
    HashOfMinusOneSteps();
    var s: seq<Byte> := [45, 49];
    assert s[..0] == [] && s[..2] == s;
    Step(s, 0, -2166136261, 59, 22, -36342609509914462);
    Step(s, 1, -36342609509914462, 162, 147, -3777210726298574999);
  }

  lemma LargestHashFirstSteps()
    ensures XorBytes(59, 105) == 82 && Wrap((-2166136261 - 59 + 82) * PRIME) == -36342608503257322
    ensures XorBytes(22, 115) == 101 && Wrap((-36342608503257322 - 22 + 101) * PRIME) == -3760321414762929153
    ensures XorBytes(255, 48) == 207 && Wrap((-3760321414762929153 - 255 + 207) * PRIME) == 8223458793284738781
    ensures XorBytes(221, 69) == 152 && Wrap((8223458793284738781 - 221 + 152) * PRIME) == -2620138051864778424
    ensures XorBytes(72, 89) == 17 && Wrap((-2620138051864778424 - 72 + 17) * PRIME) == 1523960717524411843
    ensures XorBytes(195, 46) == 237 && Wrap((1523960717524411843 - 195 + 237) * PRIME) == 9071576828725867543
  {
  }

  lemma LargestHashLastSteps()
    ensures XorBytes(23, 115) == 100 && Wrap((9071576828725867543 - 23 + 100) * PRIME) == 4542175853086636396
    ensures XorBytes(108, 53) == 89 && Wrap((4542175853086636396 - 108 + 89) * PRIME) == 1924683838841653019
    ensures XorBytes(27, 83) == 72 && Wrap((1924683838841653019 - 27 + 72) * PRIME) == -3653296272371485096
    ensures XorBytes(88, 95) == 7 && Wrap((-3653296272371485096 - 88 + 7) * PRIME) == -7675699845194167035
    ensures XorBytes(5, 81) == 84 && Wrap((-7675699845194167035 - 5 + 84) * PRIME) == -555503361497777348
    ensures XorBytes(60, 89) == 101 && Wrap((-555503361497777348 - 60 + 101) * PRIME) == 9223372036854775807
  {
  }

  /** The tab name "is0EY.s5S_QY". */
  const LARGEST: seq<Byte> := [105, 115, 48, 69, 89, 46, 115, 53, 83, 95, 81, 89]

  /** A tab name whose hash is the largest integer. */
  lemma LargestHash()
    ensures Hash(LARGEST) == MAX_INT
  {
    hide Hash, XorBytes, Wrap;
    EmptyHash();
    LargestHashFirstSteps();
    LargestHashLastSteps();
    var s := LARGEST;
    assert s[..0] == [] && s[..12] == s;
    Step(s, 0, -2166136261, 59, 82, -36342608503257322);
    Step(s, 1, -36342608503257322, 22, 101, -3760321414762929153);
    Step(s, 2, -3760321414762929153, 255, 207, 8223458793284738781);
    Step(s, 3, 8223458793284738781, 221, 152, -2620138051864778424);
    Step(s, 4, -2620138051864778424, 72, 17, 1523960717524411843);
    Step(s, 5, 1523960717524411843, 195, 237, 9071576828725867543);
    Step(s, 6, 9071576828725867543, 23, 100, 4542175853086636396);
    Step(s, 7, 4542175853086636396, 108, 89, 1924683838841653019);
    Step(s, 8, 1924683838841653019, 27, 72, -3653296272371485096);
    Step(s, 9, -3653296272371485096, 88, 7, -7675699845194167035);
    Step(s, 10, -7675699845194167035, 5, 84, -555503361497777348);
    Step(s, 11, -555503361497777348, 60, 101, 9223372036854775807);
  }

  /** The key of that tab is positive. */
  lemma PositiveTabKey()
    ensures ConvKey([105, 115, 48, 69, 89, 46, 115, 53, 83, 95, 81, 89]) == 0x7FFF_FFFF_FFFF_FFFF
  {
    hide Hash;
    LargestHash();
  }

  /** The channel "cc:-1", made from the default key, does not have the default key. */
  lemma DefaultKeyIsNotAName()
    ensures Decimal(-1) == [45, 49] && ChannelKey([99, 99, 58, 45, 49]) != -1
  {
    hide Hash, ChannelKey;
    assert Channel(CC, [45, 49]) == [99, 99, 58, 45, 49];
    TabKey([45, 49]);
    HashOfMinusOne();
  }
}
