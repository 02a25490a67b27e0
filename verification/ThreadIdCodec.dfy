/** Thread identities (crates/rovai-core/src/camp_id.rs): a UUIDv7 of 128 bits spelled in 26 Crockford base-32
    digits behind a prefix; sections 4.1, 4.2 and 5.7 of RFC 9562. */
module ThreadIdCodec {
  import opened Options

  const PREFIX := "rvcamp_"
  const SUFFIX_LENGTH := 26
  const CROCKFORD := "0123456789abcdefghjkmnpqrstvwxyz"
  const TWO_128 := 0x1_0000_0000_0000_0000_0000_0000_0000_0000

  datatype Parsed = Accepted(payload: nat) | BadShape | BadDigit | Overflow | NotVersion7 | BadVariant

  // Bits 76 to 79 hold the version, bits 62 and 63 the variant.
  function VersionOf(payload: nat): nat { payload / 0x1000_0000_0000_0000_0000 % 16 }

  function VariantOf(payload: nat): nat { payload / 0x4000_0000_0000_0000 % 4 }

  predicate IsUuidV7(payload: nat) { payload < TWO_128 && VersionOf(payload) == 7 && VariantOf(payload) == 2 }

  // Digits -----------------------------------------------------------------------------------------

  /** The position of a character, if it has one. */
  function Position(alphabet: string, c: char): (i: Option<nat>)
    ensures i.Some? ==> i.value < |alphabet| && alphabet[i.value] == c
    ensures i.None? ==> c !in alphabet
    ensures i.Some? ==> forall j | 0 <= j < i.value :: alphabet[j] != c
  {
    if alphabet == "" then None
    else if alphabet[0] == c then Some(0)
    else var i := Position(alphabet[1..], c); if i.Some? then Some(i.value + 1) else None
  }

  function DigitOf(c: char): Option<nat> { Position(CROCKFORD, c) }

  method CrockfordValue(c: char) returns (digit: Option<nat>)
    ensures digit == DigitOf(c)
  {
    var i := 0;
    while i < |CROCKFORD|
      invariant 0 <= i <= |CROCKFORD|
      invariant forall j | 0 <= j < i :: CROCKFORD[j] != c
    {
      if CROCKFORD[i] == c {
        assert c in CROCKFORD;
        return Some(i);
      }
      i := i + 1;
    }
    return None;
  }

  /** The alphabet is in ASCII order: digits keep their order as characters, and each is found where it stands. */
  lemma AlphabetIsSorted()
    ensures |CROCKFORD| == 32 && forall i, j | 0 <= i < j < 32 :: CROCKFORD[i] < CROCKFORD[j]
  {
  }

  lemma DigitFound(d: nat)
    requires d < 32
    ensures DigitOf(CROCKFORD[d]) == Some(d)
  {
    AlphabetIsSorted();
    var found := DigitOf(CROCKFORD[d]);
    assert CROCKFORD[d] in CROCKFORD;
  }

  predicate AreDigits(digits: seq<nat>) { forall i | 0 <= i < |digits| :: digits[i] < 32 }

  function Spell(digits: seq<nat>): (s: string)
    requires AreDigits(digits)
    ensures |s| == |digits| && forall i | 0 <= i < |s| :: s[i] == CROCKFORD[digits[i]]
  {
    seq(|digits|, i requires 0 <= i < |digits| => CROCKFORD[digits[i]])
  }

  predicate AllDigits(s: string) { forall i | 0 <= i < |s| :: DigitOf(s[i]).Some? }

  function Read(s: string): (digits: seq<nat>)
    requires AllDigits(s)
    ensures |digits| == |s| && AreDigits(digits) && forall i | 0 <= i < |s| :: digits[i] == DigitOf(s[i]).value
  {
    seq(|s|, i requires 0 <= i < |s| => DigitOf(s[i]).value)
  }

  // Values -----------------------------------------------------------------------------------------

  function Value(digits: seq<nat>): nat {
    if digits == [] then 0 else Value(digits[..|digits| - 1]) * 32 + digits[|digits| - 1]
  }

  /** The last k base-32 digits of n. */
  function Digits(n: nat, k: nat): (digits: seq<nat>)
    ensures |digits| == k && AreDigits(digits)
  {
    if k == 0 then [] else Digits(n / 32, k - 1) + [n % 32]
  }

  function Pow32(k: nat): (p: nat)
    ensures p > 0
  {
    if k == 0 then 1 else 32 * Pow32(k - 1)
  }

  lemma {:induction false} DigitsSpellValue(n: nat, k: nat)
    requires n < Pow32(k)
    ensures Value(Digits(n, k)) == n
  {
    if k > 0 {
      assert n / 32 < Pow32(k - 1);
      DigitsSpellValue(n / 32, k - 1);
      assert Digits(n, k)[..k - 1] == Digits(n / 32, k - 1);
    }
  }

  lemma {:induction false} ValueHasDigits(digits: seq<nat>)
    requires AreDigits(digits)
    ensures Digits(Value(digits), |digits|) == digits && Value(digits) < Pow32(|digits|)
  {
    if digits != [] {
      var init, last := digits[..|digits| - 1], digits[|digits| - 1];
      ValueHasDigits(init);
      assert Value(digits) / 32 == Value(init) && Value(digits) % 32 == last;
      assert digits == init + [last];
    }
  }

  /** The leading digit counts for the most. */
  lemma {:induction false} LeadingDigit(digits: seq<nat>)
    requires digits != [] && AreDigits(digits)
    ensures Value(digits) == digits[0] * Pow32(|digits| - 1) + Value(digits[1..])
  {
    if |digits| > 1 {
      var init := digits[..|digits| - 1];
      LeadingDigit(init);
      assert digits[1..][..|digits| - 2] == init[1..];
      assert digits[0] * Pow32(|digits| - 1) == digits[0] * Pow32(|digits| - 2) * 32;
    } else {
      assert digits[..0] == [] && Value(digits) == Value(digits[..0]) * 32 + digits[0];
    }
  }

  lemma PowersOf32()
    ensures 8 * Pow32(25) == TWO_128 && Pow32(26) == 4 * TWO_128
  {
    assert Pow32(5) == 0x200_0000;
    assert Pow32(10) == 0x200_0000 * 0x200_0000;
    assert Pow32(15) == 0x200_0000 * 0x200_0000 * 0x200_0000;
    assert Pow32(20) == 0x200_0000 * 0x200_0000 * 0x200_0000 * 0x200_0000;
    assert Pow32(25) == 0x200_0000 * 0x200_0000 * 0x200_0000 * 0x200_0000 * 0x200_0000;
  }

  /** 26 digits fit 128 bits exactly when the first is at most 7. */
  lemma FirstDigitBounds(digits: seq<nat>)
    requires |digits| == SUFFIX_LENGTH && AreDigits(digits)
    ensures digits[0] <= 7 <==> Value(digits) < TWO_128
  {
    LeadingDigit(digits);
    ValueHasDigits(digits[1..]);
    PowersOf32();
    if digits[0] <= 7 {
      assert digits[0] * Pow32(25) <= 7 * Pow32(25);
    } else {
      assert digits[0] * Pow32(25) >= 8 * Pow32(25);
    }
  }

  // Encoding and parsing ---------------------------------------------------------------------------

  function FromUuid(payload: nat): string { PREFIX + Spell(Digits(payload, SUFFIX_LENGTH)) }

  /** encode_uuid: the digits from the right, five bits at a time. */
  method EncodeUuid(payload: nat) returns (suffix: string)
    ensures suffix == Spell(Digits(payload, SUFFIX_LENGTH))
  {
    var value := payload;
    var bytes := new char[SUFFIX_LENGTH](_ => '0');
    var i := SUFFIX_LENGTH;
    while i > 0
      invariant 0 <= i <= SUFFIX_LENGTH && bytes.Length == SUFFIX_LENGTH
      invariant bytes[i..] == Spell(Digits(payload, SUFFIX_LENGTH))[i..]
      invariant Digits(value, i) == Digits(payload, SUFFIX_LENGTH)[..i]
    {
      i := i - 1;
      assert Digits(value, i + 1)[..i] == Digits(value / 32, i) && Digits(value, i + 1)[i] == value % 32;
      bytes[i] := CROCKFORD[value % 32];
      value := value / 32;
    }
    return bytes[..];
  }

  function Judge(payload: nat): Parsed {
    if VersionOf(payload) != 7 then NotVersion7
    else if VariantOf(payload) != 2 then BadVariant
    else Accepted(payload)
  }

  /** What the parser makes of a string: the first thing wrong with it, or its payload. */
  function ParseOf(s: string): Parsed {
    if |s| != |PREFIX| + SUFFIX_LENGTH || s[..|PREFIX|] != PREFIX then BadShape
    else
      var suffix := s[|PREFIX|..];
      if DigitOf(suffix[0]).None? then BadDigit
      else if DigitOf(suffix[0]).value > 7 then Overflow
      else if !AllDigits(suffix) then BadDigit
      else Judge(Value(Read(suffix)))
  }

  /** The 128-bit shift drops whatever passes the top; here nothing does. */
  function ShiftIn(decoded: nat, digit: nat): nat { (decoded * 32 + digit) % TWO_128 }

  lemma OneMoreDigit(suffix: string, i: nat)
    requires i < |suffix| <= SUFFIX_LENGTH && AllDigits(suffix[..i]) && DigitOf(suffix[i]).Some?
    requires DigitOf(suffix[0]).Some? && DigitOf(suffix[0]).value <= 7
    ensures AllDigits(suffix[..i + 1])
    ensures Value(Read(suffix[..i + 1])) == ShiftIn(Value(Read(suffix[..i])), DigitOf(suffix[i]).value)
  {
    hide DigitOf;
    var before, after := Read(suffix[..i]), Read(suffix[..i + 1]);
    assert after == before + [DigitOf(suffix[i]).value];
    assert after[..i] == before;
    PrefixFits(after);
  }

  method Parse(s: string) returns (parsed: Parsed)
    ensures parsed == ParseOf(s)
  {
    if |s| != |PREFIX| + SUFFIX_LENGTH || s[..|PREFIX|] != PREFIX { return BadShape; }
    var suffix := s[|PREFIX|..];
    hide DigitOf, Value, Read, ShiftIn, Judge;
    assert Value(Read("")) == 0 by { NoDigits(); }
    var decoded := 0;
    var i := 0;
    while i < SUFFIX_LENGTH
      invariant 0 <= i <= SUFFIX_LENGTH && AllDigits(suffix[..i])
      invariant i > 0 ==> DigitOf(suffix[0]).Some? && DigitOf(suffix[0]).value <= 7
      invariant decoded == Value(Read(suffix[..i]))
    {
      var digit := CrockfordValue(suffix[i]);
      if digit.None? { return BadDigit; }
      if i == 0 && digit.value > 7 { return Overflow; }
      OneMoreDigit(suffix, i);
      decoded := ShiftIn(decoded, digit.value);
      i := i + 1;
    }
    assert suffix[..i] == suffix;
    return Judge(decoded);
  }

  lemma NoDigits()
    ensures AllDigits("") && Value(Read("")) == 0
  {
  }

  lemma {:induction false} PowersGrow(i: nat, j: nat)
    requires i <= j
    ensures Pow32(i) <= Pow32(j)
    decreases j
  {
    if i < j { PowersGrow(i, j - 1); }
  }

  lemma BelowTop(digit: nat, p: nat, rest: nat, top: nat)
    requires digit <= 7 && rest < p <= top
    ensures digit * p + rest < 8 * top
  {
    assert digit * p <= 7 * p;
  }

  /** No bit is lost on the way: every prefix of the digits fits 128 bits. */
  lemma PrefixFits(digits: seq<nat>)
    requires 0 < |digits| <= SUFFIX_LENGTH && AreDigits(digits) && digits[0] <= 7
    ensures Value(digits) < TWO_128
  {
    LeadingDigit(digits);
    ValueHasDigits(digits[1..]);
    PowersOf32();
    PowersGrow(|digits| - 1, 25);
    hide Value, Pow32, AreDigits;
    BelowTop(digits[0], Pow32(|digits| - 1), Value(digits[1..]), Pow32(25));
  }

  // What the codec promises --------------------------------------------------------------------------

  lemma ReadSpelled(digits: seq<nat>)
    requires AreDigits(digits)
    ensures AllDigits(Spell(digits)) && Read(Spell(digits)) == digits
  {
    forall i | 0 <= i < |digits| ensures DigitOf(Spell(digits)[i]) == Some(digits[i]) { DigitFound(digits[i]); }
  }

  lemma SpellRead(s: string)
    requires AllDigits(s)
    ensures Spell(Read(s)) == s
  {
  }

  /** Every UUIDv7 is read back as itself. */
  lemma EncodedIsParsed(payload: nat)
    requires IsUuidV7(payload)
    ensures ParseOf(FromUuid(payload)) == Accepted(payload)
  {
    var digits := Digits(payload, SUFFIX_LENGTH);
    PowersOf32();
    DigitsSpellValue(payload, SUFFIX_LENGTH);
    FirstDigitBounds(digits);
    ReadSpelled(digits);
    assert FromUuid(payload)[|PREFIX|..] == Spell(digits) && FromUuid(payload)[..|PREFIX|] == PREFIX;
    assert DigitOf(Spell(digits)[0]) == Some(digits[0]);
  }

  /** A string is accepted exactly when it is the spelling of a UUIDv7, which is then its payload. */
  lemma AcceptedIff(s: string, payload: nat)
    ensures ParseOf(s) == Accepted(payload) <==> IsUuidV7(payload) && s == FromUuid(payload)
  {
    if ParseOf(s) == Accepted(payload) {
      var suffix := s[|PREFIX|..];
      var digits := Read(suffix);
      FirstDigitBounds(digits);
      ValueHasDigits(digits);
      SpellRead(suffix);
      assert s == PREFIX + suffix;
    }
    if IsUuidV7(payload) && s == FromUuid(payload) { EncodedIsParsed(payload); }
  }

  // The parts of a UUIDv7: 48 bits of time, the version, 12 bits, the variant, 62 bits.
  datatype Parts = Parts(time: nat, a: nat, b: nat)

  predicate Sized(p: Parts) { p.time < 0x1_0000_0000_0000 && p.a < 0x1000 && p.b < 0x4000_0000_0000_0000 }

  function Joined(p: Parts): nat {
    p.time * 0x1_0000_0000_0000_0000_0000 + 7 * 0x1000_0000_0000_0000_0000 + p.a * 0x1_0000_0000_0000_0000
    + 2 * 0x4000_0000_0000_0000 + p.b
  }

  /** The payloads accepted are those laid out like that, one for each three parts. */
  lemma LayoutIff(payload: nat)
    ensures IsUuidV7(payload) <==> exists p :: Sized(p) && payload == Joined(p)
  {
    forall p | Sized(p) && payload == Joined(p) ensures IsUuidV7(payload) { PartsAreRead(p); }
    if IsUuidV7(payload) {
      var p := HasParts(payload);
      hide Joined;
    }
  }

  lemma HasParts(payload: nat) returns (p: Parts)
    requires IsUuidV7(payload)
    ensures Sized(p) && payload == Joined(p)
  {
    var top, rest := payload / 0x4000_0000_0000_0000, payload % 0x4000_0000_0000_0000;
    assert payload / 0x1000_0000_0000_0000_0000 == top / 0x4000;
    var upper, lower := top / 0x4000, top % 0x4000;
    p := Parts(upper / 16, lower / 4, rest);
    assert upper == p.time * 16 + 7 && lower == p.a * 4 + 2;
  }

  lemma PartsAreRead(p: Parts)
    requires Sized(p)
    ensures IsUuidV7(Joined(p))
  {
    var low := p.a * 0x1_0000_0000_0000_0000 + 2 * 0x4000_0000_0000_0000 + p.b;
    assert Joined(p) == (p.time * 16 + 7) * 0x1000_0000_0000_0000_0000 + low;
    assert Joined(p) / 0x1000_0000_0000_0000_0000 == p.time * 16 + 7;
    assert Joined(p) == ((p.time * 16 + 7) * 0x4000 + p.a * 4 + 2) * 0x4000_0000_0000_0000 + p.b;
    assert Joined(p) / 0x4000_0000_0000_0000 == (p.time * 16 + 7) * 0x4000 + p.a * 4 + 2;
  }

  predicate Shaped(s: string) { |s| == 33 && s[..7] == "rvcamp_" }

  predicate WithinDigits(s: string)
    requires Shaped(s)
  {
    AllDigits(s[7..]) && DigitOf(s[7]).Some? && DigitOf(s[7]).value <= 7
  }

  /** What a string spells, if its digits fit. */
  lemma SpelledAs(s: string, v: nat)
    requires Shaped(s) && v < TWO_128
    ensures s == FromUuid(v) <==> WithinDigits(s) && Value(Read(s[7..])) == v
  {
    var suffix := s[7..];
    assert s == "rvcamp_" + suffix && suffix[0] == s[7];
    hide DigitOf;
    if WithinDigits(s) && Value(Read(suffix)) == v {
      ValueHasDigits(Read(suffix));
      SpellRead(suffix);
    }
    if s == FromUuid(v) {
      var digits := Digits(v, 26);
      assert suffix == Spell(digits);
      ReadSpelled(digits);
      PowersOf32();
      DigitsSpellValue(v, 26);
      FirstDigitBounds(digits);
    }
  }

  lemma WithinFits(s: string)
    requires Shaped(s) && WithinDigits(s)
    ensures Value(Read(s[7..])) < TWO_128
  {
    FirstDigitBounds(Read(s[7..]));
  }

  ghost predicate Spells(s: string, v: nat) { v < TWO_128 && s == FromUuid(v) }

  /** Which strings are refused, and as what. */
  lemma RefusedAs(s: string)
    ensures ParseOf(s).BadShape? <==> !Shaped(s)
    ensures ParseOf(s).NotVersion7? <==> exists v: nat :: Spells(s, v) && VersionOf(v) != 7
    ensures ParseOf(s).BadVariant? <==> exists v: nat :: Spells(s, v) && VersionOf(v) == 7 && VariantOf(v) != 2
    ensures ParseOf(s).Overflow? <==> Shaped(s) && DigitOf(s[7]).Some? && DigitOf(s[7]).value >= 8
    ensures ParseOf(s).BadDigit? <==>
      Shaped(s) && !AllDigits(s[7..]) && (DigitOf(s[7]).Some? ==> DigitOf(s[7]).value <= 7)
  {
    hide DigitOf, Value, Read, AllDigits, VersionOf, VariantOf;
    if Shaped(s) {
      assert s[7..][0] == s[7];
      FirstOfAll(s[7..]);
      SpellsIff(s);
    }
  }

  lemma FirstOfAll(s: string)
    ensures s != "" && AllDigits(s) ==> DigitOf(s[0]).Some?
  {
  }

  lemma SpellsIff(s: string)
    requires Shaped(s)
    ensures forall v: nat :: Spells(s, v) <==> WithinDigits(s) && Value(Read(s[7..])) == v
  {
    forall v: nat ensures Spells(s, v) <==> WithinDigits(s) && Value(Read(s[7..])) == v {
      if WithinDigits(s) { WithinFits(s); }
      if v < TWO_128 { SpelledAs(s, v); }
    }
  }

  /** The order of strings of one length. */
  predicate Before(a: string, b: string)
    requires |a| == |b|
  {
    a != "" && (a[0] < b[0] || (a[0] == b[0] && Before(a[1..], b[1..])))
  }

  lemma SpellTail(digits: seq<nat>)
    requires digits != [] && AreDigits(digits)
    ensures Spell(digits)[1..] == Spell(digits[1..])
  {
  }

  lemma CharactersKeepOrder(d: nat, e: nat)
    requires d < 32 && e < 32
    ensures CROCKFORD[d] < CROCKFORD[e] <==> d < e
    ensures CROCKFORD[d] == CROCKFORD[e] <==> d == e
  {
    AlphabetIsSorted();
    if d < e { assert CROCKFORD[d] < CROCKFORD[e]; }
    if e < d { assert CROCKFORD[e] < CROCKFORD[d]; }
  }

  lemma LeadingDecides(d: nat, e: nat, p: nat, x: nat, y: nat)
    requires x < p && y < p
    ensures d * p + x < e * p + y <==> d < e || (d == e && x < y)
  {
    if d < e { assert (d + 1) * p <= e * p; }
    if e < d { assert (e + 1) * p <= d * p; }
  }

  lemma {:induction false} SpellingKeepsOrder(a: seq<nat>, b: seq<nat>)
    requires |a| == |b| && AreDigits(a) && AreDigits(b)
    ensures Before(Spell(a), Spell(b)) <==> Value(a) < Value(b)
  {
    if a != [] {
      SpellingKeepsOrder(a[1..], b[1..]);
      SpellTail(a);
      SpellTail(b);
      CharactersKeepOrder(a[0], b[0]);
      LeadingDigit(a);
      LeadingDigit(b);
      ValueHasDigits(a[1..]);
      ValueHasDigits(b[1..]);
      hide Value, Pow32, Digits, CROCKFORD;
      LeadingDecides(a[0], b[0], Pow32(|a| - 1), Value(a[1..]), Value(b[1..]));
    }
  }

  lemma {:induction false} CommonPrefix(prefix: string, a: string, b: string)
    requires |a| == |b|
    ensures Before(prefix + a, prefix + b) <==> Before(a, b)
  {
    if prefix == "" {
      assert prefix + a == a && prefix + b == b;
    } else {
      assert (prefix + a)[1..] == prefix[1..] + a && (prefix + b)[1..] == prefix[1..] + b;
      CommonPrefix(prefix[1..], a, b);
    }
  }

  /** Identities sort as strings the way their payloads sort as numbers, so by their time first. */
  lemma OrderIsPreserved(v: nat, w: nat)
    requires v < TWO_128 && w < TWO_128
    ensures |FromUuid(v)| == |FromUuid(w)|
    ensures Before(FromUuid(v), FromUuid(w)) <==> v < w
  {
    PowersOf32();
    DigitsSpellValue(v, SUFFIX_LENGTH);
    DigitsSpellValue(w, SUFFIX_LENGTH);
    SpellingKeepsOrder(Digits(v, SUFFIX_LENGTH), Digits(w, SUFFIX_LENGTH));
    CommonPrefix(PREFIX, Spell(Digits(v, SUFFIX_LENGTH)), Spell(Digits(w, SUFFIX_LENGTH)));
  }
}
