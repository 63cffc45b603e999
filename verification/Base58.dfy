// Positional numerals with significant leading zeros, base58btc on top of them
// (draft-msporny-base58-03, sections 3 and 4), and the Ed25519 did:key form
// (did:key Method v0.7, section 2).

module Radix {
  import opened Division

  type Digits = seq<nat>

  ghost predicate InBase(s: Digits, base: nat) {
    forall i :: 0 <= i < |s| ==> s[i] < base
  }

  // Big-endian value, as big.Int SetBytes reads a byte string.
  function Value(s: Digits, base: nat): nat {
    if s == [] then 0 else Value(s[..|s| - 1], base) * base + s[|s| - 1]
  }

  // Shortest big-endian digits, as big.Int Bytes writes a number.
  function Shortest(n: nat, base: nat): Digits
    requires base >= 2
  {
    if n == 0 then [] else Shortest(n / base, base) + [n % base]
  }

  function LeadingZeros(s: Digits): (z: nat)
    ensures z <= |s|
  {
    if s == [] || s[0] != 0 then 0 else 1 + LeadingZeros(s[1..])
  }

  function Zeros(k: nat): Digits { seq(k, _ => 0) }

  // Rewrites a numeral in another base and keeps the number of leading zeros.
  function Recode(s: Digits, from: nat, to: nat): Digits
    requires to >= 2
  {
    Zeros(LeadingZeros(s)) + Shortest(Value(s, from), to)
  }

  lemma ValueAppend(s: Digits, d: nat, base: nat)
    ensures Value(s + [d], base) == Value(s, base) * base + d
  {
    assert (s + [d])[..|s|] == s;
  }

  lemma {:induction false} ShortestIsNumeral(n: nat, base: nat)
    requires base >= 2
    ensures InBase(Shortest(n, base), base)
    ensures n != 0 ==> Shortest(n, base) != [] && Shortest(n, base)[0] != 0
    ensures Value(Shortest(n, base), base) == n
  {
    if n != 0 {
      Decompose(n, base);
      var q, d := n / base, n % base;
      ShortestIsNumeral(q, base);
      var s := Shortest(q, base);
      ValueAppend(s, d, base);
      assert Shortest(n, base) == s + [d];
      assert s != [] || n == d;
    }
  }

  lemma {:induction false} ValuePositive(s: Digits, base: nat)
    requires base >= 2 && s != [] && s[0] != 0
    ensures Value(s, base) > 0
  {
    if |s| > 1 {
      ValuePositive(s[..|s| - 1], base);
    }
  }

  // A numeral without leading zeros is the shortest one of its value.
  lemma {:induction false} ShortestUnique(s: Digits, base: nat)
    requires base >= 2 && InBase(s, base)
    requires s != [] ==> s[0] != 0
    ensures Shortest(Value(s, base), base) == s
  {
    if s != [] {
      var init, d := s[..|s| - 1], s[|s| - 1];
      ValuePositive(s, base);
      if init != [] {
        assert init[0] == s[0];
      }
      ShortestUnique(init, base);
      QuotientIs(Value(s, base), base, Value(init, base), d);
      assert init + [d] == s;
    }
  }

  lemma {:induction false} ValueSkipsZeros(k: nat, s: Digits, base: nat)
    ensures Value(Zeros(k) + s, base) == Value(s, base)
  {
    if s != [] {
      ValueSkipsZeros(k, s[..|s| - 1], base);
      assert (Zeros(k) + s)[..|Zeros(k) + s| - 1] == Zeros(k) + s[..|s| - 1];
    } else if k != 0 {
      ValueSkipsZeros(k - 1, s, base);
      assert (Zeros(k) + s)[..|Zeros(k) + s| - 1] == Zeros(k - 1) + s;
    }
  }

  lemma {:induction false} LeadingZerosOf(k: nat, s: Digits)
    requires s != [] ==> s[0] != 0
    ensures LeadingZeros(Zeros(k) + s) == k
  {
    if k != 0 {
      assert (Zeros(k) + s)[1..] == Zeros(k - 1) + s;
      LeadingZerosOf(k - 1, s);
    } else {
      assert Zeros(k) + s == s;
    }
  }

  lemma MoreZeros(k: nat, d: Digits)
    ensures [0] + (Zeros(k) + d) == Zeros(k + 1) + d
  {
  }

  lemma {:induction false} SplitLeadingZeros(s: Digits)
    ensures s == Zeros(LeadingZeros(s)) + s[LeadingZeros(s)..]
    ensures LeadingZeros(s) < |s| ==> s[LeadingZeros(s)] != 0
  {
    if s != [] && s[0] == 0 {
      var rest := s[1..];
      SplitLeadingZeros(rest);
      MoreZeros(LeadingZeros(rest), rest[LeadingZeros(rest)..]);
      assert s == [0] + rest;
      assert s[LeadingZeros(s)..] == rest[LeadingZeros(rest)..];
    }
  }

  lemma ZeroPrefix(s: Digits, k: nat)
    requires k <= LeadingZeros(s)
    ensures k < |s| && s[k] == 0 <==> k < LeadingZeros(s)
  {
    SplitLeadingZeros(s);
  }

  lemma RecodeKeeps(s: Digits, from: nat, to: nat)
    requires from >= 2 && to >= 2
    ensures InBase(Recode(s, from, to), to)
    ensures LeadingZeros(Recode(s, from, to)) == LeadingZeros(s)
    ensures Value(Recode(s, from, to), to) == Value(s, from)
  {
    var digits := Shortest(Value(s, from), to);
    ShortestIsNumeral(Value(s, from), to);
    LeadingZerosOf(LeadingZeros(s), digits);
    ValueSkipsZeros(LeadingZeros(s), digits, to);
  }

  lemma RecodeSelf(s: Digits, base: nat)
    requires base >= 2 && InBase(s, base)
    ensures Recode(s, base, base) == s
  {
    var z := LeadingZeros(s);
    SplitLeadingZeros(s);
    ValueSkipsZeros(z, s[z..], base);
    ShortestUnique(s[z..], base);
  }

  // Recoding is invertible: one base's numerals are in bijection with another's.
  lemma RecodeInverse(s: Digits, from: nat, to: nat)
    requires from >= 2 && to >= 2 && InBase(s, from)
    ensures InBase(Recode(s, from, to), to)
    ensures Recode(Recode(s, from, to), to, from) == s
  {
    RecodeKeeps(s, from, to);
    RecodeSelf(s, from);
  }

  lemma {:induction false} RecodeEmpty(s: Digits, from: nat, to: nat)
    requires from >= 2 && to >= 2 && InBase(s, from)
    ensures Recode(s, from, to) == [] <==> s == []
  {
    RecodeInverse(s, from, to);
  }

  // Leading digits of a number are the digits of its quotient.
  lemma {:induction false} ShortestPrefix(n: nat, k: nat, base: nat, p: nat, q: nat)
    requires base >= 2 && p == Power(base, k) && p > 0 && q == n / p && q != 0
    ensures Shortest(q, base) <= Shortest(n, base)
    ensures |Shortest(n, base)| == |Shortest(q, base)| + k
    decreases k
  {
    if k != 0 {
      var p' := Power(base, k - 1);
      PowerPositive(base, k - 1);
      DivDiv(n, base, p');
      ZeroQuotient(n, p);
      var m := n / base;
      assert m / p' == q;
      ShortestPrefix(m, k - 1, base, p', q);
      PeelShortest(n, base);
    } else {
      assert n / 1 == n;
    }
  }

  lemma PeelShortest(n: nat, base: nat)
    requires base >= 2 && n != 0
    ensures Shortest(n / base, base) <= Shortest(n, base)
    ensures |Shortest(n, base)| == |Shortest(n / base, base)| + 1
  {
  }

  lemma ZeroQuotient(n: nat, p: nat)
    requires p > 0 && n / p != 0
    ensures n != 0
  {
  }

  lemma {:induction false} ValueConcat(a: Digits, b: Digits, base: nat)
    ensures Value(a + b, base) == Value(a, base) * Power(base, |b|) + Value(b, base)
    decreases |b|
  {
    if b == [] {
      assert a + b == a;
    } else {
      var init, d := b[..|b| - 1], b[|b| - 1];
      ValueConcat(a, init, base);
      assert a + b == (a + init) + [d];
      ValueAppend(a + init, d, base);
      var va, vi, p := Value(a, base), Value(init, base), Power(base, |init|);
      Distribute(va, p, vi, base, d);
      assert Value(b, base) == vi * base + d && Power(base, |b|) == base * p;
    }
  }

  lemma Distribute(a: nat, p: nat, v: nat, base: nat, d: nat)
    ensures (a * p + v) * base + d == a * (base * p) + (v * base + d)
  {
    assert (a * p + v) * base == a * p * base + v * base;
    assert a * p * base == a * (p * base);
  }

  lemma {:induction false} ValueBound(s: Digits, base: nat)
    requires InBase(s, base)
    ensures Value(s, base) < Power(base, |s|)
  {
    if s != [] {
      var init, d := s[..|s| - 1], s[|s| - 1];
      ValueBound(init, base);
      BoundStep(Value(init, base), Power(base, |init|), base, d);
    }
  }

  lemma BoundStep(v: nat, p: nat, base: nat, d: nat)
    requires v < p && d < base
    ensures v * base + d < base * p
  {
    assert v * base <= (p - 1) * base;
    assert (p - 1) * base == base * p - base;
  }

  function Power(base: nat, k: nat): nat {
    if k == 0 then 1 else base * Power(base, k - 1)
  }

  lemma {:induction false} PowerAdd(base: nat, a: nat, b: nat)
    ensures Power(base, a + b) == Power(base, a) * Power(base, b)
  {
    if a != 0 {
      PowerAdd(base, a - 1, b);
      assert base * Power(base, a - 1) * Power(base, b) == base * (Power(base, a - 1) * Power(base, b));
    }
  }

  lemma {:induction false} PowerPositive(base: nat, k: nat)
    requires base > 0
    ensures Power(base, k) > 0
  {
    if k != 0 {
      PowerPositive(base, k - 1);
    }
  }

  // A number below a power has no more digits than its exponent.
  lemma {:induction false} LengthBound(n: nat, base: nat, k: nat)
    requires base >= 2 && n < Power(base, k)
    ensures |Shortest(n, base)| <= k
    decreases k
  {
    if k != 0 && n != 0 {
      DivideBound(n, base, Power(base, k - 1));
      LengthBound(n / base, base, k - 1);
    }
  }

  lemma DivideBound(n: nat, base: nat, p: nat)
    requires base >= 2 && n < base * p
    ensures n / base < p
  {
    var q := n / base;
    assert n == q * base + n % base;
    if q >= p {
      MulMonotone(base, p, q);
    }
  }

  lemma {:induction false} WidePower(base: nat, wide: nat, k: nat)
    requires wide <= base * base
    ensures Power(wide, k) <= Power(base, 2 * k)
  {
    if k != 0 {
      WidePower(base, wide, k - 1);
      WideFactor(base, wide, Power(wide, k - 1), Power(base, 2 * k - 2));
      assert Power(base, 2 * k) == base * Power(base, 2 * k - 1);
    }
  }

  lemma WideFactor(base: nat, wide: nat, p: nat, q: nat)
    requires wide <= base * base && p <= q
    ensures wide * p <= base * (base * q)
  {
    MulMonotone(wide, p, q);
    MulMonotone(q, wide, base * base);
    assert q * (base * base) == base * (base * q);
  }

  // Two digits in a base carry at least one digit of its square or less.
  lemma TwoDigitsPerWideDigit(n: nat, base: nat, wide: nat)
    requires base >= 2 && wide >= 2 && wide <= base * base
    ensures |Shortest(n, base)| <= 2 * |Shortest(n, wide)|
  {
    var digits := Shortest(n, wide);
    WidePower(base, wide, |digits|);
    ShortestIsNumeral(n, wide);
    ValueBound(digits, wide);
    LengthBound(n, base, 2 * |digits|);
  }
}

module Base58 {
  import opened Division
  import opened Radix

  type byte = b: nat | b < 256

  datatype Result<+T> = Ok(value: T) | Err(error: Error)
  datatype Error =
    | Empty
    | InvalidCharacter(offset: nat)
    | NotDidKey
    | NotMultibase
    | NotCanonical
    | NotEd25519
    | KidMismatch
    | InvalidDid
    | KeySize

  const UPPER := "123456789ABCDEFGHJKLMNPQRSTUVWXYZ"
  const LOWER := "abcdefghijkmnopqrstuvwxyz"
  const ALPHABET := UPPER + LOWER

  // The ranges ALPHABET lists; AlphabetRanges shows they are the same characters.
  predicate IsAlphabet(c: char) {
    || '1' <= c <= '9' || 'A' <= c <= 'H' || 'J' <= c <= 'N' || 'P' <= c <= 'Z'
    || 'a' <= c <= 'k' || 'm' <= c <= 'z'
  }

  predicate IsText(s: string) { forall i :: 0 <= i < |s| ==> IsAlphabet(s[i]) }

  // Position of a character in the alphabet.
  function IndexOf(c: char): (i: nat)
    requires IsAlphabet(c)
    ensures i < 58
  {
    if c <= '9' then c as int - '1' as int
    else if c <= 'H' then 9 + c as int - 'A' as int
    else if c <= 'N' then 17 + c as int - 'J' as int
    else if c <= 'Z' then 22 + c as int - 'P' as int
    else if c <= 'k' then 33 + c as int - 'a' as int
    else 44 + c as int - 'm' as int
  }

  function CharAt(i: nat): (c: char)
    requires i < 58
    ensures IsAlphabet(c) && IndexOf(c) == i
  {
    if i < 9 then '1' + i as char
    else if i < 17 then 'A' + (i - 9) as char
    else if i < 22 then 'J' + (i - 17) as char
    else if i < 33 then 'P' + (i - 22) as char
    else if i < 44 then 'a' + (i - 33) as char
    else 'm' + (i - 44) as char
  }

  lemma UpperAt(i: nat)
    requires i < 33
    ensures |UPPER| == 33 && UPPER[i] == CharAt(i)
  {
  }

  lemma LowerAt(i: nat)
    requires i < 25
    ensures |LOWER| == 25 && LOWER[i] == CharAt(33 + i)
  {
  }

  lemma AlphabetAt(i: nat)
    requires i < 58
    ensures |ALPHABET| == 58 && ALPHABET[i] == CharAt(i)
  {
    UpperAt(if i < 33 then i else 0);
    LowerAt(if i < 33 then 0 else i - 33);
  }

  lemma AlphabetRanges(c: char)
    ensures IsAlphabet(c) <==> c in ALPHABET
  {
    if IsAlphabet(c) {
      AlphabetAt(IndexOf(c));
    }
    if c in ALPHABET {
      var i :| 0 <= i < |ALPHABET| && ALPHABET[i] == c;
      AlphabetAt(i);
    }
  }

  ghost function Indexes(s: string): (d: Digits)
    requires IsText(s)
    ensures |d| == |s| && InBase(d, 58)
  {
    seq(|s|, i requires 0 <= i < |s| => IndexOf(s[i]))
  }

  ghost function Text(d: Digits): (s: string)
    requires InBase(d, 58)
    ensures |s| == |d| && IsText(s)
  {
    seq(|d|, i requires 0 <= i < |d| => CharAt(d[i]))
  }

  lemma IndexesOfText(d: Digits)
    requires InBase(d, 58)
    ensures Indexes(Text(d)) == d
  {
  }

  // What the encoder is meant to write.
  ghost function Encoding(value: seq<byte>): (s: string)
    ensures IsText(s)
  {
    RecodeInverse(value, 256, 58);
    Text(Recode(value, 256, 58))
  }

  // What the decoder is meant to answer: the first offending offset, or the bytes.
  ghost function Decoding(s: string): (r: Result<seq<byte>>)
    ensures r.Ok? <==> s != [] && IsText(s)
  {
    if s == [] then Err(Empty)
    else if IsText(s) then
      RecodeInverse(Indexes(s), 58, 256);
      Ok(Recode(Indexes(s), 58, 256))
    else
      Err(InvalidCharacter(FirstBad(s)))
  }

  ghost function FirstBad(s: string): (i: nat)
    requires !IsText(s)
    ensures i < |s| && !IsAlphabet(s[i])
    ensures forall k :: 0 <= k < i ==> IsAlphabet(s[k])
  {
    FirstBadFrom(s, 0)
  }

  ghost function FirstBadFrom(s: string, i: nat): (b: nat)
    requires !IsText(s) && i <= |s|
    requires forall k :: 0 <= k < i ==> IsAlphabet(s[k])
    ensures b < |s| && !IsAlphabet(s[b])
    ensures forall k :: 0 <= k < b ==> IsAlphabet(s[k])
    decreases |s| - i
  {
    if IsAlphabet(s[i]) then FirstBadFrom(s, i + 1) else i
  }

  // Decoding undoes encoding on every non-empty byte string.
  lemma DecodeEncode(value: seq<byte>)
    requires value != []
    ensures Decoding(Encoding(value)) == Ok(value)
  {
    var d := Recode(value, 256, 58);
    RecodeInverse(value, 256, 58);
    RecodeEmpty(value, 256, 58);
    IndexesOfText(d);
  }

  // Encoding undoes decoding on every text the decoder accepts, so the
  // canonical-form test after a decode never refuses anything.
  lemma EncodeDecode(s: string)
    requires Decoding(s).Ok?
    ensures s != [] && IsText(s) && Decoding(s).value != []
    ensures Encoding(Decoding(s).value) == s
  {
    RecodeInverse(Indexes(s), 58, 256);
    RecodeEmpty(Indexes(s), 58, 256);
    assert Text(Indexes(s)) == s;
  }

  // The encoder never outgrows the buffer it allocates.
  lemma EncodingLength(value: seq<byte>)
    ensures |Encoding(value)| <= 2 * |value|
  {
    var z, n := LeadingZeros(value), Value(value, 256);
    SplitLeadingZeros(value);
    ValueSkipsZeros(z, value[z..], 256);
    ShortestUnique(value[z..], 256);
    TwoDigitsPerWideDigit(n, 58, 256);
  }

  // `written` is the numeral `d` with its last digit first.
  ghost predicate Backwards(written: string, d: Digits) {
    && InBase(d, 58)
    && |written| == |d|
    && forall i :: 0 <= i < |d| ==> written[i] == CharAt(d[|d| - 1 - i])
  }

  lemma WriteDigit(written: string, d: Digits, digit: nat)
    requires Backwards(written, d) && digit < 58
    ensures Backwards(written + [CharAt(digit)], [digit] + d)
  {
  }

  lemma ReadBackwards(written: string, d: Digits, text: string)
    requires Backwards(written, d) && |text| == |written|
    requires forall i :: 0 <= i < |text| ==> text[i] == written[|text| - 1 - i]
    ensures text == Text(d)
  {
  }

  lemma PeelDigit(n: nat, base: nat, d: Digits)
    requires base >= 2 && n != 0
    ensures Shortest(n, base) + d == Shortest(n / base, base) + ([n % base] + d)
  {
  }

  method EncodeBase58BTC(value: seq<byte>) returns (encoded: string)
    ensures encoded == Encoding(value)
  {
    ghost var n := Value(value, 256);
    var number := Value(value, 256);
    encoded := [];
    ghost var d: Digits := [];
    while number > 0
      invariant Shortest(n, 58) == Shortest(number, 58) + d
      invariant Backwards(encoded, d)
    {
      var remainder := number % 58;
      AlphabetAt(remainder);
      PeelDigit(number, 58, d);
      WriteDigit(encoded, d, remainder);
      encoded := encoded + [ALPHABET[remainder]];
      d := [remainder] + d;
      number := number / 58;
    }
    assert d == Zeros(0) + Shortest(n, 58);
    var k := 0;
    ZeroPrefix(value, 0);
    while k < |value| && value[k] == 0
      invariant k <= LeadingZeros(value)
      invariant d == Zeros(k) + Shortest(n, 58)
      invariant Backwards(encoded, d)
    {
      ZeroPrefix(value, k);
      MoreZeros(k, Shortest(n, 58));
      WriteDigit(encoded, d, 0);
      AlphabetAt(0);
      encoded := encoded + [ALPHABET[0]];
      d := [0] + d;
      k := k + 1;
    }
    ZeroPrefix(value, k);
    assert d == Recode(value, 256, 58);
    var text := ReverseText(encoded);
    ReadBackwards(encoded, d, text);
    encoded := text;
  }

  // Swaps from both ends towards the middle.
  method ReverseText(text: string) returns (r: string)
    ensures |r| == |text|
    ensures forall i :: 0 <= i < |text| ==> r[i] == text[|text| - 1 - i]
  {
    r := text;
    var left, right := 0, |r| - 1;
    while left < right
      invariant 0 <= left <= right + 1 && right == |text| - 1 - left && |r| == |text|
      invariant forall i :: 0 <= i < left ==> r[i] == text[|text| - 1 - i]
      invariant forall i :: left <= i <= right ==> r[i] == text[i]
      invariant forall i :: right < i < |text| ==> r[i] == text[|text| - 1 - i]
    {
      var low, high := r[left], r[right];
      r := r[left := high];
      r := r[right := low];
      left, right := left + 1, right - 1;
    }
  }

  lemma OnlyLetterAt(letter: char, i: nat)
    requires i < 58 && letter == CharAt(i)
    ensures forall c :: IsAlphabet(c) && IndexOf(c) == i ==> c == letter
  {
  }

  method AlphabetIndexes() returns (table: map<char, nat>)
    ensures forall c :: c in table <==> IsAlphabet(c)
    ensures forall c :: c in table ==> table[c] == IndexOf(c)
  {
    AlphabetAt(0);
    table := map[];
    for i := 0 to |ALPHABET|
      invariant forall c :: c in table <==> IsAlphabet(c) && IndexOf(c) < i
      invariant forall c :: c in table ==> table[c] == IndexOf(c)
    {
      AlphabetAt(i);
      var letter := ALPHABET[i];
      OnlyLetterAt(letter, i);
      table := table[letter := i];
    }
  }

  lemma NextIndex(s: string, i: nat)
    requires i < |s| && IsText(s[..i]) && IsAlphabet(s[i])
    ensures IsText(s[..i + 1])
    ensures Value(Indexes(s[..i + 1]), 58) == Value(Indexes(s[..i]), 58) * 58 + IndexOf(s[i])
  {
    assert s[..i + 1] == s[..i] + [s[i]];
    assert Indexes(s[..i + 1]) == Indexes(s[..i]) + [IndexOf(s[i])];
    ValueAppend(Indexes(s[..i]), IndexOf(s[i]), 58);
  }

  lemma OnesAreZeros(s: string, k: nat)
    requires IsText(s) && k <= LeadingZeros(Indexes(s))
    ensures k < |s| && s[k] == ALPHABET[0] <==> k < LeadingZeros(Indexes(s))
  {
    ZeroPrefix(Indexes(s), k);
    AlphabetAt(0);
  }

  lemma DecodingIs(s: string, decoded: Digits)
    requires s != [] && IsText(s)
    requires decoded == Zeros(LeadingZeros(Indexes(s))) + Shortest(Value(Indexes(s), 58), 256)
    ensures InBase(decoded, 256)
    ensures Decoding(s) == Ok(decoded)
  {
    RecodeInverse(Indexes(s), 58, 256);
  }

  method DecodeBase58BTC(value: string) returns (r: Result<seq<byte>>)
    ensures r == Decoding(value)
  {
    if value == "" {
      return Err(Empty);
    }
    var table := AlphabetIndexes();
    var number: nat := 0;
    for i := 0 to |value|
      invariant IsText(value[..i])
      invariant number == Value(Indexes(value[..i]), 58)
    {
      if value[i] !in table {
        FirstBadUnique(value, i);
        return Err(InvalidCharacter(i));
      }
      NextIndex(value, i);
      number := number * 58 + table[value[i]];
    }
    assert value[..|value|] == value;
    var decoded: Digits := Shortest(number, 256);
    var k := 0;
    while k < |value| && value[k] == ALPHABET[0]
      invariant k <= LeadingZeros(Indexes(value))
      invariant decoded == Zeros(k) + Shortest(number, 256)
    {
      OnesAreZeros(value, k);
      MoreZeros(k, Shortest(number, 256));
      decoded := [0] + decoded;
      k := k + 1;
    }
    OnesAreZeros(value, k);
    DecodingIs(value, decoded);
    r := Ok(decoded);
  }

  lemma FirstBadUnique(s: string, i: nat)
    requires i < |s| && !IsAlphabet(s[i]) && IsText(s[..i])
    ensures !IsText(s) && FirstBad(s) == i
  {
    forall k | 0 <= k < i
      ensures IsAlphabet(s[k])
    {
      assert s[..i][k] == s[k];
    }
  }
}

module DidKey {
  import opened Division
  import opened Radix
  import opened Base58

  type PublicKey = k: seq<byte> | |k| == 32 witness seq(32, _ => 0)

  // ed25519-pub multicodec varint.
  const PREFIX: seq<byte> := [0xed, 0x01]
  const SCHEME := "did:key:"
  const MAX_DID_LENGTH := 128

  ghost function Multibase(key: PublicKey): string { "z" + Encoding(PREFIX + key) }

  ghost function DidOf(key: PublicKey): string { SCHEME + Multibase(key) }

  method FromPublicKey(key: seq<byte>) returns (r: Result<string>)
    ensures |key| != 32 ==> r == Err(KeySize)
    ensures |key| == 32 ==> r == Ok(DidOf(key))
  {
    if |key| != 32 {
      return Err(KeySize);
    }
    var encoded := EncodeBase58BTC(PREFIX + key);
    assert "did:key:z" == SCHEME + "z";
    assert "did:key:z" + encoded == DidOf(key);
    r := Ok("did:key:z" + encoded);
  }

  // Unicode White_Space.
  predicate IsSpace(c: char) {
    || '\t' <= c <= '\r' || c == ' ' || c == '\U{0085}' || c == '\U{00a0}' || c == '\U{1680}'
    || '\U{2000}' <= c <= '\U{200a}' || c == '\U{2028}' || c == '\U{2029}' || c == '\U{202f}'
    || c == '\U{205f}' || c == '\U{3000}'
  }

  function TrimLeft(s: string): string {
    if s != [] && IsSpace(s[0]) then TrimLeft(s[1..]) else s
  }

  function TrimRight(s: string): string {
    if s != [] && IsSpace(s[|s| - 1]) then TrimRight(s[..|s| - 1]) else s
  }

  function TrimSpace(s: string): string { TrimRight(TrimLeft(s)) }

  lemma {:induction false} TrimPadding(left: string, s: string, right: string)
    requires forall i :: 0 <= i < |left| ==> IsSpace(left[i])
    requires forall i :: 0 <= i < |right| ==> IsSpace(right[i])
    requires s != [] && !IsSpace(s[0]) && !IsSpace(s[|s| - 1])
    ensures TrimSpace(left + s + right) == s
    decreases |left| + |right|
  {
    if left != [] {
      assert (left + s + right)[1..] == left[1..] + s + right;
      TrimPadding(left[1..], s, right);
    } else if right != [] {
      var all, shorter := left + s + right, left + s + right[..|right| - 1];
      assert all[..|all| - 1] == shorter;
      assert all[0] == s[0] && shorter[0] == s[0];
      TrimPadding(left, s, right[..|right| - 1]);
    } else {
      assert left + s + right == s;
    }
  }

  // Trimming takes whitespace off both ends, and nothing else.
  lemma {:induction false} TrimSplits(s: string) returns (left: string, right: string)
    ensures s == left + TrimSpace(s) + right
    ensures forall c :: c in left || c in right ==> IsSpace(c)
    ensures TrimSpace(s) != [] ==> !IsSpace(TrimSpace(s)[0]) && !IsSpace(TrimSpace(s)[|TrimSpace(s)| - 1])
  {
    left := LeftSplits(s);
    right := RightSplits(TrimLeft(s));
  }

  lemma {:induction false} LeftSplits(s: string) returns (left: string)
    ensures s == left + TrimLeft(s) && forall c :: c in left ==> IsSpace(c)
    ensures TrimLeft(s) != [] ==> !IsSpace(TrimLeft(s)[0])
  {
    left := "";
    if s != [] && IsSpace(s[0]) {
      left := LeftSplits(s[1..]);
      left := [s[0]] + left;
    }
  }

  lemma {:induction false} RightSplits(s: string) returns (right: string)
    ensures s == TrimRight(s) + right && forall c :: c in right ==> IsSpace(c)
    ensures TrimRight(s) != [] ==> !IsSpace(TrimRight(s)[|TrimRight(s)| - 1]) && TrimRight(s)[0] == s[0]
  {
    right := "";
    if s != [] && IsSpace(s[|s| - 1]) {
      right := RightSplits(s[..|s| - 1]);
      right := right + [s[|s| - 1]];
    }
  }

  lemma MultikeyRoundTrip(key: PublicKey)
    ensures Multibase(key)[1..] == Encoding(PREFIX + key)
    ensures Encoding(PREFIX + key) != []
    ensures Decoding(Encoding(PREFIX + key)) == Ok(PREFIX + key)
  {
    DecodeEncode(PREFIX + key);
    EncodeDecode(Encoding(PREFIX + key));
  }

  // Surrounding whitespace, and nothing else, is forgiven.
  lemma DidSurvivesPadding(key: PublicKey, left: string, right: string)
    requires forall i :: 0 <= i < |left| ==> IsSpace(left[i])
    requires forall i :: 0 <= i < |right| ==> IsSpace(right[i])
    ensures TrimSpace(left + DidOf(key) + right) == DidOf(key)
  {
    var did, body := DidOf(key), Encoding(PREFIX + key);
    MultikeyRoundTrip(key);
    assert did[0] == 'd' && did[|did| - 1] == body[|body| - 1];
    AlphabetIsNotSpace(body[|body| - 1]);
    TrimPadding(left, did, right);
  }

  lemma AlphabetIsNotSpace(c: char)
    requires IsAlphabet(c)
    ensures !IsSpace(c)
  {
  }

  lemma DidInjective(a: PublicKey, b: PublicKey)
    requires DidOf(a) == DidOf(b)
    ensures a == b
  {
    MultikeyRoundTrip(a);
    MultikeyRoundTrip(b);
    assert DidOf(a)[|SCHEME|..] == Multibase(a) && DidOf(b)[|SCHEME|..] == Multibase(b);
    assert a == (PREFIX + a)[2..] && b == (PREFIX + b)[2..];
  }

  lemma PowersOf256()
    ensures Power(256, 32) == 115792089237316195423570985008687907853269984665640564039457584007913129639936
  {
    PowerAdd(256, 8, 8);
    PowerAdd(256, 16, 16);
    assert Power(256, 8) == 18446744073709551616;
  }

  lemma PowersOf58()
    ensures Power(58, 44) == 389790918707373377135528568990913592653094657612049369038476873218241589149696
  {
    PowerAdd(58, 11, 11);
    PowerAdd(58, 22, 22);
    assert Power(58, 11) == 24986644000165537792;
  }

  lemma PrefixValue()
    ensures Value(PREFIX, 256) == 0xed01
  {
    ValueAppend([], 0xed, 256);
    ValueAppend([0xed], 0x01, 256);
    assert [] + [0xed] == [0xed] && PREFIX == [0xed] + [0x01];
  }

  // The multicodec prefix fixes the order of magnitude of the whole number.
  lemma MultikeyRange(key: PublicKey)
    ensures 0xed01 * 115792089237316195423570985008687907853269984665640564039457584007913129639936 <= Value(PREFIX + key, 256) < 0xed02 * 115792089237316195423570985008687907853269984665640564039457584007913129639936
  {
    ValueConcat(PREFIX, key, 256);
    ValueBound(key, 256);
    PrefixValue();
    PowersOf256();
  }

  lemma MultikeyDigits(n: nat)
    requires 0xed01 * 115792089237316195423570985008687907853269984665640564039457584007913129639936 <= n < 0xed02 * 115792089237316195423570985008687907853269984665640564039457584007913129639936
    ensures [5, 20, 43] <= Shortest(n, 58) && |Shortest(n, 58)| == 47
  {
    var p: nat := 389790918707373377135528568990913592653094657612049369038476873218241589149696;
    PowersOf58();
    QuotientIs(n, p, 18023, n - 18023 * p);
    assert Shortest(18023, 58) == [5, 20, 43];
    ShortestPrefix(n, 44, 58, p, 18023);
  }

  lemma TextStart(d: Digits)
    requires InBase(d, 58) && [5, 20, 43] <= d
    ensures "did:key:z6Mk" <= "did:key:z" + Text(d)
  {
    var t := Text(d);
    assert d[0] == 5 && d[1] == 20 && d[2] == 43;
    assert t[0] == '6' && t[1] == 'M' && t[2] == 'k';
    assert t == "6Mk" + t[3..];
    assert "did:key:z" + ("6Mk" + t[3..]) == "did:key:z6Mk" + t[3..];
  }

  // Every administrator DID starts the way the wallet binding table demands.
  lemma DidStartsZ6Mk(key: PublicKey)
    ensures |DidOf(key)| == 56 && "did:key:z6Mk" <= DidOf(key)
  {
    var bytes := PREFIX + key;
    var d := Shortest(Value(bytes, 256), 58);
    MultikeyRange(key);
    MultikeyDigits(Value(bytes, 256));
    assert bytes[0] == 0xed;
    RecodeInverse(bytes, 256, 58);
    assert Recode(bytes, 256, 58) == d;
    TextStart(d);
    assert DidOf(key) == "did:key:z" + Text(d);
  }

  method DecodeEd25519Multikey(multibase: string) returns (r: Result<seq<byte>>)
    ensures forall key: PublicKey :: multibase == Multibase(key) ==> r == Ok(key)
    ensures r.Ok? ==> |r.value| == 32 && multibase == Multibase(r.value)
    ensures r != Err(NotCanonical)
  {
    forall key: PublicKey | multibase == Multibase(key)
      ensures Decoding(multibase[1..]) == Ok(PREFIX + key) && |multibase| >= 2
    {
      MultikeyRoundTrip(key);
    }
    if |multibase| < 2 || multibase[0] != 'z' {
      return Err(NotMultibase);
    }
    var decoded := DecodeBase58BTC(multibase[1..]);
    if decoded.Err? {
      return decoded;
    }
    var again := EncodeBase58BTC(decoded.value);
    EncodeDecode(multibase[1..]);
    if again != multibase[1..] {
      return Err(NotCanonical);
    }
    var bytes := decoded.value;
    if |bytes| != 34 || bytes[0] != 0xed || bytes[1] != 0x01 {
      return Err(NotEd25519);
    }
    assert bytes == PREFIX + bytes[2..];
    assert multibase == "z" + multibase[1..];
    r := Ok(bytes[2..]);
  }

  method ResolveAuthenticationKey(did: string, kid: string) returns (r: Result<seq<byte>>)
    ensures forall key: PublicKey :: did == DidOf(key) && kid == did + "#" + Multibase(key) ==> r == Ok(key)
    ensures r.Ok? ==> |r.value| == 32 && did == DidOf(r.value) && kid == did + "#" + Multibase(r.value)
  {
    if !(SCHEME <= did) || did == SCHEME {
      return Err(NotDidKey);
    }
    var multibase := did[|SCHEME|..];
    assert did == SCHEME + multibase;
    var key := DecodeEd25519Multikey(multibase);
    if key.Err? {
      return key;
    }
    if kid != did + "#" + multibase {
      return Err(KidMismatch);
    }
    r := key;
  }

  // Accepts the administrator DIDs FromPublicKey can produce, and only those,
  // up to surrounding whitespace.
  method ValidateAdminDID(value: string) returns (r: Result<string>)
    ensures r.Ok? <==> exists key: PublicKey :: TrimSpace(value) == DidOf(key)
    ensures r.Ok? ==> r.value == TrimSpace(value)
    ensures r.Err? ==> r == Err(InvalidDid)
  {
    var did := TrimSpace(value);
    forall key: PublicKey | did == DidOf(key)
      ensures |did| <= MAX_DID_LENGTH && SCHEME + "z" <= did
      ensures did[|SCHEME|..] == Multibase(key)
    {
      EncodingLength(PREFIX + key);
    }
    if |did| > MAX_DID_LENGTH || !("did:key:z" <= did) {
      assert "did:key:z" == SCHEME + "z";
      return Err(InvalidDid);
    }
    var key := ResolveAuthenticationKey(did, did + "#" + did[|SCHEME|..]);
    if key.Err? {
      return Err(InvalidDid);
    }
    r := Ok(did);
  }
}
