/** The wallet check: a string is accepted if and only if it is the base58 encoding of 32 bytes
    (solana_agent/authority/policy.py, solana_agent/contracts/mission.py). */
module Base58 {

  // ---------- positional notation ----------

  type Base = b: nat | b >= 2 witness 2

  ghost predicate AreDigits(base: Base, d: seq<nat>) {
    forall k :: 0 <= k < |d| ==> d[k] < base
  }

  /** The number that digits denote, most significant first. */
  function Value(base: Base, d: seq<nat>): nat {
    if d == [] then 0 else Value(base, d[..|d| - 1]) * base + d[|d| - 1]
  }

  /** The digits of a number, without leading zeros; none for zero. */
  function Digits(base: Base, n: nat): seq<nat>
    decreases n
  {
    if n == 0 then [] else
      Smaller(base, n);
      Digits(base, n / base) + [n % base]
  }

  function Zeros(k: nat): seq<nat> {
    seq(k, _ => 0)
  }

  function LeadingZeros(d: seq<nat>): (k: nat)
    ensures k <= |d| && (forall j :: 0 <= j < k ==> d[j] == 0) && (k < |d| ==> d[k] != 0)
  {
    if d == [] || d[0] != 0 then 0 else 1 + LeadingZeros(d[1..])
  }

  lemma Smaller(base: Base, n: nat)
    requires n > 0
    ensures 0 <= n / base < n
  {
    if n / base >= n {
      assert base * (n / base) + n % base == n;
      assert base * (n / base) >= 2 * n by { ProductGrows(base, n / base, n); }
    }
  }

  lemma ProductGrows(base: nat, a: nat, b: nat)
    requires base >= 2 && a >= b
    ensures base * a >= 2 * b
  {
    assert base * a == 2 * a + (base - 2) * a;
  }

  lemma DivideShifted(base: Base, v: nat, x: nat)
    requires x < base
    ensures (v * base + x) / base == v && (v * base + x) % base == x
  {
    var n := v * base + x;
    var q, r := n / base, n % base;
    assert n == q * base + r;
    if q > v {
      assert (q - v) * base >= base by { Times(q - v, base); }
    } else if q < v {
      assert (v - q) * base >= base by { Times(v - q, base); }
    }
  }

  lemma Times(k: nat, base: nat)
    requires k >= 1
    ensures k * base >= base
  {
  }

  lemma Recompose(base: Base, n: nat)
    ensures n == (n / base) * base + n % base && n % base < base
  {
  }

  lemma {:induction false} ValueOfDigits(base: Base, n: nat)
    ensures AreDigits(base, Digits(base, n)) && Value(base, Digits(base, n)) == n
    ensures n > 0 ==> Digits(base, n) != [] && Digits(base, n)[0] != 0
    decreases n
  {
    if n > 0 {
      Smaller(base, n);
      ValueOfDigits(base, n / base);
      var d := Digits(base, n);
      assert d[..|d| - 1] == Digits(base, n / base);
      Recompose(base, n);
    }
  }

  lemma {:induction false} ValueIgnoresLeadingZeros(base: Base, k: nat, d: seq<nat>)
    ensures Value(base, Zeros(k) + d) == Value(base, d)
    decreases k + |d|
  {
    var z := Zeros(k) + d;
    if d != [] {
      assert z[..|z| - 1] == Zeros(k) + d[..|d| - 1];
      ValueIgnoresLeadingZeros(base, k, d[..|d| - 1]);
    } else if k > 0 {
      assert z[..|z| - 1] == Zeros(k - 1) + d;
      ValueIgnoresLeadingZeros(base, k - 1, d);
    }
  }

  lemma {:induction false} DigitsOfValue(base: Base, d: seq<nat>)
    requires AreDigits(base, d) && (d == [] || d[0] != 0)
    ensures Digits(base, Value(base, d)) == d
    ensures d != [] ==> Value(base, d) > 0
    decreases |d|
  {
    if d != [] {
      var init, last := d[..|d| - 1], d[|d| - 1];
      DigitsOfValue(base, init);
      DivideShifted(base, Value(base, init), last);
      if init != [] {
        Times(Value(base, init), base);
      }
      assert d == init + [last];
    }
  }

  /** Digits are leading zeros followed by the digits of their value. */
  lemma DigitsAreCanonical(base: Base, d: seq<nat>)
    requires AreDigits(base, d)
    ensures d == Zeros(LeadingZeros(d)) + Digits(base, Value(base, d))
  {
    var k := LeadingZeros(d);
    assert d == Zeros(k) + d[k..];
    ValueIgnoresLeadingZeros(base, k, d[k..]);
    DigitsOfValue(base, d[k..]);
  }

  lemma LeadingZerosAre(d: seq<nat>, k: nat)
    requires k <= |d| && (forall j :: 0 <= j < k ==> d[j] == 0) && (k < |d| ==> d[k] != 0)
    ensures LeadingZeros(d) == k
  {
    var l := LeadingZeros(d);
  }

  lemma LeadingZerosOf(k: nat, d: seq<nat>)
    requires d == [] || d[0] != 0
    ensures LeadingZeros(Zeros(k) + d) == k
  {
    LeadingZerosAre(Zeros(k) + d, k);
  }

  /** Changing the base of digits and back, leading zeros kept, gives the digits back. */
  function Rebase(from: Base, to: Base, d: seq<nat>): seq<nat> {
    Zeros(LeadingZeros(d)) + Digits(to, Value(from, d))
  }

  lemma RebaseRoundTrip(from: Base, to: Base, d: seq<nat>)
    requires AreDigits(from, d)
    ensures AreDigits(to, Rebase(from, to, d)) && Rebase(to, from, Rebase(from, to, d)) == d
  {
    var n := Value(from, d);
    ValueOfDigits(to, n);
    LeadingZerosOf(LeadingZeros(d), Digits(to, n));
    ValueIgnoresLeadingZeros(to, LeadingZeros(d), Digits(to, n));
    DigitsAreCanonical(from, d);
  }

  // ---------- the alphabet ----------

  predicate IsSymbol(c: char) {
    '1' <= c <= '9' || 'A' <= c <= 'H' || 'J' <= c <= 'N' || 'P' <= c <= 'Z' || 'a' <= c <= 'k' || 'm' <= c <= 'z'
  }

  /** The symbol at a position of the alphabet. */
  function Symbol(i: nat): (c: char)
    requires i < 58
    ensures IsSymbol(c)
  {
    if i < 9 then '1' + i as char
    else if i < 17 then 'A' + (i - 9) as char
    else if i < 22 then 'J' + (i - 17) as char
    else if i < 33 then 'P' + (i - 22) as char
    else if i < 44 then 'a' + (i - 33) as char
    else 'm' + (i - 44) as char
  }

  /** The position of a symbol in the alphabet. */
  function SymbolIndex(c: char): (i: nat)
    requires IsSymbol(c)
    ensures i < 58 && Symbol(i) == c
  {
    if c <= '9' then (c - '1') as nat
    else if c <= 'H' then 9 + (c - 'A') as nat
    else if c <= 'N' then 17 + (c - 'J') as nat
    else if c <= 'Z' then 22 + (c - 'P') as nat
    else if c <= 'k' then 33 + (c - 'a') as nat
    else 44 + (c - 'm') as nat
  }

  lemma AlphabetHasNoRepetition(i: nat)
    requires i < 58
    ensures SymbolIndex(Symbol(i)) == i
  {
  }

  predicate InAlphabet(s: string) {
    forall c <- s :: IsSymbol(c)
  }

  function Indices(s: string): (d: seq<nat>)
    requires InAlphabet(s)
    ensures |d| == |s| && forall k :: 0 <= k < |s| ==> d[k] == SymbolIndex(s[k])
  {
    seq(|s|, k requires 0 <= k < |s| => SymbolIndex(s[k]))
  }

  function Symbols(d: seq<nat>): (s: string)
    requires forall k :: 0 <= k < |d| ==> d[k] < 58
    ensures |s| == |d| && forall k :: 0 <= k < |d| ==> s[k] == Symbol(d[k])
  {
    seq(|d|, k requires 0 <= k < |d| => Symbol(d[k]))
  }

  lemma SymbolsOfIndices(s: string)
    requires InAlphabet(s)
    ensures AreDigits(58, Indices(s)) && Symbols(Indices(s)) == s
  {
  }

  lemma IndicesOfSymbols(d: seq<nat>)
    requires AreDigits(58, d)
    ensures InAlphabet(Symbols(d)) && Indices(Symbols(d)) == d
  {
    var s := Symbols(d);
    forall c | c in s ensures IsSymbol(c) {
      var k :| 0 <= k < |s| && s[k] == c;
    }
    forall k | 0 <= k < |d| ensures SymbolIndex(s[k]) == d[k] {
      AlphabetHasNoRepetition(d[k]);
    }
  }

  // ---------- encoding ----------

  type Byte = x: nat | x < 256

  /** Base58: leading zero bytes become '1's, the rest is the number in base 58. */
  function Encode(bytes: seq<Byte>): string {
    ValueOfDigits(58, Value(256, bytes));
    Symbols(Rebase(256, 58, bytes))
  }

  function Decode(s: string): seq<nat>
    requires InAlphabet(s)
  {
    Rebase(58, 256, Indices(s))
  }

  lemma DecodeOfEncode(bytes: seq<Byte>)
    ensures InAlphabet(Encode(bytes)) && Decode(Encode(bytes)) == bytes
  {
    RebaseRoundTrip(256, 58, bytes);
    IndicesOfSymbols(Rebase(256, 58, bytes));
  }

  lemma EncodeOfDecode(s: string)
    requires InAlphabet(s)
    ensures (forall k :: 0 <= k < |Decode(s)| ==> Decode(s)[k] < 256) && Encode(Decode(s)) == s
  {
    SymbolsOfIndices(s);
    RebaseRoundTrip(58, 256, Indices(s));
  }

  /** The encoding of exactly one byte string of 32 bytes. */
  ghost predicate IsPublicKey(s: string) {
    exists bytes: seq<Byte> :: |bytes| == 32 && Encode(bytes) == s
  }

  lemma KeyIsUnique(a: seq<Byte>, b: seq<Byte>)
    requires Encode(a) == Encode(b)
    ensures a == b
  {
    DecodeOfEncode(a);
    DecodeOfEncode(b);
  }

  lemma PublicKeyIffDecodesTo32(s: string)
    ensures IsPublicKey(s) <==> InAlphabet(s) && |Decode(s)| == 32
  {
    if IsPublicKey(s) {
      var bytes: seq<Byte> :| |bytes| == 32 && Encode(bytes) == s;
      DecodeOfEncode(bytes);
    }
    if InAlphabet(s) && |Decode(s)| == 32 {
      EncodeOfDecode(s);
      var bytes: seq<Byte> := Decode(s);
      assert Encode(bytes) == s;
    }
  }

  // ---------- the check ----------

  /** int.bit_length for a natural number. */
  function BitLength(n: nat): nat {
    if n == 0 then 0 else 1 + BitLength(n / 2)
  }

  /** The bytes that to_bytes is given room for are the digits in base 256. */
  lemma {:induction false} ByteLength(n: nat)
    ensures (BitLength(n) + 7) / 8 == |Digits(256, n)|
    decreases n
  {
    if n >= 256 {
      EightBits(n);
      ByteLength(n / 256);
    } else if n > 0 {
      ShortBits(n, 8);
      assert Digits(256, n / 256) == [];
    }
  }

  lemma EightBits(n: nat)
    requires n >= 256
    ensures BitLength(n) == 8 + BitLength(n / 256)
  {
    var a, b, c := n / 2, n / 4, n / 8;
    var d, e, f := n / 16, n / 32, n / 64;
    var g := n / 128;
    assert a / 2 == b && b / 2 == c && c / 2 == d && d / 2 == e && e / 2 == f && f / 2 == g && g / 2 == n / 256;
    assert BitLength(n) == 1 + BitLength(a) && BitLength(a) == 1 + BitLength(b) && BitLength(b) == 1 + BitLength(c);
    assert BitLength(c) == 1 + BitLength(d) && BitLength(d) == 1 + BitLength(e) && BitLength(e) == 1 + BitLength(f);
    assert BitLength(f) == 1 + BitLength(g) && BitLength(g) == 1 + BitLength(n / 256);
  }

  function Power(base: nat, e: nat): nat {
    if e == 0 then 1 else base * Power(base, e - 1)
  }

  lemma {:induction false} ShortBits(n: nat, k: nat)
    requires n < Power(2, k)
    ensures BitLength(n) <= k
    decreases k
  {
    if n > 0 && k > 0 {
      assert n / 2 < Power(2, k - 1);
      ShortBits(n / 2, k - 1);
    }
  }

  /** _valid_public_key. */
  method ValidPublicKey(value: string) returns (ok: bool)
    ensures ok <==> IsPublicKey(value)
    ensures ok ==> 32 <= |value| <= 44
  {
    PublicKeyIffDecodesTo32(value);
    if value == "" || exists c <- value :: !IsSymbol(c) {
      return false;
    }
    var number := Number(value);
    var ones := CountOnes(value);
    ByteLength(number);
    ok := ones + (BitLength(number) + 7) / 8 == 32;
    if ok {
      KeyLength(value);
    }
  }

  /** The loop over the symbols. */
  method Number(value: string) returns (number: nat)
    requires InAlphabet(value)
    ensures number == Value(58, Indices(value))
  {
    ghost var d := Indices(value);
    number := 0;
    for i := 0 to |value|
      invariant number == Value(58, d[..i])
    {
      assert d[..i + 1][..i] == d[..i];
      number := number * 58 + SymbolIndex(value[i]);
    }
    assert d[..|value|] == d;
  }

  /** len(value) - len(value.lstrip("1")). */
  method CountOnes(value: string) returns (ones: nat)
    requires InAlphabet(value)
    ensures ones == LeadingZeros(Indices(value))
  {
    ones := 0;
    while ones < |value| && value[ones] == '1'
      invariant ones <= |value| && forall j :: 0 <= j < ones ==> Indices(value)[j] == 0
    {
      ones := ones + 1;
    }
    LeadingZerosAre(Indices(value), ones);
  }

  // ---------- lengths ----------

  lemma {:induction false} DigitsBelowPower(base: Base, n: nat, k: nat)
    ensures |Digits(base, n)| <= k <==> n < Power(base, k)
    decreases n
  {
    if n == 0 {
      PowerPositive(base, k);
    } else if k > 0 {
      Smaller(base, n);
      DigitsBelowPower(base, n / base, k - 1);
      DivideBelow(base, n, Power(base, k - 1));
    }
  }

  lemma {:induction false} PowerPositive(base: Base, k: nat)
    ensures Power(base, k) >= 1
  {
    if k > 0 {
      PowerPositive(base, k - 1);
      Times(Power(base, k - 1), base);
    }
  }

  lemma DivideBelow(base: Base, n: nat, p: nat)
    ensures n / base < p <==> n < base * p
  {
    var q := n / base;
    assert n == base * q + n % base;
    if q < p {
      assert base * (p - q) >= base by { Times(p - q, base); }
      assert base * p == base * q + base * (p - q);
    } else {
      assert base * q == base * p + base * (q - p);
      assert base * (q - p) >= 0;
    }
  }

  lemma {:induction false} PowerSum(base: Base, m: nat, n: nat)
    ensures Power(base, m + n) == Power(base, m) * Power(base, n)
  {
    if m > 0 {
      PowerSum(base, m - 1, n);
      assert m + n - 1 == (m - 1) + n;
      Associate(base, Power(base, m - 1), Power(base, n));
    }
  }

  lemma Associate(a: nat, b: nat, c: nat)
    ensures a * (b * c) == (a * b) * c
  {
  }

  lemma BytePowers()
    ensures Power(256, 32) == 0x1_0000_0000_0000_0000_0000_0000_0000_0000_0000_0000_0000_0000_0000_0000_0000_0000
  {
    assert Power(256, 4) == 0x1_0000_0000;
    PowerSum(256, 4, 4);
    PowerSum(256, 8, 8);
    PowerSum(256, 16, 16);
  }

  lemma SymbolPowers()
    ensures Power(58, 22) == 624332378391008467754527498760580235264
    ensures Power(58, 44) == 389790918707373377135528568990913592653094657612049369038476873218241589149696
  {
    assert Power(58, 5) == 656356768;
    PowerSum(58, 5, 5);
    PowerSum(58, 1, 10);
    PowerSum(58, 11, 11);
    PowerSum(58, 22, 22);
  }

  lemma PowersCompare()
    ensures Power(58, 43) < Power(256, 32) <= Power(58, 44)
  {
    BytePowers();
    SymbolPowers();
    assert Power(58, 44) == 58 * Power(58, 43);
  }

  /** A number of k bytes has at most k + 12 base58 digits. */
  lemma {:induction false} PowersCompareBelow(k: nat)
    requires k <= 32
    ensures Power(256, k) <= Power(58, k + 12)
    decreases 32 - k
  {
    if k == 32 {
      PowersCompare();
    } else {
      PowersCompareBelow(k + 1);
    }
  }

  lemma {:induction false} MoreDigitsInSmallerBase(n: nat)
    ensures |Digits(256, n)| <= |Digits(58, n)|
  {
    var k := |Digits(58, n)|;
    DigitsBelowPower(58, n, k);
    PowerGrowsWithBase(k);
    DigitsBelowPower(256, n, k);
  }

  lemma {:induction false} PowerGrowsWithBase(k: nat)
    ensures Power(58, k) <= Power(256, k)
  {
    if k > 0 { PowerGrowsWithBase(k - 1); }
  }

  lemma KeyLength(s: string)
    requires InAlphabet(s) && |Decode(s)| == 32
    ensures 32 <= |s| <= 44
  {
    var d := Indices(s);
    var z, n := LeadingZeros(d), Value(58, d);
    DigitsAreCanonical(58, d);
    MoreDigitsInSmallerBase(n);
    DigitsBelowPower(256, n, 32 - z);
    PowersCompareBelow(32 - z);
    DigitsBelowPower(58, n, 44 - z);
  }

  /** Both bounds are reached: by 32 zero bytes and by 32 bytes of 255. */
  lemma KeyLengthsAreReached()
    ensures exists s :: IsPublicKey(s) && |s| == 32
    ensures exists s :: IsPublicKey(s) && |s| == 44
  {
    ShortestKey();
    LongestKey();
  }

  lemma ShortestKey()
    ensures exists s :: IsPublicKey(s) && |s| == 32
  {
    var low: seq<Byte> := seq(32, _ => 0);
    ValueIgnoresLeadingZeros(256, 32, []);
    assert Zeros(32) + [] == low;
    LeadingZerosAre(low, 32);
    assert |Encode(low)| == 32;
    assert IsPublicKey(Encode(low));
  }

  lemma LongestKey()
    ensures exists s :: IsPublicKey(s) && |s| == 44
  {
    var high: seq<Byte> := seq(32, _ => 255);
    AllOnes(32);
    LongestNumber(Value(256, high));
    LeadingZerosAre(high, 0);
    EncodeLength(high);
    assert IsPublicKey(Encode(high));
  }

  lemma LongestNumber(n: nat)
    requires n == Power(256, 32) - 1
    ensures |Digits(58, n)| == 44
  {
    PowersCompare();
    DigitsBelowPower(58, n, 43);
    DigitsBelowPower(58, n, 44);
  }

  lemma EncodeLength(bytes: seq<Byte>)
    ensures |Encode(bytes)| == LeadingZeros(bytes) + |Digits(58, Value(256, bytes))|
  {
  }

  lemma {:induction false} AllOnes(k: nat)
    ensures Value(256, seq(k, _ => 255)) == Power(256, k) - 1
  {
    if k > 0 {
      AllOnes(k - 1);
      var d: seq<nat> := seq(k, _ => 255);
      assert d[..|d| - 1] == seq(k - 1, _ => 255);
    }
  }

  /** The pattern of the CLI adapter: 32 to 44 symbols. */
  predicate CliPattern(s: string) {
    32 <= |s| <= 44 && InAlphabet(s)
  }

  /** Every key that the policy accepts passes the pattern of the CLI adapter. */
  lemma KeysMatchCliPattern(s: string)
    requires IsPublicKey(s)
    ensures CliPattern(s)
  {
    PublicKeyIffDecodesTo32(s);
    KeyLength(s);
  }
}
