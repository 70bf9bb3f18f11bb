/**
 The case-insensitive string hash and the equality it goes with. A character is the value of a signed char, a code that
 of an unsigned char; words are natural numbers, cut to 64 bits where the program's are.
 */
module StringHash {
  import opened Powers

  newtype Char = c: int | -128 <= c < 128

  type Text = seq<Char>

  const WORD: nat := 0x1_0000_0000_0000_0000
  const MASK: nat := (WORD - 1) / 64

  /** The table behind to_lower: Latin-1 capitals to small letters, the multiplication sign excepted. */
  function Lower(i: nat): nat {
    if 65 <= i <= 90 || (192 <= i <= 222 && i != 215) then i + 32 else i
  }

  /** to_lower of any int: cut to a char, then read as an unsigned char. */
  function ToLower(c: int): nat {
    Lower(c % 256)
  }

  function BitAnd(x: nat, y: nat): nat
    decreases x + y
  {
    if x == 0 || y == 0 then 0 else 2 * BitAnd(x / 2, y / 2) + if x % 2 == 1 && y % 2 == 1 then 1 else 0
  }

  function BitXor(x: nat, y: nat): nat
    decreases x + y
  {
    if x == 0 && y == 0 then 0 else 2 * BitXor(x / 2, y / 2) + if x % 2 != y % 2 then 1 else 0
  }

  /** One round of hash_core. */
  function Mix(h: nat, c: Char): nat {
    BitXor(BitAnd(MASK, h * 33 % WORD), ToLower(c as int))
  }

  function HashCore(s: Text, h: nat): nat {
    if s == [] then h else HashCore(s[1..], Mix(h, s[0]))
  }

  function Hash(key: Text): nat {
    HashCore(key, 0)
  }

  predicate Equal(a: Text, b: Text) {
    |a| == |b| && forall i | 0 <= i < |a| :: ToLower(a[i] as int) == ToLower(b[i] as int)
  }

  // ---------------------------------------------------------------- equal

  /** The code of a character: what the cast to unsigned char makes of it. */
  function Code(c: int): int {
    if -128 <= c < 0 then c + 256 else c
  }

  /** A capital letter of Latin-1; the multiplication sign sits among them. */
  predicate IsCapital(code: int) {
    65 <= code <= 90 || 192 <= code <= 214 || 216 <= code <= 222
  }

  /** Two codes are the same or the two cases of one letter. */
  predicate SameLetter(i: int, j: int) {
    i == j || (IsCapital(i) && j == i + 32) || (IsCapital(j) && i == j + 32)
  }

  /** to_lower leaves a code alone unless it is a capital, which becomes the small letter 32 codes above. */
  lemma ToLowerIs(c: int)
    requires -128 <= c < 256
    ensures ToLower(c) == if IsCapital(Code(c)) then Code(c) + 32 else Code(c)
    ensures forall k: int :: ToLower(c + 256 * k) == ToLower(c)
  {
    forall k: int ensures ToLower(c + 256 * k) == ToLower(c) {
      assert (c + 256 * k) % 256 == c % 256;
    }
  }

  /** equal accepts exactly the texts of one length that have the same letter at every position. */
  lemma EqualExactly(a: Text, b: Text)
    ensures Equal(a, b) <==>
              |a| == |b| && forall i | 0 <= i < |a| :: SameLetter(Code(a[i] as int), Code(b[i] as int))
  {
    forall i | 0 <= i < |a| == |b|
      ensures ToLower(a[i] as int) == ToLower(b[i] as int) <==> SameLetter(Code(a[i] as int), Code(b[i] as int))
    {
      ToLowerIs(a[i] as int);
      ToLowerIs(b[i] as int);
    }
  }

  lemma EqualIsAnEquivalence(a: Text, b: Text, c: Text)
    ensures Equal(a, a) && (Equal(a, b) ==> Equal(b, a)) && (Equal(a, b) && Equal(b, c) ==> Equal(a, c))
  {
  }

  lemma {:induction false} SameLettersSameHash(a: Text, b: Text, h: nat)
    requires Equal(a, b)
    ensures HashCore(a, h) == HashCore(b, h)
  {
    if a != [] {
      assert ToLower(a[0] as int) == ToLower(b[0] as int);
      SameLettersSameHash(a[1..], b[1..], Mix(h, a[0]));
    }
  }

  /** Keys that are equal land in the same bucket. */
  lemma EqualKeysHashAlike(a: Text, b: Text)
    requires Equal(a, b)
    ensures Hash(a) == Hash(b)
  {
    SameLettersSameHash(a, b, 0);
  }

  // ---------------------------------------------------------------- bits

  /** Modulo a power of two, the last bit and the others. */
  lemma Halves(x: nat, p: nat)
    requires p > 0
    ensures x % (2 * p) == 2 * (x / 2 % p) + x % 2
  {
    var q, r := x / 2 / p, x / 2 % p;
    assert x / 2 == q * p + r;
    assert x == (2 * p) * q + (2 * r + x % 2);
    Remainder(x, 2 * p, q, 2 * r + x % 2);
  }

  lemma Remainder(a: nat, n: nat, q: nat, r: nat)
    requires n > 0 && a == n * q + r && r < n
    ensures a % n == r
  {
    var e := q - a / n;
    assert e * n == a % n - r;
    assert e >= 1 ==> (e - 1) * n >= 0;
    assert e <= -1 ==> (-1 - e) * n >= 0;
  }

  /** A mask of k ones keeps the remainder modulo 2^k. */
  lemma {:induction false} MaskIsModulo(k: nat, x: nat)
    ensures Power(k) > 0 && BitAnd(Power(k) - 1, x) == x % Power(k)
  {
    if k > 0 {
      MaskIsModulo(k - 1, x / 2);
      Halves(x, Power(k - 1));
      assert (Power(k) - 1) / 2 == Power(k - 1) - 1;
    }
  }

  lemma {:induction false} XorStaysBelow(k: nat, x: nat, y: nat)
    requires x < Power(k) && y < Power(k)
    ensures BitXor(x, y) < Power(k)
  {
    if k > 0 { XorStaysBelow(k - 1, x / 2, y / 2); }
  }

  lemma {:induction false} XorWithZero(y: nat)
    ensures BitXor(0, y) == y
  {
    if y > 0 { XorWithZero(y / 2); }
  }

  lemma {:induction false} XorIsInjective(x: nat, y: nat, l: nat)
    requires BitXor(x, l) == BitXor(y, l)
    ensures x == y
    decreases x + y + l
  {
    if x + y > 0 { XorIsInjective(x / 2, y / 2, l / 2); }
  }

  lemma {:induction false} XorCommutes(x: nat, y: nat)
    ensures BitXor(x, y) == BitXor(y, x)
    decreases x + y
  {
    if x + y > 0 { XorCommutes(x / 2, y / 2); }
  }

  // ---------------------------------------------------------------- what the rounds do to the accumulator

  /** Each round multiplies by 33 modulo 2^58 and adds the letter by exclusive or. */
  lemma MixIs(h: nat, c: Char)
    ensures Mix(h, c) == BitXor(h * 33 % 0x400_0000_0000_0000, ToLower(c as int))
  {
    MaskIs58Ones(h * 33 % WORD);
    CutTwice(h * 33);
  }

  lemma MaskIs58Ones(x: nat)
    ensures BitAnd(MASK, x) == x % 0x400_0000_0000_0000
  {
    Power58();
    MaskIsModulo(58, x);
  }

  lemma CutTwice(x: nat)
    ensures x % WORD % 0x400_0000_0000_0000 == x % 0x400_0000_0000_0000
  {
  }

  lemma MixStaysSmall(h: nat, c: Char)
    ensures Mix(h, c) < 0x400_0000_0000_0000
  {
    MixIs(h, c);
    Power58();
    Power8();
    PowersMultiply(8, 50);
    PowersAreHuge(50);
    XorStaysBelow(58, h * 33 % 0x400_0000_0000_0000, ToLower(c as int));
  }

  /** 33 has an inverse modulo 2^58, so the cut product forgets nothing. */
  lemma ProductIsInjective(g: nat, h: nat)
    requires g < 0x400_0000_0000_0000 && h < 0x400_0000_0000_0000
    requires g * 33 % 0x400_0000_0000_0000 == h * 33 % 0x400_0000_0000_0000
    ensures g == h
  {
    var d, q := g - h, g * 33 / 0x400_0000_0000_0000 - h * 33 / 0x400_0000_0000_0000;
    assert 33 * d == q * 0x400_0000_0000_0000;
    assert 0x383E0F83E0F83E1 * (33 * d) == d + 0x1D * d * 0x400_0000_0000_0000;
    var e := 0x383E0F83E0F83E1 * q - 0x1D * d;
    assert d == e * 0x400_0000_0000_0000;
  }

  lemma DifferentAccumulators(g: nat, h: nat, c: Char)
    requires g < 0x400_0000_0000_0000 && h < 0x400_0000_0000_0000 && g != h
    ensures Mix(g, c) != Mix(h, c)
  {
    MixIs(g, c);
    MixIs(h, c);
    if Mix(g, c) == Mix(h, c) {
      XorIsInjective(g * 33 % 0x400_0000_0000_0000, h * 33 % 0x400_0000_0000_0000, ToLower(c as int));
      ProductIsInjective(g, h);
    }
  }

  lemma DifferentLetters(h: nat, c: Char, d: Char)
    requires ToLower(c as int) != ToLower(d as int)
    ensures Mix(h, c) != Mix(h, d)
  {
    var x, l, m := h * 33 % 0x400_0000_0000_0000, ToLower(c as int), ToLower(d as int);
    MixIs(h, c);
    MixIs(h, d);
    XorCommutes(x, l);
    XorCommutes(x, m);
    if Mix(h, c) == Mix(h, d) { XorIsInjective(l, m, x); }
  }

  /** The accumulator before the i-th round. */
  function Accumulator(s: Text, h: nat, i: nat): nat
    requires i <= |s|
  {
    if i == 0 then h else Mix(Accumulator(s, h, i - 1), s[i - 1])
  }

  lemma {:induction false} AccumulatorStaysSmall(s: Text, h: nat, i: nat)
    requires i <= |s| && h < 0x400_0000_0000_0000
    ensures Accumulator(s, h, i) < 0x400_0000_0000_0000
  {
    if i > 0 { MixStaysSmall(Accumulator(s, h, i - 1), s[i - 1]); }
  }

  lemma {:induction false} HashIsTheLastAccumulator(s: Text, h: nat, i: nat)
    requires i <= |s|
    ensures HashCore(s, h) == HashCore(s[i..], Accumulator(s, h, i))
  {
    if i > 0 {
      HashIsTheLastAccumulator(s, h, i - 1);
      assert s[i - 1..][1..] == s[i..];
    } else {
      assert s[0..] == s;
    }
  }

  /** For keys of any length no product overflows 64 bits, and the hash is below 2^58. */
  lemma NoOverflow(key: Text, i: nat)
    requires i <= |key|
    ensures Accumulator(key, 0, i) * 33 < 0x1_0000_0000_0000_0000
    ensures Hash(key) == HashCore(key[i..], Accumulator(key, 0, i)) && Hash(key) < 0x400_0000_0000_0000
  {
    AccumulatorStaysSmall(key, 0, i);
    HashIsTheLastAccumulator(key, 0, i);
    HashIsTheLastAccumulator(key, 0, |key|);
    AccumulatorStaysSmall(key, 0, |key|);
    assert key[|key|..] == [];
  }

  // ---------------------------------------------------------------- which keys differ

  lemma {:induction false} DifferentStarts(s: Text, g: nat, h: nat)
    requires g < 0x400_0000_0000_0000 && h < 0x400_0000_0000_0000 && g != h
    ensures HashCore(s, g) != HashCore(s, h)
  {
    if s != [] {
      MixStaysSmall(g, s[0]);
      MixStaysSmall(h, s[0]);
      DifferentAccumulators(g, h, s[0]);
      DifferentStarts(s[1..], Mix(g, s[0]), Mix(h, s[0]));
    }
  }

  lemma {:induction false} SamePrefix(s: Text, i: nat, c: Char, k: nat)
    requires k <= i < |s|
    ensures Accumulator(s[i := c], 0, k) == Accumulator(s, 0, k)
  {
    if k > 0 { SamePrefix(s, i, c, k - 1); }
  }

  /** Keys of one length that are read differently in exactly one place never collide. */
  lemma OneLetterChangesTheHash(s: Text, i: nat, c: Char)
    requires i < |s| && ToLower(s[i] as int) != ToLower(c as int)
    ensures Hash(s[i := c]) != Hash(s)
  {
    var t := s[i := c];
    SamePrefix(s, i, c, i);
    HashIsTheLastAccumulator(s, 0, i + 1);
    HashIsTheLastAccumulator(t, 0, i + 1);
    AccumulatorStaysSmall(s, 0, i + 1);
    AccumulatorStaysSmall(t, 0, i + 1);
    DifferentLetters(Accumulator(s, 0, i), s[i], c);
    assert t[i + 1..] == s[i + 1..];
    DifferentStarts(s[i + 1..], Accumulator(s, 0, i + 1), Accumulator(t, 0, i + 1));
  }

  lemma HashOfOne(h: nat, c: Char)
    ensures HashCore([c], h) == Mix(h, c)
  {
    assert [c][1..] == [] && HashCore([], Mix(h, c)) == Mix(h, c);
  }

  lemma HashOfTwo(h: nat, c: Char, d: Char)
    ensures HashCore([c, d], h) == Mix(Mix(h, c), d)
  {
    assert [c, d][1..] == [d];
    HashOfOne(Mix(h, c), d);
  }

  lemma FirstRound(h: nat, c: Char)
    requires h == 0
    ensures Mix(h, c) == ToLower(c as int)
  {
    MixIs(h, c);
    SmallProduct(h, 33 * h);
    XorFromZero(33 * h, ToLower(c as int));
  }

  lemma XorFromZero(x: nat, y: nat)
    requires x == 0
    ensures BitXor(x, y) == y
  {
    XorWithZero(y);
  }

  lemma SecondRound(x: nat, c: Char)
    requires x < 256
    ensures Mix(x, c) == BitXor(33 * x, ToLower(c as int))
  {
    MixIs(x, c);
    SmallProduct(x, 33 * x);
  }

  lemma SmallProduct(x: nat, y: nat)
    requires x < 256 && y == 33 * x
    ensures x * 33 % 0x400_0000_0000_0000 == y
  {
  }

  lemma ShortKeysFrom(h: nat, a: Char, b: Char, x: nat)
    requires h == 0 && x == ToLower(a as int)
    ensures HashCore([a], h) == x && HashCore([a, b], h) == BitXor(33 * x, ToLower(b as int))
  {
    FirstRound(h, a);
    HashOfOne(h, a);
    HashOfTwo(h, a, b);
    SecondRound(x, b);
  }

  /** The hash of keys of one and two letters. */
  lemma ShortKeys(a: Char, b: Char)
    ensures Hash([a]) == ToLower(a as int)
    ensures Hash([a, b]) == BitXor(33 * ToLower(a as int), ToLower(b as int))
  {
    ShortKeysFrom(0, a, b, ToLower(a as int));
  }

  /** In small letters or capitals, "ab" hashes to 97 * 33 = 3201 exclusive-or 98, which is 3299. */
  lemma HashOfAb(a: Char, b: Char)
    requires (a == 97 || a == 65) && (b == 98 || b == 66)
    ensures Hash([a, b]) == 3299
  {
    LowerAb(a as int, b as int);
    ShortKeysFrom(0, a, b, ToLower(a as int));
    XorOfAb();
  }

  lemma LowerAb(a: int, b: int)
    requires (a == 97 || a == 65) && (b == 98 || b == 66)
    ensures ToLower(a) == 97 && ToLower(b) == 98
  {
  }

  lemma XorOfAb()
    ensures BitXor(3201, 98) == 3299
  {
    XorWithZero(25);
    XorCommutes(25, 0);
    assert BitXor(50, 1) == 51;
    assert BitXor(100, 3) == 103;
    assert BitXor(200, 6) == 206;
    assert BitXor(400, 12) == 412;
    assert BitXor(800, 24) == 824;
    assert BitXor(1600, 49) == 1649;
  }
}
