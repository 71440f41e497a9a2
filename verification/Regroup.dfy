/**
 Bytes to five-bit words and back, through an accumulator that is never cleared: it is a 32-bit
 integer that wraps, and only its low bits are ever read. Section "Bech32" of BIP 173.
 */
module Regroup {
  type Byte = x: int | 0 <= x < 256
  type Word = x: int | 0 <= x < 32

  const TWO_32: int := 0x1_0000_0000

  /** What a 32-bit signed integer makes of a number. */
  function Wrapped(x: int): (w: int)
    ensures -TWO_32 / 2 <= w < TWO_32 / 2
    ensures (x - w) % TWO_32 == 0
  {
    (x + TWO_32 / 2) % TWO_32 - TWO_32 / 2
  }

  function Pow2(n: nat): (p: nat)
    ensures p >= 1
  {
    if n == 0 then 1 else 2 * Pow2(n - 1)
  }

  /** The number a string of digits spells, most significant first; `readNumber` with base 32. */
  function Value(digits: seq<int>, base: nat): int {
    if digits == [] then 0 else Value(digits[..|digits| - 1], base) * base + digits[|digits| - 1]
  }

  // ---------------------------------------------------------------- arithmetic

  lemma DivideTwice(x: int, p: nat, q: nat)
    requires p >= 1 && q >= 1
    ensures p * q >= 1 && x / p / q == x / (p * q)
  {
    var a := x / p / q;
    var r, t := x % p, (x / p) % q;
    assert x == (a * q + t) * p + r;
    assert x == a * (p * q) + (t * p + r) by {
      assert (a * q + t) * p == a * (p * q) + t * p;
    }
    assert 0 <= t * p + r < p * q by {
      assert t * p <= (q - 1) * p;
      assert (q - 1) * p == p * q - p;
    }
    QuotientIs(x, p * q, a, t * p + r);
  }

  lemma QuotientIs(x: int, n: int, q: int, r: int)
    requires n >= 1 && x == q * n + r && 0 <= r < n
    ensures x / n == q && x % n == r
  {
    var d := x / n - q;
    assert d * n == r - x % n by {
      assert x == (x / n) * n + x % n;
      assert (x / n) * n == d * n + q * n;
    }
    Multiples(d, n);
  }

  lemma Multiples(d: int, n: nat)
    ensures d >= 1 ==> d * n >= n
    ensures d <= -1 ==> d * n + n <= 0
  {
  }

  /** The bits a wrapped accumulator still has right. */
  lemma LowBitsAgree(acc: int, value: int, p: nat, q: nat, m: nat)
    requires p >= 1 && q >= 1 && m >= 1 && p * q * m == TWO_32 && (acc - value) % TWO_32 == 0
    ensures (acc / p) % q == (value / p) % q
  {
    var k := (acc - value) / TWO_32;
    assert acc == value + k * TWO_32;
    var up := k * m * q;
    assert k * TWO_32 == up * p by {
      assert k * (p * q * m) == (k * m * q) * p;
    }
    assert acc == (value / p + up) * p + value % p by {
      assert value == (value / p) * p + value % p;
      assert (value / p + up) * p == (value / p) * p + up * p;
    }
    QuotientIs(acc, p, value / p + up, value % p);
    var v := value / p;
    assert v + up == (v / q + k * m) * q + v % q by {
      assert v == (v / q) * q + v % q;
      assert (v / q + k * m) * q == (v / q) * q + k * m * q;
    }
    QuotientIs(v + up, q, v / q + k * m, v % q);
  }

  lemma {:induction false} Pow2Sum(a: nat, b: nat)
    ensures Pow2(a + b) == Pow2(a) * Pow2(b)
  {
    if a > 0 {
      Pow2Sum(a - 1, b);
      assert 2 * (Pow2(a - 1) * Pow2(b)) == (2 * Pow2(a - 1)) * Pow2(b);
    }
  }

  lemma PowersFit(bits: nat, low: nat)
    requires bits + low <= 32
    ensures Pow2(bits) * Pow2(low) * Pow2(32 - bits - low) == TWO_32
  {
    Pow2Sum(bits, low);
    Pow2Sum(bits + low, 32 - bits - low);
    Pow2Of32();
  }

  lemma Pow2Of32()
    ensures Pow2(32) == TWO_32
  {
    assert Pow2(8) == 256;
    Pow2Sum(8, 8);
    Pow2Sum(16, 16);
  }

  lemma ValueAppend(digits: seq<int>, digit: int, base: nat)
    ensures Value(digits + [digit], base) == Value(digits, base) * base + digit
  {
    assert (digits + [digit])[..|digits|] == digits;
  }

  /** The accumulator takes in another group of bits. */
  lemma Shifted(acc: int, value: int, group: nat, digit: int)
    requires (acc - value) % TWO_32 == 0
    ensures (Wrapped(acc * group + digit) - (value * group + digit)) % TWO_32 == 0
  {
    var w := Wrapped(acc * group + digit);
    var j, k := (acc - value) / TWO_32, (acc * group + digit - w) / TWO_32;
    assert acc * group == value * group + j * group * TWO_32 by {
      assert acc == value + j * TWO_32;
      assert (value + j * TWO_32) * group == value * group + j * group * TWO_32;
    }
    assert w - (value * group + digit) == (j * group - k) * TWO_32;
    QuotientIs(w - (value * group + digit), TWO_32, j * group - k, 0);
  }

  // ---------------------------------------------------------------- bytes to words

  /** `words` spell the number `bytes` spell, with zero bits put after it to fill the last word. */
  ghost predicate AreWordsOf(bytes: seq<Byte>, words: seq<Word>) {
    var pad := 5 * |words| - 8 * |bytes|;
    && 0 <= pad < 5
    && Value(words, 32) == Value(bytes, 256) * Pow2(pad)
  }

  /** Where a loop stands: the accumulator ends in the bits read, and all but `bits` of them are written. */
  ghost predicate Regrouping(acc: int, bits: nat, read: int, written: int) {
    (acc - read) % TWO_32 == 0 && written == read / Pow2(bits)
  }

  lemma TakeGroup(acc: int, bits: nat, read: int, written: int, size: nat, digit: int)
    requires Regrouping(acc, bits, read, written) && 0 <= digit < Pow2(size)
    ensures Regrouping(Wrapped(acc * Pow2(size) + digit), bits + size, read * Pow2(size) + digit, written)
  {
    Shifted(acc, read, Pow2(size), digit);
    Pow2Sum(size, bits);
    QuotientIs(read * Pow2(size) + digit, Pow2(size), read, digit);
    DivideTwice(read * Pow2(size) + digit, Pow2(size), Pow2(bits));
  }

  lemma GiveGroup(acc: int, bits: nat, read: int, written: int, size: nat)
    requires Regrouping(acc, bits, read, written) && size <= bits <= 32
    ensures var digit := (acc / Pow2(bits - size)) % Pow2(size);
      0 <= digit < Pow2(size) && Regrouping(acc, bits - size, read, written * Pow2(size) + digit)
  {
    hide Pow2;
    var p, q := Pow2(bits - size), Pow2(size);
    PowersFit(bits - size, size);
    LowBitsAgree(acc, read, p, q, Pow2(32 - bits));
    DivideTwice(read, p, q);
    Pow2Sum(bits - size, size);
    DivMod(read / p, q);
  }

  lemma DivMod(x: int, q: nat)
    requires q >= 1
    ensures x == x / q * q + x % q && 0 <= x % q < q
  {
  }

  lemma NothingRead()
    ensures Regrouping(0, 0, 0, 0)
  {
  }

  lemma SmallPowers()
    ensures Pow2(0) == 1 && Pow2(5) == 32 && Pow2(8) == 256
  {
    assert Pow2(3) == 8;
    Pow2Sum(5, 3);
  }

  /** The words a byte completes: as many whole words as there are bits for. */
  method WriteWords(acc: int, left: nat, ghost read: int, written: seq<Word>) returns (bits: nat, words: seq<Word>)
    requires left <= 12 && Regrouping(acc, left, read, Value(written, 32))
    ensures bits < 5 && Regrouping(acc, bits, read, Value(words, 32))
    ensures 5 * |words| + bits == 5 * |written| + left
  {
    hide Regrouping;
    bits, words := left, written;
    SmallPowers();
    while bits >= 5
      invariant bits <= 12 && Regrouping(acc, bits, read, Value(words, 32))
      invariant 5 * |words| + bits == 5 * |written| + left
    {
      GiveGroup(acc, bits, read, Value(words, 32), 5);
      bits := bits - 5;
      var word: Word := acc / Pow2(bits) % 32;
      ValueAppend(words, word, 32);
      words := words + [word];
    }
  }

  method ToWords(bytes: seq<Byte>) returns (words: seq<Word>)
    ensures AreWordsOf(bytes, words)
  {
    hide Regrouping, Pow2, Value, Wrapped;
    SmallPowers();
    NothingRead();
    NoDigits(32);
    NoDigits(256);
    words := [];
    var acc, bits := 0, 0;
    for i := 0 to |bytes|
      invariant bits < 5 && 5 * |words| + bits == 8 * i
      invariant Regrouping(acc, bits, Value(bytes[..i], 256), Value(words, 32))
    {
      var byte := bytes[i];
      TakeGroup(acc, bits, Value(bytes[..i], 256), Value(words, 32), 8, byte);
      ValueAppend(bytes[..i], byte, 256);
      assert bytes[..i] + [byte] == bytes[..i + 1];
      acc := Wrapped(acc * 256 + byte);
      bits, words := WriteWords(acc, bits + 8, Value(bytes[..i + 1], 256), words);
    }
    assert bytes[..|bytes|] == bytes;
    if bits > 0 {
      words := Padded(acc, bits, bytes, words);
    } else {
      WholeWords(acc, bytes, words);
    }
  }

  lemma NoDigits(base: nat)
    ensures Value([], base) == 0
  {
  }

  lemma WholeWords(acc: int, bytes: seq<Byte>, words: seq<Word>)
    requires Regrouping(acc, 0, Value(bytes, 256), Value(words, 32)) && 5 * |words| == 8 * |bytes|
    ensures AreWordsOf(bytes, words)
  {
  }

  /** The last word, filled up with zero bits. */
  method Padded(acc: int, bits: nat, ghost bytes: seq<Byte>, whole: seq<Word>) returns (words: seq<Word>)
    requires 0 < bits < 5 && 5 * |whole| + bits == 8 * |bytes|
    requires Regrouping(acc, bits, Value(bytes, 256), Value(whole, 32))
    ensures AreWordsOf(bytes, words)
  {
    hide Regrouping, Value, Wrapped;
    SmallPowers();
    PowersArePositive(5 - bits);
    TakeGroup(acc, bits, Value(bytes, 256), Value(whole, 32), 5 - bits, 0);
    var last := Wrapped(acc * Pow2(5 - bits));
    GiveGroup(last, 5, Value(bytes, 256) * Pow2(5 - bits), Value(whole, 32), 5);
    ValueAppend(whole, last % 32, 32);
    words := whole + [last % 32];
    AllWritten(last, Value(bytes, 256) * Pow2(5 - bits), Value(words, 32));
  }

  lemma PowersArePositive(n: nat)
    ensures 0 < Pow2(n)
  {
  }

  lemma AllWritten(acc: int, read: int, written: int)
    requires Regrouping(acc, 0, read, written)
    ensures written == read
  {
  }

  // ---------------------------------------------------------------- words to bytes

  /** `bytes` spell what `words` spell, less the bits that do not fill a byte. */
  ghost predicate AreBytesOf(words: seq<Word>, bytes: seq<Byte>) {
    var left := 5 * |words| - 8 * |bytes|;
    && 0 <= left < 8
    && Value(bytes, 256) == Value(words, 32) / Pow2(left)
  }

  method WordsToBytes(words: seq<Word>) returns (bytes: seq<Byte>)
    ensures AreBytesOf(words, bytes)
  {
    hide Regrouping, Pow2, Value, Wrapped;
    SmallPowers();
    NothingRead();
    NoDigits(32);
    NoDigits(256);
    bytes := [];
    var acc, bits := 0, 0;
    for i := 0 to |words|
      invariant bits < 8 && 8 * |bytes| + bits == 5 * i
      invariant Regrouping(acc, bits, Value(words[..i], 32), Value(bytes, 256))
    {
      var word := words[i];
      TakeGroup(acc, bits, Value(words[..i], 32), Value(bytes, 256), 5, word);
      ValueAppend(words[..i], word, 32);
      assert words[..i] + [word] == words[..i + 1];
      acc := Wrapped(acc * 32 + word);
      bits := bits + 5;
      if bits >= 8 {
        bytes := WriteByte(acc, bits, Value(words[..i + 1], 32), bytes);
        bits := bits - 8;
      }
    }
    assert words[..|words|] == words;
    WholeBytes(acc, bits, words, bytes);
  }

  /** The next byte, read off the accumulator as an unsigned integer. */
  method WriteByte(acc: int, bits: nat, ghost read: int, written: seq<Byte>) returns (bytes: seq<Byte>)
    requires 8 <= bits <= 12 && Regrouping(acc, bits, read, Value(written, 256))
    ensures |bytes| == |written| + 1 && Regrouping(acc, bits - 8, read, Value(bytes, 256))
  {
    hide Pow2, Value;
    SmallPowers();
    var unsigned := acc % TWO_32;
    Congruent(acc, bits, read, Value(written, 256));
    GiveGroup(unsigned, bits, read, Value(written, 256), 8);
    var byte: Byte := unsigned / Pow2(bits - 8) % 256;
    ValueAppend(written, byte, 256);
    bytes := written + [byte];
  }

  lemma Congruent(acc: int, bits: nat, read: int, written: int)
    requires Regrouping(acc, bits, read, written)
    ensures Regrouping(acc % TWO_32, bits, read, written)
  {
    var j, k := (acc - read) / TWO_32, acc / TWO_32;
    assert acc % TWO_32 - read == (j - k) * TWO_32;
    QuotientIs(acc % TWO_32 - read, TWO_32, j - k, 0);
  }

  lemma WholeBytes(acc: int, bits: nat, words: seq<Word>, bytes: seq<Byte>)
    requires Regrouping(acc, bits, Value(words, 32), Value(bytes, 256)) && bits < 8 && 8 * |bytes| + bits == 5 * |words|
    ensures AreBytesOf(words, bytes)
  {
  }

  // ---------------------------------------------------------------- there and back

  ghost predicate Digits(digits: seq<int>, base: nat) {
    forall i :: 0 <= i < |digits| ==> 0 <= digits[i] < base
  }

  /** Two strings of as many digits that spell the same number are the same. */
  lemma {:induction false} DigitsAreUnique(a: seq<int>, b: seq<int>, base: nat)
    requires base >= 1 && Digits(a, base) && Digits(b, base) && |a| == |b| && Value(a, base) == Value(b, base)
    ensures a == b
    decreases |a|
  {
    if a != [] {
      var last := |a| - 1;
      QuotientIs(Value(a, base), base, Value(a[..last], base), a[last]);
      QuotientIs(Value(b, base), base, Value(b[..last], base), b[last]);
      DigitsAreUnique(a[..last], b[..last], base);
      assert a == a[..last] + [a[last]] && b == b[..last] + [b[last]];
    }
  }

  /** The words of a byte string are determined by it. */
  lemma WordsAreDetermined(bytes: seq<Byte>, one: seq<Word>, other: seq<Word>)
    requires AreWordsOf(bytes, one) && AreWordsOf(bytes, other)
    ensures one == other
  {
    DigitsAreUnique(one, other, 32);
  }

  /** Bytes turned into words and back are the bytes there were. */
  lemma ThereAndBack(bytes: seq<Byte>, words: seq<Word>, back: seq<Byte>)
    requires AreWordsOf(bytes, words) && AreBytesOf(words, back)
    ensures back == bytes
  {
    var pad := 5 * |words| - 8 * |bytes|;
    QuotientIs(Value(words, 32), Pow2(pad), Value(bytes, 256), 0);
    DigitsAreUnique(back, bytes, 256);
  }
}
