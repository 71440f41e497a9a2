/** Bech32 as text: a prefix, a separator and a string of words that ends in its checksum. */
module Bech32Strings {
  import opened Options
  import opened Bech32
  import Regroup

  const CHARSET: string := "qpzry9x8gf2tvdw0s3jn54khce6mua7l"
  const CHECKSUM_WORDS: nat := 6

  datatype Parts = Parts(hrp: string, words: seq<Word>)

  // ---------------------------------------------------------------- characters

  lemma CharsetIsDistinct(i: nat, j: nat)
    requires i < j < 32
    ensures |CHARSET| == 32 && CHARSET[i] != CHARSET[j]
  {
  }

  lemma CharsetIsLowerWithoutOne(i: nat)
    requires i < 32
    ensures |CHARSET| == 32 && CHARSET[i] != '1' && LowerChar(CHARSET[i]) == CHARSET[i]
  {
  }

  function CharOf(word: Word): char {
    CHARSET[word as int]
  }

  function Chars(words: seq<Word>): (text: string)
    ensures |text| == |words|
  {
    seq(|words|, i requires 0 <= i < |words| => CharOf(words[i]))
  }

  lemma CharsTellWords(u: Word, v: Word)
    requires CharOf(u) == CharOf(v)
    ensures u == v
  {
    var i, j := u as int, v as int;
    if i < j { CharsetIsDistinct(i, j); } else if j < i { CharsetIsDistinct(j, i); }
    assert i as Word == u && j as Word == v;
  }

  /** The Kelvin sign: outside ASCII, yet its lower case is the letter k, and it is its own upper case. */
  const KELVIN: char := '\U{212A}'

  /**
   The lower case of every character whose lower case is ASCII, which the Kelvin sign is the only one
   outside ASCII to have. The others stay as they are: no prefix and no word has them in any case.
   */
  function LowerChar(c: char): char {
    if 'A' <= c <= 'Z' then (c as int + 32) as char else if c == KELVIN then 'k' else c
  }

  function UpperChar(c: char): char {
    if 'a' <= c <= 'z' then (c as int - 32) as char else c
  }

  function LowerOf(text: string): (lower: string)
    ensures |lower| == |text|
  {
    seq(|text|, i requires 0 <= i < |text| => LowerChar(text[i]))
  }

  function UpperOf(text: string): (upper: string)
    ensures |upper| == |text|
  {
    seq(|text|, i requires 0 <= i < |text| => UpperChar(text[i]))
  }

  lemma CharsetLength()
    ensures |CHARSET| == 32
  {
  }

  /** Where a character stands in the charset, or -1. */
  method IndexOf(c: char) returns (value: int)
    ensures -1 <= value < 32
    ensures value >= 0 ==> CharOf(value as Word) == c
    ensures value == -1 ==> forall word: Word :: CharOf(word) != c
  {
    hide CHARSET;
    CharsetLength();
    value := 0;
    while value < 32
      invariant 0 <= value <= 32
      invariant forall i :: 0 <= i < value ==> CHARSET[i] != c
    {
      if CHARSET[value] == c { return; }
      value := value + 1;
    }
    value := -1;
  }

  // ---------------------------------------------------------------- prefixes

  predicate Figures(text: string) {
    forall i :: 0 <= i < |text| ==> '0' <= text[i] <= '9'
  }

  predicate Digits(text: string) {
    text != [] && Figures(text)
  }

  /** `(\d+)([munp]?)`, or nothing. */
  predicate Amount(text: string) {
    || text == []
    || Digits(text)
    || (text[|text| - 1] in "munp" && Digits(text[..|text| - 1]))
  }

  const NETWORKS: seq<string> := ["lnbcrt", "lnbc", "lntbs", "lntb", "lnsb"]

  /** `^ln(?:bcrt|bc|tbs|tb|sb)(?:(\d+)([munp]?))?$` */
  predicate IsHrp(hrp: string) {
    exists i :: 0 <= i < |NETWORKS| && NETWORKS[i] <= hrp && Amount(hrp[|NETWORKS[i]|..])
  }

  predicate IsBolt12(lower: string) {
    "lno" <= lower || "lni" <= lower || "lnr" <= lower
  }

  predicate Ascii(text: string) {
    forall c :: c in text ==> c < 128 as char
  }

  lemma HrpIsAscii(hrp: string)
    requires IsHrp(hrp)
    ensures Ascii(hrp) && hrp != []
  {
    hide Amount, NETWORKS;
    var i :| 0 <= i < |NETWORKS| && NETWORKS[i] <= hrp && Amount(hrp[|NETWORKS[i]|..]);
    var network, amount := NETWORKS[i], hrp[|NETWORKS[i]|..];
    assert hrp == network + amount;
    AmountIsAscii(amount);
    NetworksAreAscii(i);
  }

  lemma NetworksAreAscii(i: nat)
    requires i < |NETWORKS|
    ensures Ascii(NETWORKS[i]) && NETWORKS[i] != []
  {
  }

  lemma AmountIsAscii(amount: string)
    requires Amount(amount)
    ensures Ascii(amount)
  {
    if amount != [] && !Digits(amount) {
      assert amount == amount[..|amount| - 1] + [amount[|amount| - 1]];
    }
  }

  /** High bits, a zero, low bits: the prefix as the checksum reads it. */
  function ExpandedHrp(hrp: string): (words: seq<Word>)
    requires Ascii(hrp)
    ensures |words| == 2 * |hrp| + 1
  {
    seq(|hrp|, i requires 0 <= i < |hrp| => assert hrp[i] in hrp; High(hrp[i]))
    + [0]
    + seq(|hrp|, i requires 0 <= i < |hrp| => Low(hrp[i]))
  }

  function High(c: char): Word
    requires c < 128 as char
  {
    (c as int / 32) as Word
  }

  function Low(c: char): Word {
    (c as int % 32) as Word
  }

  /** The expansion tells each character, by its high bits before the zero and its low bits after it. */
  lemma ExpandedTellsChars(hrp: string, i: nat)
    requires Ascii(hrp) && i < |hrp|
    ensures var words := ExpandedHrp(hrp);
      hrp[i] as int == 32 * words[i] as int + words[|hrp| + 1 + i] as int && words[|hrp|] == 0
  {
    hide High, Low;
    assert hrp[i] in hrp;
    HighAndLow(hrp[i]);
  }

  lemma HighAndLow(c: char)
    requires c < 128 as char
    ensures c as int == 32 * High(c) as int + Low(c) as int
  {
    WordHolds(c as int / 32);
    WordHolds(c as int % 32);
  }

  lemma WordHolds(number: int)
    requires 0 <= number < 32
    ensures (number as Word) as int == number
  {
  }

  /** The checksum of some words under a prefix comes out as it should. */
  predicate Checks(hrp: string, words: seq<Word>)
    requires Ascii(hrp)
  {
    Polymod(ExpandedHrp(hrp) + words) == 1
  }

  // ---------------------------------------------------------------- a string and its parts

  /** The one case, the prefix, the separator, the words, the checksum, and that it checks. */
  ghost predicate Encodes(text: string, parts: Parts, checksum: seq<Word>) {
    var lower := LowerOf(text);
    && (text == lower || text == UpperOf(text)) && !IsBolt12(lower)
    && IsHrp(parts.hrp) && Ascii(parts.hrp) && |checksum| == CHECKSUM_WORDS
    && lower == parts.hrp + "1" + Chars(parts.words + checksum)
    && Checks(parts.hrp, parts.words + checksum)
  }

  lemma CharsHaveNoOne(words: seq<Word>)
    ensures '1' !in Chars(words)
  {
    forall i | 0 <= i < |words| ensures Chars(words)[i] != '1' {
      CharsetIsLowerWithoutOne(words[i] as int);
    }
  }

  lemma CharsAreInjective(u: seq<Word>, v: seq<Word>)
    requires Chars(u) == Chars(v)
    ensures u == v
  {
    assert |u| == |Chars(u)| == |Chars(v)| == |v|;
    forall i | 0 <= i < |u| ensures u[i] == v[i] {
      assert Chars(u)[i] == Chars(v)[i];
      CharsTellWords(u[i], v[i]);
    }
  }

  lemma AfterTheOne(hrp: string, data: string)
    ensures forall i :: |hrp| < i <= |hrp| + |data| ==> (hrp + "1" + data)[i] == data[i - |hrp| - 1]
    ensures (hrp + "1" + data)[|hrp|] == '1'
  {
  }

  /** The separator is the last `1` there is. */
  lemma LastOneSeparates(hrp: string, data: string, other: string, rest: string)
    requires hrp + "1" + data == other + "1" + rest && '1' !in data && '1' !in rest
    ensures hrp == other && data == rest
  {
    var text := hrp + "1" + data;
    AfterTheOne(hrp, data);
    AfterTheOne(other, rest);
    assert |hrp| == |other|;
    assert hrp == text[..|hrp|] && data == text[|hrp| + 1..];
    assert other == text[..|hrp|] && rest == text[|hrp| + 1..];
  }

  /** A string has one reading at most. */
  lemma PartsAreDetermined(text: string, p: Parts, q: Parts, c: seq<Word>, d: seq<Word>)
    requires Encodes(text, p, c) && Encodes(text, q, d)
    ensures p == q && c == d
  {
    hide Polymod, IsHrp, ExpandedHrp, Chars, UpperOf;
    CharsHaveNoOne(p.words + c);
    CharsHaveNoOne(q.words + d);
    LastOneSeparates(p.hrp, Chars(p.words + c), q.hrp, Chars(q.words + d));
    CharsAreInjective(p.words + c, q.words + d);
    var all, n := p.words + c, |p.words|;
    assert |q.words| == n;
    assert p.words == all[..n] && c == all[n..];
    assert q.words == (q.words + d)[..n] && d == (q.words + d)[n..];
  }

  // ---------------------------------------------------------------- reading

  method LastOne(text: string) returns (at: int)
    ensures -1 <= at < |text|
    ensures at >= 0 ==> text[at] == '1'
    ensures '1' !in text[at + 1..]
  {
    at := |text| - 1;
    while at >= 0 && text[at] != '1'
      invariant -1 <= at < |text|
      invariant '1' !in text[at + 1..]
    {
      assert text[at..] == [text[at]] + text[at + 1..];
      at := at - 1;
    }
  }

  /** The words some characters stand for, if they all stand for one. */
  method WordsOf(chars: string) returns (words: Option<seq<Word>>)
    ensures words.Some? ==> Chars(words.value) == chars
    ensures words.None? ==> forall all: seq<Word> :: Chars(all) != chars
  {
    var read: seq<Word> := [];
    for i := 0 to |chars|
      invariant |read| == i && Chars(read) == chars[..i]
    {
      var value := IndexOf(chars[i]);
      if value == -1 {
        forall all: seq<Word> ensures Chars(all) != chars {
          if |all| == |chars| { assert Chars(all)[i] == CharOf(all[i]); }
        }
        return None;
      }
      read := read + [value as Word];
    }
    words := Some(read);
  }

  ghost predicate Reads(text: string, parts: Parts) {
    exists checksum :: Encodes(text, parts, checksum)
  }

  /** The parts of a string that is well formed and whose checksum checks, and nothing for any other. */
  method SplitBech32(text: string) returns (parts: Option<Parts>)
    ensures parts.Some? ==> Reads(text, parts.value)
    ensures parts.None? ==> forall p :: !Reads(text, p)
  {
    hide Encodes, Polymod, IsHrp, ExpandedHrp, Chars, LowerOf, UpperOf, IsBolt12;
    var lower := LowerOf(text);
    NotEncoded(text);
    if IsBolt12(lower) || (text != lower && text != UpperOf(text)) { return None; }
    var separator := LastOne(lower);
    if separator < 1 {
      NoSeparator(text, separator);
      return None;
    }
    var hrp, chars := lower[..separator], lower[separator + 1..];
    assert lower == hrp + "1" + chars;
    AfterSeparator(text, hrp, chars);
    if |chars| < CHECKSUM_WORDS { return None; }
    var read := WordsOf(chars);
    if read.None? { return None; }
    if !IsHrp(hrp) { return None; }
    HrpIsAscii(hrp);
    var checksum := Bech32Polymod(ExpandedHrp(hrp) + read.value);
    var n := |read.value| - CHECKSUM_WORDS;
    assert read.value == read.value[..n] + read.value[n..];
    IsEncoded(text, hrp, read.value[..n], read.value[n..]);
    if checksum != 1 { return None; }
    return Some(Parts(hrp, read.value[..n]));
  }

  lemma NotEncoded(text: string)
    ensures IsBolt12(LowerOf(text)) || (text != LowerOf(text) && text != UpperOf(text)) ==> forall p :: !Reads(text, p)
  {
  }

  lemma EncodedHasSeparator(text: string, parts: Parts, checksum: seq<Word>)
    requires Encodes(text, parts, checksum)
    ensures 1 <= |parts.hrp| < |text| && LowerOf(text)[|parts.hrp|] == '1'
  {
    HrpIsAscii(parts.hrp);
  }

  lemma NoSeparator(text: string, separator: int)
    requires -1 <= separator < |text| && separator < 1 && '1' !in LowerOf(text)[separator + 1..]
    ensures forall p :: !Reads(text, p)
  {
    hide Encodes, LowerOf;
    var lower := LowerOf(text);
    forall i | separator < i < |text| ensures lower[i] != '1' {
      assert lower[i] == lower[separator + 1..][i - separator - 1];
    }
    forall p, checksum ensures !Encodes(text, p, checksum) {
      if Encodes(text, p, checksum) { EncodedHasSeparator(text, p, checksum); }
    }
  }

  /** A reading has this prefix, and words for these characters. */
  lemma AfterSeparator(text: string, hrp: string, chars: string)
    requires LowerOf(text) == hrp + "1" + chars && '1' !in chars
    ensures forall p, checksum :: Encodes(text, p, checksum) ==>
      && p.hrp == hrp && Chars(p.words + checksum) == chars && IsHrp(hrp) && Ascii(hrp)
      && |checksum| == CHECKSUM_WORDS && |chars| >= CHECKSUM_WORDS
      && Checks(hrp, p.words + checksum)
  {
    hide Polymod, IsHrp, ExpandedHrp, Chars;
    forall p, checksum | Encodes(text, p, checksum)
      ensures p.hrp == hrp && Chars(p.words + checksum) == chars && IsHrp(hrp) && Ascii(hrp)
        && |checksum| == CHECKSUM_WORDS && |chars| >= CHECKSUM_WORDS
        && Checks(hrp, p.words + checksum)
    {
      CharsHaveNoOne(p.words + checksum);
      LastOneSeparates(p.hrp, Chars(p.words + checksum), hrp, chars);
    }
  }

  lemma IsEncoded(text: string, hrp: string, words: seq<Word>, checksum: seq<Word>)
    requires LowerOf(text) == hrp + "1" + Chars(words + checksum) && |checksum| == CHECKSUM_WORDS
    requires (text == LowerOf(text) || text == UpperOf(text)) && !IsBolt12(LowerOf(text)) && IsHrp(hrp) && Ascii(hrp)
    ensures if Checks(hrp, words + checksum) then Reads(text, Parts(hrp, words))
      else forall p :: !Reads(text, p)
  {
    hide Polymod, IsHrp, ExpandedHrp, Chars, UpperOf;
    if Checks(hrp, words + checksum) {
      assert Encodes(text, Parts(hrp, words), checksum);
    } else {
      forall p, c ensures !Encodes(text, p, c) {
        if Encodes(text, p, c) {
          CharsHaveNoOne(words + checksum);
          CharsHaveNoOne(p.words + c);
          LastOneSeparates(hrp, Chars(words + checksum), p.hrp, Chars(p.words + c));
          CharsAreInjective(words + checksum, p.words + c);
        }
      }
    }
  }

  // ---------------------------------------------------------------- damage

  /** Where two texts of one length differ, if at all, only within six characters in a row. */
  ghost predicate DamagedAt(a: string, b: string, start: nat) {
    && |a| == |b|
    && forall i :: 0 <= i < |a| && (i < start || start + 6 <= i) ==> a[i] == b[i]
  }

  lemma DamageIsABurst(hrp: string, u: seq<Word>, v: seq<Word>, start: nat) returns (at: nat)
    requires Ascii(hrp) && |u| == |v| && DamagedAt(hrp + "1" + Chars(u), hrp + "1" + Chars(v), start)
    ensures at <= |ExpandedHrp(hrp)| + |u|
    ensures DifferInBurst(ExpandedHrp(hrp) + u, ExpandedHrp(hrp) + v, at)
  {
    hide CharOf, High, Low;
    var prefix, expanded := |hrp| + 1, ExpandedHrp(hrp);
    var from := if start < prefix then 0 else if start - prefix > |u| then |u| else start - prefix;
    at := |expanded| + from;
    forall i | 0 <= i < |u| && (i < from || from + 6 <= i) ensures u[i] == v[i] {
      assert (hrp + "1" + Chars(u))[prefix + i] == CharOf(u[i]);
      assert (hrp + "1" + Chars(v))[prefix + i] == CharOf(v[i]);
      CharsTellWords(u[i], v[i]);
    }
  }

  /**
   The theorem, as text: of two different strings of one length that share a prefix and differ only
   within six characters in a row, however long they are, at most one is read.
   */
  lemma DamageIsRefused(a: string, b: string, p: Parts, q: Parts, start: nat)
    requires Reads(a, p) && Reads(b, q) && p.hrp == q.hrp
    requires DamagedAt(LowerOf(a), LowerOf(b), start)
    ensures LowerOf(a) == LowerOf(b) && p == q
  {
    hide Polymod, IsHrp, ExpandedHrp, UpperOf, IsBolt12, DifferInBurst, LowerOf, Chars, DamagedAt;
    var c :| Encodes(a, p, c);
    var d :| Encodes(b, q, d);
    var u, v, n := p.words + c, q.words + d, |p.words|;
    assert |u| == |v| by {
      assert |LowerOf(a)| == |LowerOf(b)| by { SameLength(LowerOf(a), LowerOf(b), start); }
    }
    var at := DamageIsABurst(p.hrp, u, v, start);
    BurstsAreDetected(ExpandedHrp(p.hrp) + u, ExpandedHrp(p.hrp) + v, at);
    assert u == (ExpandedHrp(p.hrp) + u)[|ExpandedHrp(p.hrp)|..];
    assert v == (ExpandedHrp(p.hrp) + v)[|ExpandedHrp(p.hrp)|..];
    assert p.words == u[..n] && q.words == v[..n];
  }

  lemma SameLength(a: string, b: string, start: nat)
    requires DamagedAt(a, b, start)
    ensures |a| == |b|
  {
  }

  // ---------------------------------------------------------------- the Kelvin sign

  /** The same text with its k in any of the forms an upper-case text may write it in. */
  ghost predicate RewritesK(a: string, b: string) {
    && |a| == |b|
    && forall i :: 0 <= i < |a| ==> a[i] == b[i] || (a[i] in {'K', KELVIN} && b[i] in {'K', KELVIN})
  }

  /**
   Damage that case folding undoes goes unnoticed: an upper-case text reads the same with any K turned
   into the Kelvin sign, which is why `DamageIsRefused` compares lower cases.
   */
  lemma KelvinReadsAsK(a: string, b: string, p: Parts)
    requires a == UpperOf(a) && RewritesK(a, b)
    ensures LowerOf(a) == LowerOf(b) && (Reads(a, p) <==> Reads(b, p))
  {
    hide Polymod, IsHrp, ExpandedHrp, Chars, IsBolt12;
    assert LowerOf(a) == LowerOf(b);
    forall i | 0 <= i < |b| ensures b[i] == UpperOf(b)[i] { assert a[i] == UpperOf(a)[i]; }
    assert b == UpperOf(b);
    forall c ensures Encodes(a, p, c) <==> Encodes(b, p, c) {}
  }
}
