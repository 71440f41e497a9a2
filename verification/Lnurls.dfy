/** A pay endpoint as the `LNURL1` text a QR carries: its bytes regrouped into words, with their checksum. */
module Lnurls {
  import opened Options
  import opened Bech32
  import opened Bech32Strings
  import Regroup

  const LNURL_HRP: string := "lnurl"

  function Narrowed(words: seq<Regroup.Word>): (narrow: seq<Word>)
    ensures |narrow| == |words|
  {
    seq(|words|, i requires 0 <= i < |words| => words[i] as Word)
  }

  function Widened(words: seq<Word>): (wide: seq<Regroup.Word>)
    ensures |wide| == |words|
  {
    seq(|words|, i requires 0 <= i < |words| => words[i] as int)
  }

  lemma WideAgain(words: seq<Regroup.Word>)
    ensures Widened(Narrowed(words)) == words
  {
    forall i | 0 <= i < |words| ensures Widened(Narrowed(words))[i] == words[i] {
      var word: int := words[i];
      assert (word as Word) as int == word;
    }
  }

  /** The text of some bytes: one prefix, words that spell the bytes, and a checksum that checks. */
  ghost predicate Spells(text: string, bytes: seq<Regroup.Byte>, words: seq<Word>, checksum: seq<Word>) {
    && Ascii(LNURL_HRP) && |checksum| == CHECKSUM_WORDS
    && text == UpperOf(text)
    && LowerOf(text) == LNURL_HRP + "1" + Chars(words + checksum)
    && Checks(LNURL_HRP, words + checksum)
    && Regroup.AreWordsOf(bytes, Widened(words))
  }

  lemma CharOfIsLower(word: Word)
    ensures LowerChar(UpperChar(CharOf(word))) == CharOf(word)
  {
    hide CHARSET;
    CharsetIsLowerWithoutOne(word as int);
    RoundTripsCase(CharOf(word));
  }

  lemma RoundTripsCase(c: char)
    ensures UpperChar(UpperChar(c)) == UpperChar(c)
    ensures LowerChar(c) == c ==> LowerChar(UpperChar(c)) == c
  {
  }

  lemma PrefixIsLower()
    ensures Ascii(LNURL_HRP)
    ensures forall i :: 0 <= i < |LNURL_HRP| ==> LowerChar(LNURL_HRP[i]) == LNURL_HRP[i]
  {
  }

  lemma UpperReadsBack(data: seq<Word>)
    ensures var lower := LNURL_HRP + "1" + Chars(data); var text := UpperOf(lower);
      UpperOf(text) == text && LowerOf(text) == lower
  {
    hide CHARSET, LNURL_HRP, LowerChar, UpperChar, CharOf;
    var lower := LNURL_HRP + "1" + Chars(data);
    var text := UpperOf(lower);
    PrefixIsLower();
    forall i | 0 <= i < |lower| ensures UpperOf(text)[i] == text[i] && LowerOf(text)[i] == lower[i] {
      RoundTripsCase(lower[i]);
      OneHasNoCase();
      if i > |LNURL_HRP| { CharOfIsLower(data[i - |LNURL_HRP| - 1]); }
    }
  }

  lemma OneHasNoCase()
    ensures LowerChar('1') == '1'
  {
  }

  /** `toLnurl`, of the scheme of an endpoint, if it parses, and its bytes. */
  method ToLnurl(scheme: Option<string>, bytes: seq<Regroup.Byte>) returns (found: Option<string>)
    ensures found.Some? <==> scheme == Some("https:") || scheme == Some("http:")
    ensures found.Some? ==> exists words, checksum :: Spells(found.value, bytes, words, checksum)
  {
    hide Polymod, ExpandedHrp, Chars, UpperOf, LowerOf, Ascii, ChecksumWords;
    if scheme != Some("https:") && scheme != Some("http:") { return None; }
    PrefixIsLower();
    var wide := Regroup.ToWords(bytes);
    var words := Narrowed(wide);
    WideAgain(wide);
    var values := ExpandedHrp(LNURL_HRP) + words;
    var polymod := Bech32Polymod(values + Zeros(6));
    var checksum := ChecksumOf(values, polymod);
    ChecksumChecks(values);
    assert values + checksum == ExpandedHrp(LNURL_HRP) + (words + checksum);
    UpperReadsBack(words + checksum);
    var text := UpperOf(LNURL_HRP + "1" + Chars(words + checksum));
    assert Spells(text, bytes, words, checksum);
    found := Some(text);
  }

  /** `checksumWords`, five bits at a time. */
  method ChecksumOf(values: seq<Word>, polymod: bv32) returns (checksum: seq<Word>)
    requires polymod == Polymod(values + Zeros(6))
    ensures checksum == ChecksumWords(values)
  {
    hide Polymod, Slice;
    checksum := [];
    for slot := 0 to 6
      invariant |checksum| == slot
      invariant forall i :: 0 <= i < slot ==> checksum[i] == Slice(Xor(polymod, 1), i)
    {
      checksum := checksum + [Slice(Xor(polymod, 1), slot)];
    }
  }

  /** The text of an endpoint reads as these words and no others, and its words turn back into the bytes. */
  lemma LnurlReadsBack(
    text: string, bytes: seq<Regroup.Byte>, words: seq<Word>, checksum: seq<Word>,
    other: seq<Word>, last: seq<Word>, back: seq<Regroup.Byte>)
    requires Spells(text, bytes, words, checksum)
    requires LowerOf(text) == LNURL_HRP + "1" + Chars(other + last) && |last| == CHECKSUM_WORDS
    requires Regroup.AreBytesOf(Widened(other), back)
    ensures other == words && last == checksum && back == bytes
  {
    hide Polymod, ExpandedHrp, Chars, UpperOf, LowerOf;
    assert Chars(other + last) == LowerOf(text)[|LNURL_HRP| + 1..];
    assert Chars(words + checksum) == LowerOf(text)[|LNURL_HRP| + 1..];
    CharsAreInjective(other + last, words + checksum);
    var n := |words|;
    assert |other| == n;
    assert other == (other + last)[..n] && words == (words + checksum)[..n];
    assert last == (other + last)[n..] && checksum == (words + checksum)[n..];
    Regroup.ThereAndBack(bytes, Widened(words), back);
  }
}
