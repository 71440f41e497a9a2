/**
 The words of an invoice: a timestamp, tagged fields each with its own length, and a signature.
 Section "Tagged Fields" of BOLT #11.
 */
module Invoices {
  import opened Options
  import opened Regroup

  const TIMESTAMP_WORDS: nat := 7
  const SIGNATURE_WORDS: nat := 104
  const TAGGED_FIELD_LENGTH_WORDS: nat := 2
  const EXPIRY_TAG: Word := 6
  const PAYMENT_HASH_TAG: Word := 1
  const PAYMENT_HASH_WORDS: nat := 52
  const DEFAULT_EXPIRY_SECS: nat := 3600

  type Words = seq<Word>

  datatype Field = Field(tag: Word, data: Words)

  // ---------------------------------------------------------------- how fields are laid out

  ghost predicate Writable(fields: seq<Field>) {
    forall i :: 0 <= i < |fields| ==> |fields[i].data| < 1024
  }

  ghost function Laid(fields: seq<Field>): Words
    requires Writable(fields)
  {
    if fields == [] then [] else LaidOne(fields[0]) + Laid(fields[1..])
  }

  /** Where the field that some words begin with ends. */
  function End(words: Words): int
    requires |words| >= 3
  {
    var high: int, low: int := words[1], words[2];
    3 + high * 32 + low
  }

  /** Words too few to be the field they begin. */
  ghost predicate Broken(words: Words) {
    |words| < 3 || End(words) > |words|
  }

  /** The fields a string of words begins with, as far as they go. */
  ghost function Fields(words: Words): (fields: seq<Field>)
    decreases |words|
  {
    if Broken(words) then []
    else [Field(words[0], words[3..End(words)])] + Fields(words[End(words)..])
  }

  ghost function Rest(words: Words): (rest: Words)
    decreases |words|
  {
    if Broken(words) then words else Rest(words[End(words)..])
  }

  ghost function LaidOne(field: Field): Words
    requires |field.data| < 1024
  {
    var length: int := |field.data|;
    [field.tag, length / 32, length % 32] + field.data
  }

  lemma LaidFirst(field: Field, rest: seq<Field>)
    requires |field.data| < 1024 && Writable(rest)
    ensures Writable([field] + rest) && Laid([field] + rest) == LaidOne(field) + Laid(rest)
  {
    assert ([field] + rest)[1..] == rest;
  }

  lemma FieldIsLaid(words: Words)
    requires !Broken(words)
    ensures |words[3..End(words)]| < 1024
    ensures LaidOne(Field(words[0], words[3..End(words)])) == words[..End(words)]
  {
    var high: int, low: int := words[1], words[2];
    assert (high * 32 + low) / 32 == high && (high * 32 + low) % 32 == low;
  }

  /** Any words read as fields, and a rest that is not one. */
  lemma {:induction false} FieldsCoverWords(words: Words)
    ensures Writable(Fields(words)) && Broken(Rest(words))
    ensures Laid(Fields(words)) + Rest(words) == words
    decreases |words|
  {
    hide Laid, LaidOne, End, Broken, Fields, Rest;
    FieldsStep(words);
    if Broken(words) {
      NothingLaid();
    } else {
      EndIsAhead(words);
      var after, field := words[End(words)..], Field(words[0], words[3..End(words)]);
      FieldIsLaid(words);
      FieldsCoverWords(after);
      LaidFirst(field, Fields(after));
      assert words == words[..End(words)] + after;
      assert LaidOne(field) + Laid(Fields(after)) + Rest(after) == LaidOne(field) + (Laid(Fields(after)) + Rest(after));
    }
  }

  lemma EndIsAhead(words: Words)
    requires !Broken(words)
    ensures 3 <= End(words) <= |words|
  {
  }

  lemma FieldsStep(words: Words)
    ensures Broken(words) ==> Fields(words) == [] && Rest(words) == words
    ensures !Broken(words) ==>
      && |words| >= 3 && 3 <= End(words) <= |words|
      && Fields(words) == [Field(words[0], words[3..End(words)])] + Fields(words[End(words)..])
      && Rest(words) == Rest(words[End(words)..])
  {
  }

  lemma NothingLaid()
    ensures Laid([]) == []
  {
  }

  lemma LaidOneReadsBack(field: Field, tail: Words)
    requires |field.data| < 1024
    ensures var words := LaidOne(field) + tail;
      !Broken(words) && words[0] == field.tag && words[3..End(words)] == field.data && words[End(words)..] == tail
  {
    var length: int := |field.data|;
    assert length / 32 * 32 + length % 32 == length;
    assert End(LaidOne(field) + tail) == |LaidOne(field)|;
  }

  /** Fields laid out one after another read back as themselves, whatever follows them. */
  lemma {:induction false} LaidReadsBack(fields: seq<Field>, rest: Words)
    requires Writable(fields) && Broken(rest)
    ensures Fields(Laid(fields) + rest) == fields
    decreases |fields|
  {
    hide Broken, End, LaidOne;
    if fields == [] {
      assert Laid(fields) + rest == rest;
    } else {
      var tail := Laid(fields[1..]) + rest;
      assert fields == [fields[0]] + fields[1..];
      LaidFirst(fields[0], fields[1..]);
      LaidOneReadsBack(fields[0], tail);
      assert Laid(fields) + rest == LaidOne(fields[0]) + tail;
      LaidReadsBack(fields[1..], rest);
    }
  }

  // ---------------------------------------------------------------- reading them

  /** Between the timestamp and the signature. */
  function Body(words: Words): Words {
    if |words| < TIMESTAMP_WORDS + SIGNATURE_WORDS then []
    else words[TIMESTAMP_WORDS..|words| - SIGNATURE_WORDS]
  }

  ghost function First(fields: seq<Field>, tag: Word): Option<Words> {
    if fields == [] then None
    else if fields[0].tag == tag then Some(fields[0].data)
    else First(fields[1..], tag)
  }

  ghost predicate FirstOfEach(tagged: map<Word, Words>, fields: seq<Field>) {
    forall tag: Word :: First(fields, tag) == if tag in tagged then Some(tagged[tag]) else None
  }

  lemma {:induction false} FirstOfMore(fields: seq<Field>, more: seq<Field>, tag: Word)
    ensures First(fields + more, tag) == if First(fields, tag).Some? then First(fields, tag) else First(more, tag)
  {
    if fields == [] {
      assert fields + more == more;
    } else {
      FirstOfMore(fields[1..], more, tag);
      assert (fields + more)[1..] == fields[1..] + more;
    }
  }

  lemma AddField(tagged: map<Word, Words>, fields: seq<Field>, field: Field)
    requires FirstOfEach(tagged, fields)
    ensures FirstOfEach(if field.tag in tagged then tagged else tagged[field.tag := field.data], fields + [field])
  {
    forall tag: Word ensures First(fields + [field], tag)
      == if First(fields, tag).Some? then First(fields, tag) else First([field], tag)
    {
      FirstOfMore(fields, [field], tag);
    }
    assert forall tag: Word :: First([field], tag) == if field.tag == tag then Some(field.data) else None;
  }

  /** Each tag with the first data it comes with, and nothing from the signature, for any words at all. */
  method TaggedFields(words: Words) returns (tagged: map<Word, Words>)
    ensures FirstOfEach(tagged, Fields(Body(words)))
  {
    hide FirstOfEach, Fields, Body;
    tagged := map[];
    var signatureStart := |words| - SIGNATURE_WORDS;
    var cursor := TIMESTAMP_WORDS;
    ghost var read: seq<Field> := [];
    NoFields();
    BodyIs(words);
    if signatureStart < cursor { return; }
    while cursor + 1 + TAGGED_FIELD_LENGTH_WORDS <= signatureStart
      invariant TIMESTAMP_WORDS <= cursor <= signatureStart == |words| - SIGNATURE_WORDS
      invariant read + Fields(words[cursor..signatureStart]) == Fields(Body(words))
      invariant FirstOfEach(tagged, read)
    {
      var high: int, low: int := words[cursor + 1], words[cursor + 2];
      var lengthWords := high * 32 + low;
      var dataStart := cursor + 1 + TAGGED_FIELD_LENGTH_WORDS;
      var dataEnd := dataStart + lengthWords;
      NextField(words, cursor, signatureStart);
      if dataEnd > signatureStart {
        assert read + [] == read;
        return;
      }
      var field := Field(words[cursor], words[dataStart..dataEnd]);
      AddField(tagged, read, field);
      if field.tag !in tagged { tagged := tagged[field.tag := field.data]; }
      assert read + ([field] + Fields(words[dataEnd..signatureStart]))
        == (read + [field]) + Fields(words[dataEnd..signatureStart]);
      read := read + [field];
      cursor := dataEnd;
    }
    NoRoomForAField(words[cursor..signatureStart]);
    assert read + [] == read;
  }

  lemma NoRoomForAField(words: Words)
    requires |words| < 3
    ensures Fields(words) == []
  {
  }

  lemma BodyIs(words: Words)
    ensures |words| < TIMESTAMP_WORDS + SIGNATURE_WORDS ==> Body(words) == []
    ensures |words| >= TIMESTAMP_WORDS + SIGNATURE_WORDS ==>
      [] + Fields(words[TIMESTAMP_WORDS..|words| - SIGNATURE_WORDS]) == Fields(Body(words))
  {
  }

  lemma SliceOfSlice(words: Words, start: nat, end: nat, from: nat, to: nat)
    requires start <= end <= |words| && from <= to <= end - start
    ensures words[start..end][from..to] == words[start + from..start + to]
  {
    var one, other := words[start..end][from..to], words[start + from..start + to];
    forall i | 0 <= i < |one| ensures one[i] == other[i] {
      assert one[i] == words[start..end][from + i];
    }
  }

  lemma NextField(words: Words, cursor: nat, end: nat)
    requires cursor + 3 <= end <= |words|
    ensures var high: int, low: int := words[cursor + 1], words[cursor + 2];
      var dataEnd := cursor + 3 + high * 32 + low;
      if dataEnd > end then Fields(words[cursor..end]) == []
      else
        Fields(words[cursor..end]) == [Field(words[cursor], words[cursor + 3..dataEnd])] + Fields(words[dataEnd..end])
  {
    hide Fields;
    var ahead := words[cursor..end];
    FieldsStep(ahead);
    assert ahead[1] == words[cursor + 1] && ahead[2] == words[cursor + 2];
    if !Broken(ahead) {
      SliceOfSlice(words, cursor, end, 3, End(ahead));
      SliceOfSlice(words, cursor, end, End(ahead), |ahead|);
      assert ahead[End(ahead)..|ahead|] == ahead[End(ahead)..];
    }
  }

  lemma NoFields()
    ensures FirstOfEach(map[], []) && Fields([]) == []
  {
  }

  /** Whatever an invoice's timestamp and signature, its fields are what was laid out between them. */
  lemma LaidInvoiceReadsBack(timestamp: Words, fields: seq<Field>, signature: Words)
    requires |timestamp| == TIMESTAMP_WORDS && |signature| == SIGNATURE_WORDS && Writable(fields)
    ensures Fields(Body(timestamp + Laid(fields) + signature)) == fields
  {
    var words := timestamp + Laid(fields) + signature;
    assert Body(words) == Laid(fields) + [];
    LaidReadsBack(fields, []);
  }

  lemma FirstDetermines(one: map<Word, Words>, other: map<Word, Words>, fields: seq<Field>)
    requires FirstOfEach(one, fields) && FirstOfEach(other, fields)
    ensures one == other
  {
    forall tag: Word ensures (tag in one <==> tag in other) && (tag in one ==> one[tag] == other[tag]) {
      assert First(fields, tag) == if tag in one then Some(one[tag]) else None;
      assert First(fields, tag) == if tag in other then Some(other[tag]) else None;
    }
  }

  /**
   Two strings of words that agree between the timestamp and the signature, whatever those are, have
   the same fields, and whatever is read from the one as `TaggedFields` reads it is read from the other.
   */
  lemma SignatureIsNotRead(words: Words, other: Words, tagged: map<Word, Words>, otherTagged: map<Word, Words>)
    requires |words| == |other|
    requires forall i :: TIMESTAMP_WORDS <= i < |words| - SIGNATURE_WORDS ==> words[i] == other[i]
    requires FirstOfEach(tagged, Fields(Body(words))) && FirstOfEach(otherTagged, Fields(Body(other)))
    ensures Fields(Body(words)) == Fields(Body(other)) && tagged == otherTagged
  {
    assert Body(words) == Body(other);
    FirstDetermines(tagged, otherTagged, Fields(Body(words)));
  }

  // ---------------------------------------------------------------- what the fields say

  method ReadNumber(words: Words) returns (number: int)
    ensures number == Value(words, 32)
  {
    number := 0;
    for i := 0 to |words|
      invariant number == Value(words[..i], 32)
    {
      ValueAppend(words[..i], words[i], 32);
      assert words[..i] + [words[i]] == words[..i + 1];
      number := number * 32 + words[i];
    }
    assert words[..|words|] == words;
  }

  /** The bytes of a field, if it is there and as long as it should be. */
  method HexTag(tagged: map<Word, Words>, tag: Word, expectedWords: nat) returns (bytes: Option<seq<Byte>>)
    ensures bytes.Some? <==> tag in tagged && |tagged[tag]| == expectedWords
    ensures bytes.Some? ==> AreBytesOf(tagged[tag], bytes.value)
  {
    if tag !in tagged || |tagged[tag]| != expectedWords { return None; }
    var read := WordsToBytes(tagged[tag]);
    bytes := Some(read);
  }

  /** A payment hash put in an invoice is the payment hash read from it. */
  method PaymentHashOf(words: Words) returns (hash: Option<seq<Byte>>)
    ensures forall bytes: seq<Byte>, data: Words ::
      |bytes| == 32 && AreWordsOf(bytes, data) && First(Fields(Body(words)), PAYMENT_HASH_TAG) == Some(data)
      ==> hash == Some(bytes)
    ensures hash.Some? ==> |hash.value| == 32
  {
    var tagged := TaggedFields(words);
    hash := HexTag(tagged, PAYMENT_HASH_TAG, PAYMENT_HASH_WORDS);
    forall bytes: seq<Byte>, data: Words |
      |bytes| == 32 && AreWordsOf(bytes, data) && First(Fields(Body(words)), PAYMENT_HASH_TAG) == Some(data)
      ensures hash == Some(bytes)
    {
      assert |data| == 52;
      ThereAndBack(bytes, data, hash.value);
    }
  }

  /** Issued at its timestamp, and expiring an hour later unless a field says otherwise. */
  ghost predicate Dated(words: Words, issuedAt: Option<int>, expiresAt: Option<int>) {
    if |words| < TIMESTAMP_WORDS + SIGNATURE_WORDS then issuedAt.None? && expiresAt.None?
    else
      var expiry := First(Fields(Body(words)), EXPIRY_TAG);
      && issuedAt == Some(Value(words[..TIMESTAMP_WORDS], 32))
      && expiresAt == Some(issuedAt.value + if expiry.Some? then Value(expiry.value, 32) else DEFAULT_EXPIRY_SECS)
  }

  method Dates(words: Words) returns (issuedAt: Option<int>, expiresAt: Option<int>)
    ensures Dated(words, issuedAt, expiresAt)
  {
    hide Fields, Value;
    if |words| < TIMESTAMP_WORDS + SIGNATURE_WORDS { return None, None; }
    var tagged := TaggedFields(words);
    var issued := ReadNumber(words[..TIMESTAMP_WORDS]);
    issuedAt := Some(issued);
    if EXPIRY_TAG in tagged {
      var expiry := ReadNumber(tagged[EXPIRY_TAG]);
      expiresAt := Some(issued + expiry);
    } else {
      expiresAt := Some(issued + DEFAULT_EXPIRY_SECS);
    }
  }
}
