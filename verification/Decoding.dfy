/** What a BOLT11 invoice says about itself: checksum first, then the fields. */
module Decoding {
  import opened Options
  import opened Bech32Strings
  import opened Lnurls
  import opened Invoices
  import opened Amounts
  import Bech32
  import Regroup

  const DESCRIPTION_HASH_TAG: Regroup.Word := 23
  const DESCRIPTION_HASH_WORDS: nat := 52

  /** Every field absent when the invoice does not carry it. */
  datatype Invoice = Invoice(
    paymentHash: Option<seq<Regroup.Byte>>, descriptionHash: Option<seq<Regroup.Byte>>,
    amountMsat: Option<nat>, issuedAt: Option<int>, expiresAt: Option<int>)

  /** The bytes a tag of the right length holds. */
  ghost predicate Holds(fields: seq<Field>, tag: Regroup.Word, length: nat, bytes: Option<seq<Regroup.Byte>>) {
    var data := First(fields, tag);
    && (bytes.Some? <==> data.Some? && |data.value| == length)
    && (bytes.Some? ==> Regroup.AreBytesOf(data.value, bytes.value))
  }

  /** Nothing for a string that does not read; otherwise what the first field of each tag says. */
  method DecodeInvoice(text: string) returns (invoice: Invoice)
    ensures (forall p :: !Reads(text, p)) ==> invoice == Invoice(None, None, None, None, None)
    ensures forall p :: Reads(text, p) ==>
      var fields := Fields(Body(Widened(p.words)));
      && Holds(fields, PAYMENT_HASH_TAG, PAYMENT_HASH_WORDS, invoice.paymentHash)
      && Holds(fields, DESCRIPTION_HASH_TAG, DESCRIPTION_HASH_WORDS, invoice.descriptionHash)
      && Worth(p.hrp, invoice.amountMsat)
      && Dated(Widened(p.words), invoice.issuedAt, invoice.expiresAt)
  {
    hide Reads, Fields, Regroup.AreBytesOf, Body, Dated, Worth;
    var parts := SplitBech32(text);
    if parts.None? { return Invoice(None, None, None, None, None); }
    var words := Widened(parts.value.words);
    var tagged := TaggedFields(words);
    var paymentHash := HexTag(tagged, PAYMENT_HASH_TAG, PAYMENT_HASH_WORDS);
    var descriptionHash := HexTag(tagged, DESCRIPTION_HASH_TAG, DESCRIPTION_HASH_WORDS);
    var issuedAt, expiresAt := Dates(words);
    var amountMsat := AmountFromHrp(parts.value.hrp);
    invoice := Invoice(paymentHash, descriptionHash, amountMsat, issuedAt, expiresAt);
    forall p | Reads(text, p) ensures p == parts.value {
      OneReading(text, p, parts.value);
    }
  }

  lemma OneReading(text: string, p: Parts, q: Parts)
    requires Reads(text, p) && Reads(text, q)
    ensures p == q
  {
    hide Encodes;
    var c :| Encodes(text, p, c);
    var d :| Encodes(text, q, d);
    PartsAreDetermined(text, p, q, c, d);
  }

  /**
   End to end: an invoice written with a payment hash as its first field of that tag, whatever its
   other fields, timestamp and signature, reads back that hash and no other.
   */
  lemma WrittenHashIsRead(
    text: string, p: Parts, timestamp: Words, fields: seq<Field>, signature: Words,
    hash: seq<Regroup.Byte>, data: Words, invoice: Invoice)
    requires Reads(text, p) && |timestamp| == TIMESTAMP_WORDS && |signature| == SIGNATURE_WORDS && Writable(fields)
    requires Widened(p.words) == timestamp + Laid(fields) + signature
    requires |hash| == 32 && Regroup.AreWordsOf(hash, data) && First(fields, PAYMENT_HASH_TAG) == Some(data)
    requires Holds(Fields(Body(Widened(p.words))), PAYMENT_HASH_TAG, PAYMENT_HASH_WORDS, invoice.paymentHash)
    ensures invoice.paymentHash == Some(hash)
  {
    hide Reads, Fields, Laid, Body;
    LaidInvoiceReadsBack(timestamp, fields, signature);
    assert |data| == PAYMENT_HASH_WORDS;
    Regroup.ThereAndBack(hash, data, invoice.paymentHash.value);
  }

  /** Section "Tagged Fields" of BOLT 11 gives each tag its letter, and a hash of 52 words begins `pp5` or `hp5`. */
  lemma TagsHaveTheirLetters(data: Words)
    requires |data| == PAYMENT_HASH_WORDS == DESCRIPTION_HASH_WORDS
    ensures Chars(Narrowed(LaidOne(Field(PAYMENT_HASH_TAG, data))[..3])) == "pp5"
    ensures Chars(Narrowed(LaidOne(Field(DESCRIPTION_HASH_TAG, data))[..3])) == "hp5"
    ensures Chars(Narrowed([EXPIRY_TAG])) == "x"
  {
    Letters();
    assert LaidOne(Field(PAYMENT_HASH_TAG, data))[..3] == [1, 1, 20];
    assert LaidOne(Field(DESCRIPTION_HASH_TAG, data))[..3] == [23, 1, 20];
  }

  lemma Letters()
    ensures Chars(Narrowed([1, 1, 20])) == "pp5" && Chars(Narrowed([23, 1, 20])) == "hp5" && Chars(Narrowed([6])) == "x"
  {
  }
}
