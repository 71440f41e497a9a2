/** The amount an invoice names in its prefix. */
module Amounts {
  import opened Options
  import opened Bech32Strings

  /** The multipliers, with their worth in tenths of a millisatoshi, the least of which is one. */
  const UNITS: seq<string> := ["", "m", "u", "n", "p"]

  function Tenths(unit: string): nat {
    if unit == "m" then 1_000_000_000
    else if unit == "u" then 1_000_000
    else if unit == "n" then 1_000
    else if unit == "p" then 1
    else 1_000_000_000_000
  }

  /** Section "Human-Readable Part" of BOLT 11: a bitcoin is a hundred thousand million millisatoshi, and so on down. */
  lemma UnitsAreThousandths()
    ensures Tenths("") == 10 * 100_000_000_000
    ensures Tenths("") == 1000 * Tenths("m") && Tenths("m") == 1000 * Tenths("u")
    ensures Tenths("u") == 1000 * Tenths("n") && Tenths("n") == 1000 * Tenths("p")
  {
  }

  /** The number some digits write. */
  function ValueOf(digits: string): nat
    requires Figures(digits)
  {
    if digits == [] then 0
    else 10 * ValueOf(digits[..|digits| - 1]) + (digits[|digits| - 1] as int - '0' as int)
  }

  /** A number as it is written. */
  function Decimal(n: nat): (digits: string)
    ensures Digits(digits)
  {
    var last := [('0' as int + n % 10) as char];
    if n < 10 then last else Decimal(n / 10) + last
  }

  lemma {:induction false} DecimalReadsBack(n: nat)
    ensures ValueOf(Decimal(n)) == n
  {
    var digits := Decimal(n);
    if n >= 10 {
      assert digits[..|digits| - 1] == Decimal(n / 10);
      DecimalReadsBack(n / 10);
    } else {
      assert digits[..0] == [];
    }
  }

  /** The prefix of a network and, in digits and a unit, an amount. */
  ghost predicate Named(hrp: string, network: string, digits: string, unit: string) {
    network in NETWORKS && Digits(digits) && unit in UNITS && hrp == network + digits + unit
  }

  /** Of the ways to read a prefix the networks leave just one: none of them is another and a digit. */
  lemma NetworkIsDetermined(hrp: string, m: string, n: string)
    requires m in NETWORKS && n in NETWORKS && m <= hrp && n <= hrp
    requires |m| < |hrp| && '0' <= hrp[|m|] <= '9' && |n| < |hrp| && '0' <= hrp[|n|] <= '9'
    ensures m == n
  {
    LettersOnly(m);
    LettersOnly(n);
    assert m == hrp[..|m|] && n == hrp[..|n|];
    assert forall i :: 0 <= i < |m| ==> hrp[i] == m[i];
    assert forall i :: 0 <= i < |n| ==> hrp[i] == n[i];
  }

  lemma LettersOnly(network: string)
    requires network in NETWORKS
    ensures forall i :: 0 <= i < |network| ==> 'a' <= network[i] <= 'z'
  {
  }

  lemma UnitIsDetermined(digits: string, unit: string, other: string, rest: string)
    requires Digits(digits) && Digits(other) && unit in UNITS && rest in UNITS && digits + unit == other + rest
    ensures digits == other && unit == rest
  {
    NoLonger(digits, unit, other, rest);
    NoLonger(other, rest, digits, unit);
    var text := digits + unit;
    assert digits == text[..|digits|] && other == text[..|digits|];
    assert unit == text[|digits|..] && rest == text[|digits|..];
  }

  lemma NoLonger(digits: string, unit: string, other: string, rest: string)
    requires Digits(other) && unit in UNITS && digits + unit == other + rest
    ensures |other| <= |digits|
  {
    var text := other + rest;
    assert forall i :: 0 <= i < |other| ==> '0' <= text[i] <= '9';
    assert forall i :: 0 <= i < |unit| ==> text[|digits| + i] == unit[i] && !('0' <= unit[i] <= '9');
    assert unit != [] ==> text[|digits|] == unit[0];
  }

  /** No prefix names two amounts. */
  lemma AmountIsDetermined(
    hrp: string, network: string, digits: string, unit: string, net: string, figures: string, multiple: string)
    requires Named(hrp, network, digits, unit) && Named(hrp, net, figures, multiple)
    ensures network == net && digits == figures && unit == multiple
  {
    assert hrp[|network|] == digits[0] && hrp[|net|] == figures[0];
    NetworkIsDetermined(hrp, network, net);
    assert digits + unit == hrp[|network|..] && figures + multiple == hrp[|network|..];
    UnitIsDetermined(digits, unit, figures, multiple);
  }

  /** What a prefix is worth: a whole number of millisatoshi, if it names one. */
  ghost predicate Worth(hrp: string, msat: Option<nat>) {
    && (msat.Some? <==> exists network, digits, unit ::
      Named(hrp, network, digits, unit) && (ValueOf(digits) * Tenths(unit)) % 10 == 0)
    && (forall network, digits, unit :: Named(hrp, network, digits, unit) && msat.Some? ==>
      10 * msat.value == ValueOf(digits) * Tenths(unit))
  }

  /** A number of tenths is whole exactly when it ends in a zero or the unit has none. */
  lemma WholeWhenItEndsInZero(digits: string, unit: string)
    requires Digits(digits) && unit in UNITS
    ensures (ValueOf(digits) * Tenths(unit)) % 10 == 0 <==> unit != "p" || digits[|digits| - 1] == '0'
  {
    EndsInItsLastDigit(digits);
    if unit != "p" { WholeTimes(ValueOf(digits), Tenths(unit)); }
  }

  lemma EndsInItsLastDigit(digits: string)
    requires Digits(digits)
    ensures ValueOf(digits) % 10 == 0 <==> digits[|digits| - 1] == '0'
  {
  }

  lemma WholeTimes(value: nat, tenths: nat)
    requires tenths % 10 == 0
    ensures (value * tenths) % 10 == 0
  {
    assert value * tenths == 10 * (value * (tenths / 10));
  }

  /** `HRP.exec`: the network, tried in order, and what follows it. */
  method NetworkOf(hrp: string) returns (network: string)
    requires IsHrp(hrp)
    ensures network in NETWORKS && network <= hrp && Amount(hrp[|network|..])
  {
    var i := 0;
    while !(NETWORKS[i] <= hrp && Amount(hrp[|NETWORKS[i]|..]))
      invariant i < |NETWORKS|
      invariant forall j :: 0 <= j < i ==> !(NETWORKS[j] <= hrp && Amount(hrp[|NETWORKS[j]|..]))
      decreases |NETWORKS| - i
    {
      i := i + 1;
    }
    network := NETWORKS[i];
  }

  /** `amountFromHrp`. */
  method AmountFromHrp(hrp: string) returns (msat: Option<nat>)
    ensures Worth(hrp, msat)
  {
    hide IsHrp, NETWORKS, UNITS, Named, Worth, Tenths, Amount;
    if !IsHrp(hrp) {
      NoPrefixNamesNone(hrp);
      return None;
    }
    var network := NetworkOf(hrp);
    var amount := hrp[|network|..];
    assert hrp == network + amount;
    if amount == [] {
      assert hrp == network;
      NamesNone(network);
      return None;
    }
    var unit := if amount[|amount| - 1] in "munp" then amount[|amount| - 1..] else "";
    var digits := amount[..|amount| - |unit|];
    SplitsAmount(amount, digits, unit);
    WorthOf(hrp, network, digits, unit);
    if unit == "p" && digits[|digits| - 1] != '0' { return None; }
    msat := Some(ValueOf(digits) * Tenths(unit) / 10);
  }

  lemma WorthOf(hrp: string, network: string, digits: string, unit: string)
    requires network in NETWORKS && Digits(digits) && unit in UNITS && hrp == network + digits + unit
    ensures Worth(hrp, if unit == "p" && digits[|digits| - 1] != '0' then None
      else Some(ValueOf(digits) * Tenths(unit) / 10))
  {
    hide ValueOf, Tenths;
    WholeWhenItEndsInZero(digits, unit);
    assert Named(hrp, network, digits, unit);
    OneWorth(hrp, network, digits, unit);
  }

  lemma SplitsAmount(amount: string, digits: string, unit: string)
    requires amount != [] && Amount(amount)
    requires unit == if amount[|amount| - 1] in "munp" then amount[|amount| - 1..] else ""
    requires digits == amount[..|amount| - |unit|]
    ensures Digits(digits) && unit in UNITS && amount == digits + unit
  {
    if amount[|amount| - 1] in "munp" {
      assert unit == [amount[|amount| - 1]];
    } else {
      assert digits == amount;
    }
  }

  lemma NoPrefixNamesNone(hrp: string)
    requires !IsHrp(hrp)
    ensures Worth(hrp, None)
  {
    hide NETWORKS, Tenths;
    forall network, digits, unit ensures !Named(hrp, network, digits, unit) {
      if Named(hrp, network, digits, unit) { NamedIsHrp(hrp, network, digits, unit); }
    }
  }

  lemma NamedIsHrp(hrp: string, network: string, digits: string, unit: string)
    requires Named(hrp, network, digits, unit)
    ensures IsHrp(hrp)
  {
    hide NETWORKS;
    var i :| 0 <= i < |NETWORKS| && NETWORKS[i] == network;
    assert hrp[|network|..] == digits + unit;
    assert (digits + unit)[..|digits|] == digits;
  }

  /** Section "Human-Readable Part" of BOLT 11: one of the networks, and an amount or none. */
  lemma PrefixesAre(hrp: string)
    ensures var networks := ["lnbc", "lntb", "lntbs", "lnbcrt", "lnsb"];
      IsHrp(hrp) <==> exists network :: network in networks && Begins(hrp, network)
  {
    hide Tenths;
    assert forall network :: network in NETWORKS <==> network in ["lnbc", "lntb", "lntbs", "lnbcrt", "lnsb"];
    hide NETWORKS;
    if IsHrp(hrp) {
      var i :| 0 <= i < |NETWORKS| && NETWORKS[i] <= hrp && Amount(hrp[|NETWORKS[i]|..]);
      BeginsWith(hrp, NETWORKS[i]);
    }
    if network :| network in NETWORKS && Begins(hrp, network) {
      if hrp == network {
        var i :| 0 <= i < |NETWORKS| && NETWORKS[i] == network;
        assert hrp[|network|..] == [];
      } else {
        var digits, unit :| Named(hrp, network, digits, unit);
        NamedIsHrp(hrp, network, digits, unit);
      }
    }
  }

  ghost predicate Begins(hrp: string, network: string) {
    hrp == network || exists digits, unit :: Named(hrp, network, digits, unit)
  }

  lemma BeginsWith(hrp: string, network: string)
    requires network in NETWORKS && network <= hrp && Amount(hrp[|network|..])
    ensures Begins(hrp, network)
  {
    hide NETWORKS;
    var amount := hrp[|network|..];
    assert hrp == network + amount;
    if amount != [] {
      var unit := if amount[|amount| - 1] in "munp" then amount[|amount| - 1..] else "";
      SplitsAmount(amount, amount[..|amount| - |unit|], unit);
      assert Named(hrp, network, amount[..|amount| - |unit|], unit);
    }
  }

  lemma NamesNone(hrp: string)
    requires hrp in NETWORKS
    ensures Worth(hrp, None)
  {
    forall network, digits, unit ensures !Named(hrp, network, digits, unit) {
      if Named(hrp, network, digits, unit) {
        assert hrp[|network|] == digits[0];
        LettersOnly(hrp);
      }
    }
  }

  lemma OneWorth(hrp: string, network: string, digits: string, unit: string)
    requires Named(hrp, network, digits, unit)
    ensures forall net, figures, multiple :: Named(hrp, net, figures, multiple) ==>
      net == network && figures == digits && multiple == unit
  {
    hide Named;
    forall net, figures, multiple | Named(hrp, net, figures, multiple)
      ensures net == network && figures == digits && multiple == unit
    {
      AmountIsDetermined(hrp, network, digits, unit, net, figures, multiple);
    }
  }

  /** An amount that is written is the amount read, whatever it is, unless it is no whole millisatoshi. */
  lemma WrittenAmountIsRead(network: string, n: nat, unit: string, msat: Option<nat>)
    requires network in NETWORKS && unit in UNITS
    requires Worth(network + Decimal(n) + unit, msat)
    ensures if (n * Tenths(unit)) % 10 == 0 then msat == Some(n * Tenths(unit) / 10) else msat == None
  {
    var hrp := network + Decimal(n) + unit;
    DecimalReadsBack(n);
    assert Named(hrp, network, Decimal(n), unit);
    OneWorth(hrp, network, Decimal(n), unit);
  }
}
