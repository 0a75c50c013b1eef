/**
 * The bank list offered by the account and card forms: the banks of the public
 * bank registry, kept when they have a code and a name, turned into select
 * options and ordered by label. The label comparison (`localeCompare`) is a
 * parameter: any comparison that orders every pair of labels consistently.
 */
module BrasilApi {
  import opened Wrappers
  import opened Js

  /** A bank as the registry returns it; `None` is `null`/`undefined`. */
  datatype BankFromApi = BankFromApi(ispb: string, name: Option<string>, code: Option<int>)

  /** One option of the select. */
  datatype BankOption = BankOption(value: string, labelText: string, code: int, ispb: string)

  /** `bank && bank.code !== null && bank.code !== undefined && bank.name`: code 0 is kept. */
  predicate Usable(bank: Option<BankFromApi>) {
    bank.Some? && bank.value.code.Some? && Truthy(bank.value.name)
  }

  /** The option built from a usable bank. */
  function OptionOf(bank: BankFromApi): (o: BankOption)
    requires bank.code.Some? && bank.name.Some?
    ensures o.code == bank.code.value && o.ispb == bank.ispb
    ensures o.value == IntToString(bank.code.value)
    // the label is the code padded with '0' to three characters, " - ", then the name
    ensures |o.labelText| >= 3 + 3 + |bank.name.value|
    ensures o.labelText[|o.labelText| - |bank.name.value|..] == bank.name.value
  {
    var code := IntToString(bank.code.value);
    var padded := PadStart(code, 3, '0');
    BankOption(code, padded + " - " + bank.name.value, bank.code.value, bank.ispb)
  }

  /** The filter and map steps. */
  function UsableOptions(banks: seq<Option<BankFromApi>>): (r: seq<BankOption>)
    ensures |r| <= |banks|
  {
    if banks == [] then []
    else
      var rest := UsableOptions(banks[1..]);
      if Usable(banks[0]) then [OptionOf(banks[0].value)] + rest else rest
  }

  /** How many banks of the input are usable. */
  function CountUsable(banks: seq<Option<BankFromApi>>): nat {
    if banks == [] then 0 else (if Usable(banks[0]) then 1 else 0) + CountUsable(banks[1..])
  }

  /** A comparison on labels, `before(a, b)` standing for `a.localeCompare(b) <= 0`. */
  ghost predicate ConsistentOrder(before: (string, string) -> bool) {
    && (forall a, b :: before(a, b) || before(b, a))
    && (forall a, b, c :: before(a, b) && before(b, c) ==> before(a, c))
  }

  ghost predicate SortedBy(s: seq<BankOption>, before: (string, string) -> bool) {
    forall i, j :: 0 <= i < j < |s| ==> before(s[i].labelText, s[j].labelText)
  }

  /** Inserting one more option behind every option that may precede it. */
  function Insert(o: BankOption, s: seq<BankOption>, before: (string, string) -> bool): (r: seq<BankOption>)
    ensures multiset(r) == multiset(s) + multiset{o}
    ensures |r| == |s| + 1
    ensures forall x :: x in r <==> x == o || x in s
  {
    if s == [] then [o]
    else if before(s[0].labelText, o.labelText) then
      assert s == [s[0]] + s[1..];
      [s[0]] + Insert(o, s[1..], before)
    else [o] + s
  }

  /** `Array.prototype.sort` with the label comparison, as a stable insertion sort. */
  function SortByLabel(s: seq<BankOption>, before: (string, string) -> bool): (r: seq<BankOption>)
    ensures multiset(r) == multiset(s)
    ensures |r| == |s|
  {
    if s == [] then []
    else
      assert s == s[..|s| - 1] + [s[|s| - 1]];
      Insert(s[|s| - 1], SortByLabel(s[..|s| - 1], before), before)
  }

  /** `formatBanksForSelect(banks)`; `None` is a `null` argument. */
  function FormatBanksForSelect(banks: Option<seq<Option<BankFromApi>>>, before: (string, string) -> bool): (r: seq<BankOption>)
    ensures banks.None? || banks.value == [] ==> r == []
    ensures banks.Some? ==> multiset(r) == multiset(UsableOptions(banks.value))
  {
    if banks.None? || |banks.value| == 0 then []
    else SortByLabel(UsableOptions(banks.value), before)
  }

  /** Putting in front an option that may precede every other keeps the order. */
  lemma ConsSorted(x: BankOption, t: seq<BankOption>, before: (string, string) -> bool)
    requires SortedBy(t, before)
    requires forall y :: y in t ==> before(x.labelText, y.labelText)
    ensures SortedBy([x] + t, before)
  {
    var r := [x] + t;
    forall i, j | 0 <= i < j < |r|
      ensures before(r[i].labelText, r[j].labelText)
    {
      assert r[j] == t[j - 1];
      if i > 0 {
        assert r[i] == t[i - 1];
      }
    }
  }

  lemma {:induction false} InsertKeepsSorted(o: BankOption, s: seq<BankOption>, before: (string, string) -> bool)
    requires ConsistentOrder(before) && SortedBy(s, before)
    ensures SortedBy(Insert(o, s, before), before)
    decreases |s|
  {
    if s != [] {
      assert forall k :: 0 < k < |s| ==> before(s[0].labelText, s[k].labelText);
      if before(s[0].labelText, o.labelText) {
        assert SortedBy(s[1..], before);
        InsertKeepsSorted(o, s[1..], before);
        ConsSorted(s[0], Insert(o, s[1..], before), before);
      } else {
        assert before(o.labelText, s[0].labelText);
        ConsSorted(o, s, before);
      }
    }
  }

  lemma {:induction false} SortByLabelSorted(s: seq<BankOption>, before: (string, string) -> bool)
    requires ConsistentOrder(before)
    ensures SortedBy(SortByLabel(s, before), before)
    decreases |s|
  {
    if s != [] {
      SortByLabelSorted(s[..|s| - 1], before);
      InsertKeepsSorted(s[|s| - 1], SortByLabel(s[..|s| - 1], before), before);
    }
  }

  /** The options come out ordered by label. */
  lemma FormattedSorted(banks: Option<seq<Option<BankFromApi>>>, before: (string, string) -> bool)
    requires ConsistentOrder(before)
    ensures SortedBy(FormatBanksForSelect(banks, before), before)
  {
    if banks.Some? && |banks.value| != 0 {
      SortByLabelSorted(UsableOptions(banks.value), before);
    }
  }

  /** One option per usable bank. */
  lemma {:induction false} UsableOptionsCount(banks: seq<Option<BankFromApi>>)
    ensures |UsableOptions(banks)| == CountUsable(banks)
    decreases |banks|
  {
    if banks != [] {
      UsableOptionsCount(banks[1..]);
    }
  }

  /** Each option is the option of a usable bank of the input, found at index `i`. */
  lemma {:induction false} SourceOf(banks: seq<Option<BankFromApi>>, o: BankOption) returns (i: nat)
    requires o in UsableOptions(banks)
    ensures i < |banks| && Usable(banks[i]) && o == OptionOf(banks[i].value)
    decreases |banks|
  {
    var rest := UsableOptions(banks[1..]);
    if Usable(banks[0]) && o == OptionOf(banks[0].value) {
      i := 0;
    } else {
      assert o in rest;
      var k := SourceOf(banks[1..], o);
      i := k + 1;
    }
  }

  /** The output has exactly one option per usable bank. */
  lemma FormattedCount(banks: seq<Option<BankFromApi>>, before: (string, string) -> bool)
    ensures |FormatBanksForSelect(Some(banks), before)| == CountUsable(banks)
  {
    UsableOptionsCount(banks);
  }

  /** Every option of the output is built from a usable bank of the input. */
  lemma FormattedSource(banks: seq<Option<BankFromApi>>, before: (string, string) -> bool, o: BankOption)
    requires o in FormatBanksForSelect(Some(banks), before)
    ensures exists i :: 0 <= i < |banks| && Usable(banks[i]) && o == OptionOf(banks[i].value)
  {
    assert o in multiset(FormatBanksForSelect(Some(banks), before));
    var i := SourceOf(banks, o);
  }

  lemma {:induction false} UsableOptionPresent(banks: seq<Option<BankFromApi>>, i: nat)
    requires i < |banks| && Usable(banks[i])
    ensures OptionOf(banks[i].value) in UsableOptions(banks)
    decreases i
  {
    var rest := UsableOptions(banks[1..]);
    if i > 0 {
      assert banks[1..][i - 1] == banks[i];
      UsableOptionPresent(banks[1..], i - 1);
      assert OptionOf(banks[i].value) in rest;
    }
  }

  /** Every usable bank of the input has its option in the output. */
  lemma UsableBankListed(banks: seq<Option<BankFromApi>>, before: (string, string) -> bool, i: nat)
    requires i < |banks| && Usable(banks[i])
    ensures OptionOf(banks[i].value) in FormatBanksForSelect(Some(banks), before)
  {
    UsableOptionPresent(banks, i);
    assert OptionOf(banks[i].value) in multiset(UsableOptions(banks));
  }

  /** The value of an option reads back as its code. */
  lemma OptionValueReadsBack(bank: BankFromApi)
    requires bank.code.Some? && bank.code.value >= 0 && bank.name.Some?
    ensures ParseInt(OptionOf(bank).value) == Some(bank.code.value)
  {
    ParseIntOfNatToString(bank.code.value);
  }
}
