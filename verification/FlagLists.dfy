/**
 * The list flags of the optics tests: OperationalModeList (16-bit) and FrequencyList (64-bit).
 * String prints the numbers with commas; Set parses such a string and appends what it reads.
 */
module FlagLists {
  import opened IpUtil
  import opened Decimals

  const MODE_LIMIT := 0x1_0000
  const FREQUENCY_LIMIT := 0x1_0000_0000_0000_0000

  // Splitting and joining at commas.

  predicate NoComma(s: string) {
    ',' !in s
  }

  function Split(s: string): (parts: seq<string>)
    ensures |parts| >= 1
  {
    if s == [] then [[]]
    else
      var rest := Split(s[1..]);
      if s[0] == ',' then [[]] + rest else [[s[0]] + rest[0]] + rest[1..]
  }

  function Join(parts: seq<string>): string {
    if parts == [] then ""
    else if |parts| == 1 then parts[0]
    else parts[0] + "," + Join(parts[1..])
  }

  lemma {:induction false} JoinSplit(s: string)
    ensures Join(Split(s)) == s
    ensures forall i :: 0 <= i < |Split(s)| ==> NoComma(Split(s)[i])
  {
    if s != [] {
      var rest := Split(s[1..]);
      JoinSplit(s[1..]);
      if s[0] == ',' {
        assert Split(s)[1..] == rest;
      } else {
        assert Split(s)[1..] == rest[1..];
        JoinFirst([s[0]], rest);
      }
      assert s == [s[0]] + s[1..];
    }
  }

  /** Extending the first part extends the joined string. */
  lemma JoinFirst(c: string, parts: seq<string>)
    requires parts != []
    ensures Join([c + parts[0]] + parts[1..]) == c + Join(parts)
  {
    var t := [c + parts[0]] + parts[1..];
    assert t[1..] == parts[1..];
    if |parts| > 1 {
      assert c + parts[0] + "," + Join(parts[1..]) == c + (parts[0] + "," + Join(parts[1..]));
    }
  }

  lemma {:induction false} SplitPart(a: string, t: string)
    requires NoComma(a)
    ensures Split(a) == [a] && Split(a + "," + t) == [a] + Split(t)
  {
    if a == [] {
      assert a + "," + t == "," + t && ("," + t)[1..] == t;
    } else {
      SplitPart(a[1..], t);
      assert (a + "," + t)[1..] == a[1..] + "," + t;
      assert [a[0]] + a[1..] == a;
    }
  }

  lemma {:induction false} SplitJoin(parts: seq<string>)
    requires parts != [] && forall i :: 0 <= i < |parts| ==> NoComma(parts[i])
    ensures Split(Join(parts)) == parts
  {
    hide Split, NoComma;
    if |parts| == 1 {
      SplitPart(parts[0], "");
      assert parts == [parts[0]];
    } else {
      SplitJoin(parts[1..]);
      SplitPart(parts[0], Join(parts[1..]));
      assert parts == [parts[0]] + parts[1..];
    }
  }

  // Printing and parsing.

  function PartsOf(xs: seq<nat>): (parts: seq<string>)
    ensures |parts| == |xs|
  {
    seq(|xs|, i requires 0 <= i < |xs| => Decimal(xs[i]))
  }

  function Printed(xs: seq<nat>): string {
    Join(PartsOf(xs))
  }

  /** ParseUint in base ten: digits only, and below the limit of the width. */
  function ParseUint(s: string, limit: nat): Option<nat> {
    match Value(s)
    case None => None
    case Some(v) => if v < limit then Some(v) else None
  }

  /** The values of the leading parts that parse. */
  function Parsed(parts: seq<string>, limit: nat): seq<nat> {
    if parts == [] then []
    else match ParseUint(parts[0], limit)
      case None => []
      case Some(v) => [v] + Parsed(parts[1..], limit)
  }

  predicate AllParse(parts: seq<string>, limit: nat) {
    forall i :: 0 <= i < |parts| ==> ParseUint(parts[i], limit).Some?
  }

  /** The parsed prefix is as long as possible, and has the values its parts denote. */
  lemma {:induction false} ParsedIs(parts: seq<string>, limit: nat)
    ensures var xs := Parsed(parts, limit);
            && |xs| <= |parts|
            && (forall i :: 0 <= i < |xs| ==> ParseUint(parts[i], limit) == Some(xs[i]))
            && (|xs| < |parts| ==> ParseUint(parts[|xs|], limit) == None)
            && (AllParse(parts, limit) <==> |xs| == |parts|)
  {
    hide ParseUint;
    if parts != [] && ParseUint(parts[0], limit).Some? {
      var xs := Parsed(parts, limit);
      ParsedIs(parts[1..], limit);
      forall i | 0 <= i < |xs|
        ensures ParseUint(parts[i], limit) == Some(xs[i])
      {
        if i > 0 {
          assert parts[i] == parts[1..][i - 1];
        }
      }
      if AllParse(parts[1..], limit) {
        assert forall i :: 1 <= i < |parts| ==> parts[i] == parts[1..][i - 1];
      }
      if AllParse(parts, limit) {
        assert forall i :: 0 <= i < |parts[1..]| ==> parts[1..][i] == parts[i + 1];
      }
    }
  }

  class UintList {
    const limit: nat
    var items: seq<nat>

    constructor OperationalModes()
      ensures limit == 0x1_0000 && items == []
    {
      limit := MODE_LIMIT;
      items := [];
    }

    constructor Frequencies()
      ensures limit == 0x1_0000_0000_0000_0000 && items == []
    {
      limit := FREQUENCY_LIMIT;
      items := [];
    }

    method String() returns (s: string)
      ensures s == Printed(items)
    {
      var parts: seq<string> := [];
      for i := 0 to |items|
        invariant parts == PartsOf(items[..i])
      {
        parts := parts + [Decimal(items[i])];
      }
      assert items[..|items|] == items;
      s := Join(parts);
    }

    /** Appends number by number and stops at the first part that does not parse. */
    method Set(value: string) returns (ok: bool)
      modifies this
      ensures items == old(items) + Parsed(Split(value), limit)
      ensures ok <==> AllParse(Split(value), limit)
    {
      var parts := Split(value);
      ParsedIs(parts, limit);
      ghost var xs := Parsed(parts, limit);
      for i := 0 to |parts|
        invariant i <= |xs| && items == old(items) + xs[..i]
      {
        var v := ParseUint(parts[i], limit);
        if v.None? {
          assert i == |xs| && xs[..i] == xs;
          return false;
        }
        items := items + [v.value];
        assert xs[..i] + [xs[i]] == xs[..i + 1];
      }
      assert xs[..|parts|] == xs;
      ok := true;
    }
  }

  // Round trips.

  lemma DecimalsHaveNoComma(xs: seq<nat>)
    ensures forall i :: 0 <= i < |xs| ==> NoComma(PartsOf(xs)[i])
  {
    hide Decimal;
    forall i | 0 <= i < |xs|
      ensures NoComma(PartsOf(xs)[i])
    {
      DecimalDigits(xs[i]);
    }
  }

  lemma {:induction false} ParsedParts(xs: seq<nat>, limit: nat)
    requires forall i :: 0 <= i < |xs| ==> xs[i] < limit
    ensures Parsed(PartsOf(xs), limit) == xs
  {
    hide Decimal;
    if xs != [] {
      ValueOfDecimal(xs[0]);
      assert PartsOf(xs)[1..] == PartsOf(xs[1..]);
      ParsedParts(xs[1..], limit);
    }
  }

  /** Setting from what String prints appends exactly the printed list, for every list but the empty one. */
  lemma PrintParse(xs: seq<nat>, limit: nat)
    requires forall i :: 0 <= i < |xs| ==> xs[i] < limit
    ensures xs != [] ==> Parsed(Split(Printed(xs)), limit) == xs && AllParse(Split(Printed(xs)), limit)
    ensures xs == [] ==> Parsed(Split(Printed(xs)), limit) == [] && !AllParse(Split(Printed(xs)), limit)
  {
    hide Decimal, Value;
    if xs == [] {
      assert Printed(xs) == "" && Split("") == [""];
      EmptyHasNoValue();
      assert ParseUint(Split(Printed(xs))[0], limit) == None;
    } else {
      DecimalsHaveNoComma(xs);
      SplitJoin(PartsOf(xs));
      ParsedParts(xs, limit);
      ParsedIs(PartsOf(xs), limit);
    }
  }

  /** A printed number parses exactly when it is below the limit of the width. */
  lemma DecimalParsesIff(v: nat, limit: nat)
    ensures ParseUint(Decimal(v), limit) == if v < limit then Some(v) else None
  {
    hide Decimal, Value;
    ValueOfDecimal(v);
  }

  /** A printed list is accepted exactly when it is not empty and every number fits the width. */
  lemma PrintedAcceptedIff(xs: seq<nat>, limit: nat)
    ensures AllParse(Split(Printed(xs)), limit) <==> xs != [] && forall i :: 0 <= i < |xs| ==> xs[i] < limit
  {
    hide Decimal, ParseUint, Split, Join;
    if xs == [] {
      PrintParse(xs, limit);
    } else {
      DecimalsHaveNoComma(xs);
      SplitJoin(PartsOf(xs));
      forall i | 0 <= i < |xs|
        ensures ParseUint(PartsOf(xs)[i], limit).Some? <==> xs[i] < limit
      {
        DecimalParsesIff(xs[i], limit);
      }
    }
  }

  lemma EmptyHasNoValue()
    ensures Value("") == None
  {
  }

  /** A part in the form Decimal gives it: no leading zeros. */
  predicate Canonical(part: string) {
    Value(part).Some? && part == Decimal(Value(part).value)
  }

  /** Printing what Set read gives the string back exactly when every number is written canonically. */
  lemma ParsePrintIff(value: string, limit: nat)
    requires AllParse(Split(value), limit)
    ensures Printed(Parsed(Split(value), limit)) == value <==>
            forall i :: 0 <= i < |Split(value)| ==> Canonical(Split(value)[i])
  {
    hide Decimal, Value, Split, Join;
    var parts := Split(value);
    var xs := Parsed(parts, limit);
    ParsedIs(parts, limit);
    JoinSplit(value);
    if Printed(xs) == value {
      DecimalsHaveNoComma(xs);
      SplitJoin(PartsOf(xs));
      assert parts == PartsOf(xs);
    }
    if forall i :: 0 <= i < |parts| ==> Canonical(parts[i]) {
      assert parts == PartsOf(xs);
    }
  }
}
