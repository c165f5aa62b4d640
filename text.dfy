/**
 * The Python text conversions the flat-file store relies on: `",".join`,
 * `str.split(",")`, `str(int)`, `int(str)`, `str(bool)` and `bool(str)`.
 */
module Text {
  import opened Wrappers

  /** `",".join(xs)`: the elements separated by commas. */
  function Join(xs: seq<string>): (s: string)
    ensures |xs| == 1 ==> s == xs[0]
  {
    if |xs| == 0 then ""
    else if |xs| == 1 then xs[0]
    else xs[0] + "," + Join(xs[1..])
  }

  /** `s.split(",")`: the pieces between commas; always at least one piece. */
  function Split(s: string): (parts: seq<string>)
    ensures |parts| >= 1
    ensures forall k :: 0 <= k < |parts| ==> ',' !in parts[k]
  {
    if s == [] then [""]
    else
      var rest := Split(s[1..]);
      if s[0] == ',' then [""] + rest
      else [[s[0]] + rest[0]] + rest[1..]
  }

  /** The reader's list decoding: `s.split(",") if s else []`. */
  function SplitList(s: string): (xs: seq<string>)
    ensures s == "" <==> xs == []
  {
    if s == "" then [] else Split(s)
  }

  /** An element that survives a join followed by a split. */
  predicate IsListElement(x: string) {
    x != "" && ',' !in x
  }

  /** Splitting a comma-free element followed by a comma peels that element off. */
  lemma {:induction false} SplitAfterElement(e: string, rest: string)
    requires ',' !in e
    ensures Split(e + "," + rest) == [e] + Split(rest)
    ensures Split(e) == [e]
    decreases |e|
  {
    if e == [] {
      assert e + "," + rest == [','] + rest;
      assert ([','] + rest)[1..] == rest;
    } else {
      var tail := e[1..];
      SplitAfterElement(tail, rest);
      assert (e + "," + rest)[1..] == tail + "," + rest;
      assert [e[0]] + tail == e;
    }
  }

  /** Splitting undoes joining a non-empty list of comma-free elements. */
  lemma {:induction false} SplitJoin(xs: seq<string>)
    requires |xs| >= 1
    requires forall k :: 0 <= k < |xs| ==> ',' !in xs[k]
    ensures Split(Join(xs)) == xs
    decreases |xs|
  {
    if |xs| == 1 {
      SplitAfterElement(xs[0], "");
    } else {
      SplitAfterElement(xs[0], Join(xs[1..]));
      SplitJoin(xs[1..]);
    }
  }

  /** A list field written with Join and read with SplitList comes back unchanged. */
  lemma {:induction false} ListFieldRoundTrip(xs: seq<string>)
    requires forall k :: 0 <= k < |xs| ==> IsListElement(xs[k])
    ensures SplitList(Join(xs)) == xs
  {
    if |xs| >= 1 {
      assert Join(xs) != "" by {
        if |xs| > 1 {
          assert Join(xs)[|xs[0]|] == ',';
        }
      }
      SplitJoin(xs);
    }
  }

  /** The empty list is written as "" and read back empty; `[""]` is not recovered, nor is an id with a comma. */
  lemma ListFieldLosses()
    ensures Join([]) == "" && SplitList(Join([])) == []
    ensures SplitList(Join([""])) == []
    ensures SplitList(Join(["a,b"])) == ["a", "b"]
  {
    SplitAfterElement("a", "b");
    SplitAfterElement("b", "");
    assert "a" + "," + "b" == "a,b";
  }

  predicate IsDigit(c: char) {
    '0' <= c <= '9'
  }

  predicate AllDigits(s: string) {
    forall k :: 0 <= k < |s| ==> IsDigit(s[k])
  }

  function DigitChar(d: nat): (c: char)
    requires d < 10
    ensures IsDigit(c) && c as int - '0' as int == d
  {
    ('0' as int + d) as char
  }

  /** The decimal digits of a non-negative integer, most significant first. */
  function NatToText(n: nat): (s: string)
    ensures |s| >= 1 && AllDigits(s)
  {
    if n < 10 then [DigitChar(n)]
    else NatToText(n / 10) + [DigitChar(n % 10)]
  }

  /** `str(n)`: an optional minus sign followed by the decimal digits. */
  function IntToText(n: int): (s: string)
    ensures |s| >= 1
    ensures s[0] == '-' <==> n < 0
    ensures AllDigits(s) <==> n >= 0
  {
    if n < 0 then "-" + NatToText(-n) else NatToText(n)
  }

  /** The value of a run of decimal digits. */
  function DigitsValue(s: string): int {
    if s == [] then 0
    else DigitsValue(s[..|s| - 1]) * 10 + (s[|s| - 1] as int - '0' as int)
  }

  /**
   * `int(s)`: an optional sign followed by one or more ASCII digits; any
   * other text is the ValueError that `int` raises, here `None`.
   */
  function ParseInt(s: string): (r: Option<int>)
    ensures r.Some? <==> (|s| >= 1 && AllDigits(s)) || (|s| >= 2 && (s[0] == '-' || s[0] == '+') && AllDigits(s[1..]))
  {
    if |s| >= 1 && (s[0] == '-' || s[0] == '+') then
      if |s| >= 2 && AllDigits(s[1..]) then
        Some(if s[0] == '-' then -DigitsValue(s[1..]) else DigitsValue(s[1..]))
      else None
    else if |s| >= 1 && AllDigits(s) then Some(DigitsValue(s))
    else None
  }

  lemma {:induction false} NatToTextValue(n: nat)
    ensures DigitsValue(NatToText(n)) == n
  {
    var s := NatToText(n);
    if n < 10 {
      assert s[..0] == [];
    } else {
      assert s[..|s| - 1] == NatToText(n / 10);
      NatToTextValue(n / 10);
    }
  }

  /** A stored integer reads back as itself, negative ones included. */
  lemma {:induction false} IntTextRoundTrip(n: int)
    ensures ParseInt(IntToText(n)) == Some(n)
  {
    var s := IntToText(n);
    if n < 0 {
      var digits := NatToText(-n);
      assert s == "-" + digits && s[0] == '-' && s[1..] == digits;
      NatToTextValue(-n);
      assert ParseInt(s) == Some(-DigitsValue(digits));
    } else {
      var digits := NatToText(n);
      assert s == digits && IsDigit(s[0]);
      NatToTextValue(n);
      assert ParseInt(s) == Some(DigitsValue(s));
    }
  }

  /** Text that is not an integer: `int("")` and `int("abc")` raise. */
  lemma ParseIntRejects()
    ensures ParseInt("") == None
    ensures ParseInt("-") == None
    ensures ParseInt("abc") == None
  {
  }

  /** `str(b)`. */
  function BoolToText(b: bool): (s: string)
    ensures s != ""
    ensures s == "True" <==> b
  {
    if b then "True" else "False"
  }

  /** `bool(s)`: true for every non-empty text. */
  function ParseBool(s: string): (b: bool)
    ensures b <==> |s| > 0
    ensures s == "False" ==> b
  {
    s != ""
  }

  /** Every stored flag reads back as true: a stored `False` becomes true. */
  lemma BoolTextLossy(b: bool)
    ensures ParseBool(BoolToText(b))
    ensures ParseBool(BoolToText(b)) == b <==> b
  {
  }
}
