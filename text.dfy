/**
 * Text produced by the sink: decimal numbers, comma-separated lists, and the
 * in-memory text writer the formatter appends to.
 */
module Text {
  import opened Wrappers

  predicate IsDigit(c: char) {
    '0' <= c <= '9'
  }

  predicate AllDigits(s: string) {
    forall i :: 0 <= i < |s| ==> IsDigit(s[i])
  }

  function DigitChar(d: nat): (c: char)
    requires d < 10
    ensures IsDigit(c) && c as int - '0' as int == d
  {
    "0123456789"[d]
  }

  /** The decimal digits of `n`, most significant first, without leading zeros. */
  function Digits(n: nat): (s: string)
    ensures |s| >= 1 && AllDigits(s)
    decreases n
  {
    if n < 10 then [DigitChar(n)] else Digits(n / 10) + [DigitChar(n % 10)]
  }

  /** How .NET prints a 64-bit integer: an optional negative sign, then digits. The writer formats with
      the current culture; the sign is taken to be '-', as in the invariant culture. */
  function DecimalText(n: int): (s: string)
    ensures |s| >= 1 && (s[0] == '-' || IsDigit(s[0]))
  {
    if n < 0 then "-" + Digits(-n) else Digits(n)
  }

  function ParseDigits(s: string): nat
    requires AllDigits(s)
    decreases |s|
  {
    if s == [] then 0
    else ParseDigits(s[..|s| - 1]) * 10 + (s[|s| - 1] as int - '0' as int)
  }

  /** Reads back the text of an integer; the partner of DecimalText. */
  function ParseDecimal(s: string): Option<int> {
    if |s| > 1 && s[0] == '-' && AllDigits(s[1..]) then Some(-(ParseDigits(s[1..]) as int))
    else if |s| > 0 && AllDigits(s) then Some(ParseDigits(s))
    else None
  }

  lemma {:induction false} DigitsRoundTrip(n: nat)
    ensures ParseDigits(Digits(n)) == n
    decreases n
  {
    if n >= 10 {
      var s := Digits(n);
      DigitsRoundTrip(n / 10);
      assert s[..|s| - 1] == Digits(n / 10);
    }
  }

  lemma ParseNegative(d: string)
    requires |d| >= 1 && AllDigits(d)
    ensures ParseDecimal("-" + d) == Some(-(ParseDigits(d) as int))
  {
    assert ("-" + d)[1..] == d;
  }

  lemma ParsePositive(d: string)
    requires |d| >= 1 && AllDigits(d)
    ensures ParseDecimal(d) == Some(ParseDigits(d) as int)
  {
    assert d[0] != '-';
  }

  /** The printed integer reads back as the same integer. */
  lemma DecimalRoundTrip(n: int)
    ensures ParseDecimal(DecimalText(n)) == Some(n)
  {
    var t := DecimalText(n);
    if n < 0 {
      var d := Digits(-n);
      assert t == "-" + d;
      ParseNegative(d);
      DigitsRoundTrip(-n);
      assert ParseDecimal(t) == Some(-(ParseDigits(d) as int));
    } else {
      var d := Digits(n);
      assert t == d;
      ParsePositive(d);
      DigitsRoundTrip(n);
      assert ParseDecimal(t) == Some(ParseDigits(d) as int);
    }
  }

  /** The items separated by single commas: no comma before the first or after the last. */
  function Join(items: seq<string>): string
    decreases |items|
  {
    if |items| == 0 then ""
    else if |items| == 1 then items[0]
    else items[0] + "," + Join(items[1..])
  }

  /** Appending one item adds a comma exactly when the list was non-empty. */
  lemma {:induction false} JoinSnoc(items: seq<string>, x: string)
    ensures Join(items + [x]) == if items == [] then x else Join(items) + "," + x
    decreases |items|
  {
    if |items| >= 2 {
      assert (items + [x])[1..] == items[1..] + [x];
      JoinSnoc(items[1..], x);
    } else if |items| == 1 {
      assert (items + [x])[1..] == [x];
    }
  }

  /** Appending is associative; stated once so that proofs about long runs of writes can regroup them
      step by step. */
  lemma AppendAssoc(a: string, b: string, c: string)
    ensures a + (b + c) == a + b + c
  {
  }

  lemma AppendEmpty(s: string)
    ensures [] + s == s
  {
  }

  /** JoinSnoc after a prefix, grouped the way a writer appends: separator, then the item. */
  lemma JoinAfter(prefix: string, items: seq<string>, x: string)
    ensures prefix + Join(items + [x]) == prefix + Join(items) + (if items == [] then "" else ",") + x
  {
    JoinSnoc(items, x);
  }

  /** The in-memory writer (a StringWriter over a StringBuilder). */
  class StringWriter {
    var text: string

    constructor ()
      ensures text == []
    {
      text := [];
    }

    method Write(s: string)
      modifies this
      ensures text == old(text) + s
    {
      text := text + s;
    }

    /** StringBuilder.Remove(Length - 1, 1), which needs a non-empty buffer. */
    method RemoveLast()
      requires |text| > 0
      modifies this
      ensures text == old(text)[..|old(text)| - 1]
    {
      text := text[..|text| - 1];
    }
  }
}
