/** Separator-delimited text: Python's `sep.join(parts)` and `s.split(sep)` for a
    one-character separator, and the decimal text of a natural number. */
module Text {
  import opened Wrappers

  function Join(parts: seq<string>, sep: char): string
  {
    if |parts| == 0 then ""
    else if |parts| == 1 then parts[0]
    else parts[0] + [sep] + Join(parts[1..], sep)
  }

  function Split(s: string, sep: char): (parts: seq<string>)
    ensures |parts| >= 1
  {
    if s == "" then [""]
    else
      var rest := Split(s[1..], sep);
      if s[0] == sep then [""] + rest else [[s[0]] + rest[0]] + rest[1..]
  }

  predicate Free(parts: seq<string>, sep: char)
  {
    forall p :: p in parts ==> sep !in p
  }

  /** Splitting and joining again gives back every text. */
  lemma {:induction false} JoinOfSplit(s: string, sep: char)
    ensures Join(Split(s, sep), sep) == s
    ensures Free(Split(s, sep), sep)
  {
    if s != "" {
      var rest := Split(s[1..], sep);
      JoinOfSplit(s[1..], sep);
      var parts := Split(s, sep);
      if s[0] == sep {
        assert parts[1..] == rest;
      } else {
        assert parts[1..] == rest[1..];
        assert s == [s[0]] + s[1..];
      }
    }
  }

  /** A piece without separators in front of a joined tail is split off whole. */
  lemma {:induction false} SplitPrefix(p: string, tail: string, sep: char)
    requires sep !in p
    ensures Split(p + [sep] + tail, sep) == [p] + Split(tail, sep)
  {
    var s := p + [sep] + tail;
    if p == "" {
      assert s[1..] == tail;
    } else {
      assert s[1..] == p[1..] + [sep] + tail;
      SplitPrefix(p[1..], tail, sep);
      assert p == [p[0]] + p[1..];
    }
  }

  lemma {:induction false} SplitWhole(p: string, sep: char)
    requires sep !in p
    ensures Split(p, sep) == [p]
  {
    if p != "" {
      SplitWhole(p[1..], sep);
      assert p == [p[0]] + p[1..];
    }
  }

  /** Joining and splitting again gives back the list exactly when the list is
      non-empty and no element contains the separator. */
  lemma {:induction false} SplitOfJoin(parts: seq<string>, sep: char)
    ensures Split(Join(parts, sep), sep) == parts <==> parts != [] && Free(parts, sep)
  {
    JoinOfSplit(Join(parts, sep), sep);
    if parts != [] && Free(parts, sep) {
      SplitOfFreeJoin(parts, sep);
    }
  }

  lemma {:induction false} SplitOfFreeJoin(parts: seq<string>, sep: char)
    requires parts != [] && Free(parts, sep)
    ensures Split(Join(parts, sep), sep) == parts
  {
    if |parts| == 1 {
      SplitWhole(parts[0], sep);
    } else {
      SplitPrefix(parts[0], Join(parts[1..], sep), sep);
      SplitOfFreeJoin(parts[1..], sep);
    }
  }

  /** A list field as the stores keep it: the joined text when the list is non-empty,
      read back by splitting only a non-empty text. */
  function ReadList(text: string): seq<string>
  {
    if text == "" then [] else Split(text, ',')
  }

  /** A list survives storage exactly when it is not the one-element list holding the
      empty text and no element contains a comma. */
  lemma ListRoundTrip(parts: seq<string>)
    ensures ReadList(Join(parts, ',')) == parts <==> parts != [""] && Free(parts, ',')
  {
    SplitOfJoin(parts, ',');
    if parts != [] && Join(parts, ',') == "" {
      assert |parts| == 1;
    }
  }

  // ---- decimal text of a count ----

  function Digit(d: nat): char
    requires d < 10
  {
    ['0', '1', '2', '3', '4', '5', '6', '7', '8', '9'][d]
  }

  function DigitValue(c: char): Option<nat>
  {
    if '0' <= c <= '9' then Some((c - '0') as nat) else None
  }

  function Decimal(n: nat): (s: string)
  {
    if n < 10 then [Digit(n)] else Decimal(n / 10) + [Digit(n % 10)]
  }

  function ParseDecimal(s: string): Option<nat>
  {
    if s == "" then None
    else
      var last := DigitValue(s[|s| - 1]);
      if |s| == 1 then last
      else
        var front := ParseDecimal(s[..|s| - 1]);
        if front.None? || last.None? then None else Some(10 * front.value + last.value)
  }

  lemma {:induction false} DecimalRoundTrip(n: nat)
    ensures ParseDecimal(Decimal(n)) == Some(n)
    ensures Decimal(n) != ""
  {
    if n >= 10 {
      DecimalRoundTrip(n / 10);
      var s := Decimal(n);
      assert s[..|s| - 1] == Decimal(n / 10);
      assert s[|s| - 1] == Digit(n % 10);
    }
  }
}
