/**
  Joining and splitting strings on a separator.

  `Join` stands in for the `join(Iterable, String)` of Apache Commons Lang's
  `StringUtils`: the parts in order, with the separator between neighbours and
  nowhere else. `Split` is its inverse on a one-character separator; it is the
  reference used to state what a dotted name is made of.
 */
module Strings {

  /** The parts in order with `sep` between each pair of neighbours. */
  function Join(parts: seq<string>, sep: string): string
  {
    if |parts| == 0 then ""
    else if |parts| == 1 then parts[0]
    else parts[0] + sep + Join(parts[1..], sep)
  }

  /** Splits `s` at every occurrence of `sep`; a string without `sep` is one part. */
  function Split(s: string, sep: char): (r: seq<string>)
    ensures |r| >= 1
    ensures forall i :: 0 <= i < |r| ==> sep !in r[i]
    decreases |s|
  {
    if s == [] then [""]
    else
      var rest := Split(s[1..], sep);
      if s[0] == sep then [""] + rest
      else [[s[0]] + rest[0]] + rest[1..]
  }

  /** Round trip: joining the parts of `s` back on `sep` gives `s`. */
  lemma {:induction false} JoinSplit(s: string, sep: char)
    ensures Join(Split(s, sep), [sep]) == s
    decreases |s|
  {
    if s != [] {
      var rest := Split(s[1..], sep);
      JoinSplit(s[1..], sep);
      if s[0] == sep {
        assert [sep] + Join(rest, [sep]) == s;
      } else {
        JoinExtendFirst(s[0], rest, [sep]);
        assert [s[0]] + Join(rest, [sep]) == s;
      }
    }
  }

  /** Putting a character in front of the first part puts it in front of the whole. */
  lemma JoinExtendFirst(c: char, parts: seq<string>, sep: string)
    requires |parts| >= 1
    ensures Join([[c] + parts[0]] + parts[1..], sep) == [c] + Join(parts, sep)
  {
    var ext := [[c] + parts[0]] + parts[1..];
    if |parts| > 1 {
      assert ext[1..] == parts[1..];
    }
  }

  /** Joining one more part appends the separator and that part: the form used by
      the dotted name of a nested descriptor. */
  lemma {:induction false} JoinAppend(parts: seq<string>, last: string, sep: string)
    requires parts != []
    ensures Join(parts + [last], sep) == Join(parts, sep) + sep + last
  {
    if |parts| == 1 {
      assert parts + [last] == [parts[0], last];
    } else {
      var tail := parts[1..];
      assert (parts + [last])[1..] == tail + [last];
      JoinAppend(tail, last, sep);
    }
  }

  /** Joining a part in front of a non-empty list. */
  lemma JoinPrepend(first: string, parts: seq<string>, sep: string)
    requires parts != []
    ensures Join([first] + parts, sep) == first + sep + Join(parts, sep)
  {
    assert ([first] + parts)[1..] == parts;
  }

  /** The separator cuts cleanly: the parts of `a . b` are those of `a` followed
      by those of `b`. */
  lemma {:induction false} SplitConcat(a: string, b: string, sep: char)
    ensures Split(a + [sep] + b, sep) == Split(a, sep) + Split(b, sep)
    decreases |a|
  {
    var s := a + [sep] + b;
    if a == [] {
      assert s[1..] == b;
    } else {
      assert s[1..] == a[1..] + [sep] + b;
      SplitConcat(a[1..], b, sep);
    }
  }

  /** A separator-free middle part stays one part between two separators. */
  lemma SplitAround(a: string, b: string, c: string, sep: char)
    requires sep !in b
    ensures Split(a + [sep] + b + [sep] + c, sep) == Split(a, sep) + [b] + Split(c, sep)
  {
    assert a + [sep] + b + [sep] + c == a + [sep] + (b + [sep] + c);
    SplitConcat(a, b + [sep] + c, sep);
    SplitConcat(b, c, sep);
    SplitNoSeparator(b, sep);
  }

  /** A string without the separator is a single part. */
  lemma {:induction false} SplitNoSeparator(s: string, sep: char)
    requires sep !in s
    ensures Split(s, sep) == [s]
    decreases |s|
  {
    if s != [] {
      assert sep !in s[1..];
      SplitNoSeparator(s[1..], sep);
      assert [s[0]] + s[1..] == s;
    }
  }

  /** Round trip: splitting a join of separator-free parts gives back the parts. */
  lemma {:induction false} SplitJoin(parts: seq<string>, sep: char)
    requires parts != []
    requires forall i :: 0 <= i < |parts| ==> sep !in parts[i]
    ensures Split(Join(parts, [sep]), sep) == parts
    decreases |parts|
  {
    if |parts| == 1 {
      SplitNoSeparator(parts[0], sep);
    } else {
      var tail := parts[1..];
      SplitConcat(parts[0], Join(tail, [sep]), sep);
      SplitNoSeparator(parts[0], sep);
      SplitJoin(tail, sep);
      assert parts == [parts[0]] + tail;
    }
  }

  /** `s` is non-empty, does not start or end with `sep`, and never holds two
      separators in a row: every part between separators is non-empty. */
  predicate WellSeparated(s: string, sep: char)
  {
    && s != []
    && s[0] != sep
    && s[|s| - 1] != sep
    && forall i :: 0 <= i < |s| - 1 && s[i] == sep ==> s[i + 1] != sep
  }

  /** Putting one separator between two well-separated strings keeps it so. */
  lemma ConcatWellSeparated(a: string, b: string, sep: char)
    requires WellSeparated(a, sep) && WellSeparated(b, sep)
    ensures WellSeparated(a + [sep] + b, sep)
  {
    var s := a + [sep] + b;
    forall i | 0 <= i < |s| - 1
      ensures s[i] == sep ==> s[i + 1] != sep
    {
      if i < |a| - 1 {
        assert s[i] == a[i] && s[i + 1] == a[i + 1];
      } else if i == |a| - 1 {
        assert s[i] == a[|a| - 1];
      } else if i == |a| {
        assert s[i + 1] == b[0];
      } else {
        assert s[i] == b[i - |a| - 1] && s[i + 1] == b[i - |a|];
      }
    }
  }

  /** No stray separator: joining well-separated parts on `sep` never yields a
      leading, trailing or doubled separator, whatever the number of parts. */
  lemma {:induction false} JoinWellSeparated(parts: seq<string>, sep: char)
    requires parts != []
    requires forall i :: 0 <= i < |parts| ==> WellSeparated(parts[i], sep)
    ensures WellSeparated(Join(parts, [sep]), sep)
    decreases |parts|
  {
    if |parts| > 1 {
      JoinWellSeparated(parts[1..], sep);
      ConcatWellSeparated(parts[0], Join(parts[1..], [sep]), sep);
    }
  }
}
