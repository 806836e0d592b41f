/**
 Lists stored as one text with a separator character: how they are joined, how
 the text is split again, and exactly which lists survive the round trip.
 */
module Separated {

  /** strings.Join */
  function Join(names: seq<string>, sep: char): string {
    if names == [] then "" else if |names| == 1 then names[0] else names[0] + [sep] + Join(names[1..], sep)
  }

  /** strings.Split */
  function Split(s: string, sep: char): (r: seq<string>)
    ensures r != []
    ensures Free(r, sep)
  {
    if s == "" then [""]
    else
      var rest := Split(s[1..], sep);
      if s[0] == sep then [""] + rest
      else
        assert rest[0] in rest;
        [[s[0]] + rest[0]] + rest[1..]
  }

  /** strings.Trim of the separator */
  function TrimOuter(s: string, sep: char): string {
    if s != "" && s[0] == sep then TrimOuter(s[1..], sep)
    else if s != "" && s[|s| - 1] == sep then TrimOuter(s[..|s| - 1], sep)
    else s
  }

  predicate Free(names: seq<string>, sep: char) {
    forall n :: n in names ==> sep !in n
  }

  lemma {:induction false} SplitName(n: string, rest: string, sep: char)
    requires sep !in n
    ensures Split(n, sep) == [n]
    ensures Split(n + [sep] + rest, sep) == [n] + Split(rest, sep)
  {
    var s := n + [sep] + rest;
    if n == "" {
      assert s[1..] == rest;
    } else {
      SplitName(n[1..], rest, sep);
      assert s[1..] == n[1..] + [sep] + rest;
      assert n == [n[0]] + n[1..];
    }
  }

  /** Splitting distributes over a separator. */
  lemma {:induction false} SplitAppend(a: string, b: string, sep: char)
    ensures Split(a + [sep] + b, sep) == Split(a, sep) + Split(b, sep)
  {
    var s := a + [sep] + b;
    if a == "" {
      assert s[1..] == b;
    } else {
      assert s[1..] == a[1..] + [sep] + b;
      SplitAppend(a[1..], b, sep);
    }
  }

  lemma {:induction false} SplitJoin(names: seq<string>, sep: char)
    requires names != [] && Free(names, sep)
    ensures Split(Join(names, sep), sep) == names
  {
    assert names[0] in names;
    if |names| == 1 {
      SplitName(names[0], "", sep);
    } else {
      assert forall n :: n in names[1..] ==> n in names;
      SplitJoin(names[1..], sep);
      SplitName(names[0], Join(names[1..], sep), sep);
    }
  }

  // ---------- Counting separators ----------

  function Count(s: string, sep: char): nat {
    if s == "" then 0 else (if s[0] == sep then 1 else 0) + Count(s[1..], sep)
  }

  lemma {:induction false} SplitCount(s: string, sep: char)
    ensures |Split(s, sep)| == Count(s, sep) + 1
  {
    if s != "" { SplitCount(s[1..], sep); }
  }

  lemma {:induction false} CountAppend(a: string, b: string, sep: char)
    ensures Count(a + b, sep) == Count(a, sep) + Count(b, sep)
  {
    if a == "" {
      assert a + b == b;
    } else {
      assert (a + b)[1..] == a[1..] + b;
      CountAppend(a[1..], b, sep);
    }
  }

  lemma {:induction false} TrimCount(s: string, sep: char)
    ensures Count(TrimOuter(s, sep), sep) <= Count(s, sep)
    ensures s != "" && (s[0] == sep || s[|s| - 1] == sep) ==> Count(TrimOuter(s, sep), sep) < Count(s, sep)
    decreases |s|
  {
    if s != "" && s[0] == sep {
      TrimCount(s[1..], sep);
    } else if s != "" && s[|s| - 1] == sep {
      var front := s[..|s| - 1];
      TrimCount(front, sep);
      assert s == front + [sep];
      CountAppend(front, [sep], sep);
    }
  }

  // ---------- The round trip ----------

  /** The joined text begins or ends with a separator exactly when the list begins or ends with a blank. */
  lemma {:induction false} JoinEnds(names: seq<string>, sep: char)
    requires names != [] && names != [""] && Free(names, sep)
    ensures var s := Join(names, sep);
            && s != ""
            && (s[0] == sep <==> names[0] == "")
            && (s[|s| - 1] == sep <==> names[|names| - 1] == "")
  {
    assert names[0] in names;
    if |names| > 1 {
      var rest := names[1..];
      assert forall n :: n in rest ==> n in names;
      if rest == [""] {
        assert Join(names, sep) == names[0] + [sep];
      } else {
        JoinEnds(rest, sep);
        var s, t := Join(names, sep), Join(rest, sep);
        assert s[|s| - 1] == t[|t| - 1];
      }
    }
  }

  /** Joining, trimming the ends and splitting gives a list back if and only if it has no blank end and no separator inside. */
  lemma RoundTripExactly(names: seq<string>, sep: char)
    requires names != []
    ensures Split(TrimOuter(Join(names, sep), sep), sep) == names <==>
            Free(names, sep) && (names == [""] || (names[0] != "" && names[|names| - 1] != ""))
  {
    var s := Join(names, sep);
    if Free(names, sep) {
      SplitJoin(names, sep);
      if names != [""] {
        JoinEnds(names, sep);
        if names[0] == "" || names[|names| - 1] == "" {
          SplitCount(s, sep);
          SplitCount(TrimOuter(s, sep), sep);
          TrimCount(s, sep);
        }
      }
    }
  }
}
