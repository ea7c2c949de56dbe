/**
 * Go's `strings.Join`, which assembles JAVA_OPTS, and its inverse
 * `strings.Split` for a one-character separator, which is how the flag
 * string is taken apart again.
 */
module Strings {

  /** `strings.Join(elems, sep)`: the elements with `sep` between neighbours. */
  function Join(elems: seq<string>, sep: string): string
  {
    if |elems| == 0 then ""
    else if |elems| == 1 then elems[0]
    else elems[0] + sep + Join(elems[1..], sep)
  }

  /** `strings.Split(s, [sep])`: the maximal pieces of `s` between separators;
      empty pieces are kept and there is always at least one piece. */
  function Split(s: string, sep: char): (pieces: seq<string>)
    ensures |pieces| >= 1
    ensures forall i :: 0 <= i < |pieces| ==> sep !in pieces[i]
  {
    if |s| == 0 then [""]
    else
      var rest := Split(s[1..], sep);
      if s[0] == sep then [""] + rest
      else [[s[0]] + rest[0]] + rest[1..]
  }

  /** Joining two non-empty lists puts one separator between their joins. */
  lemma {:induction false} JoinAppend(a: seq<string>, b: seq<string>, sep: string)
    requires |a| >= 1 && |b| >= 1
    ensures Join(a + b, sep) == Join(a, sep) + sep + Join(b, sep)
  {
    if |a| == 1 {
      assert a + b == [a[0]] + b;
    } else {
      assert (a + b)[1..] == a[1..] + b;
      JoinAppend(a[1..], b, sep);
    }
  }

  /** Joining three lists, the first non-empty: each non-empty later list adds one
      separator and its own join. */
  lemma JoinAppend3(a: seq<string>, b: seq<string>, c: seq<string>, sep: string)
    requires |a| >= 1
    ensures Join(a + b + c, sep) ==
      Join(a, sep) + (if b == [] then "" else sep + Join(b, sep)) + (if c == [] then "" else sep + Join(c, sep))
  {
    if b != [] {
      JoinAppend(a, b, sep);
    } else {
      assert a + b == a;
    }
    if c != [] {
      JoinAppend(a + b, c, sep);
    } else {
      assert a + b + c == a + b;
    }
  }

  /** A piece without separators splits into itself. */
  lemma {:induction false} SplitWithoutSeparator(a: string, sep: char)
    requires sep !in a
    ensures Split(a, sep) == [a]
  {
    if |a| > 0 {
      assert a[1..] + [] == a[1..];
      SplitWithoutSeparator(a[1..], sep);
      assert [a[0]] + a[1..] == a;
    }
  }

  /** Splitting stops at the first separator. */
  lemma {:induction false} SplitAtSeparator(a: string, sep: char, t: string)
    requires sep !in a
    ensures Split(a + [sep] + t, sep) == [a] + Split(t, sep)
  {
    var s := a + [sep] + t;
    if |a| == 0 {
      assert s[0] == sep && s[1..] == t;
    } else {
      assert s[0] == a[0] && s[1..] == a[1..] + [sep] + t;
      SplitAtSeparator(a[1..], sep, t);
      assert [a[0]] + a[1..] == a;
    }
  }

  /** Splitting undoes joining, provided no element contains the separator. */
  lemma {:induction false} SplitJoin(elems: seq<string>, sep: char)
    requires |elems| >= 1
    requires forall i :: 0 <= i < |elems| ==> sep !in elems[i]
    ensures Split(Join(elems, [sep]), sep) == elems
  {
    if |elems| == 1 {
      SplitWithoutSeparator(elems[0], sep);
    } else {
      SplitJoin(elems[1..], sep);
      SplitAtSeparator(elems[0], sep, Join(elems[1..], [sep]));
      assert [elems[0]] + elems[1..] == elems;
    }
  }

  /** Joining undoes splitting, for every string. */
  lemma {:induction false} JoinSplit(s: string, sep: char)
    ensures Join(Split(s, sep), [sep]) == s
  {
    if |s| > 0 {
      var rest := Split(s[1..], sep);
      JoinSplit(s[1..], sep);
      if s[0] == sep {
        assert ([""] + rest)[1..] == rest;
        assert s == [sep] + s[1..];
      } else if |rest| == 1 {
        assert s == [s[0]] + s[1..];
      } else {
        var pieces := [[s[0]] + rest[0]] + rest[1..];
        assert pieces[1..] == rest[1..];
        assert s == [s[0]] + s[1..];
      }
    }
  }
}
