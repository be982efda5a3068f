/** The Python string operations the notifier relies on: `sep.join(xs)`,
    `s.split(sep)` for a one-character separator, and the newline-terminated
    concatenation that `for x in xs: body += f"{x}\n"` builds. */
module Text {

  /** `sep.join(xs)`. */
  function Join(sep: string, xs: seq<string>): string
  {
    if |xs| == 0 then ""
    else if |xs| == 1 then xs[0]
    else Join(sep, xs[..|xs| - 1]) + sep + xs[|xs| - 1]
  }

  /** `s.split(sep)` for a single-character separator; the result is never empty. */
  function Split(s: string, sep: char): (r: seq<string>)
    ensures |r| >= 1
  {
    if s == [] then [""]
    else
      var rest := Split(s[1..], sep);
      if s[0] == sep then [""] + rest
      else [[s[0]] + rest[0]] + rest[1..]
  }

  /** Every element followed by a newline, in order. */
  function Terminated(xs: seq<string>): string
  {
    if xs == [] then "" else Terminated(xs[..|xs| - 1]) + xs[|xs| - 1] + "\n"
  }

  /** `s.startswith(prefix)`. */
  predicate StartsWith(s: string, prefix: string)
  {
    |prefix| <= |s| && s[..|prefix|] == prefix
  }

  /** `s.endswith(suffix)`. */
  predicate EndsWith(s: string, suffix: string)
  {
    |suffix| <= |s| && s[|s| - |suffix|..] == suffix
  }

  lemma PrefixKept(s: string, prefix: string, t: string)
    requires StartsWith(s, prefix)
    ensures StartsWith(s + t, prefix)
  {
    assert (s + t)[..|prefix|] == s[..|prefix|];
  }

  lemma SuffixOf(s: string, suffix: string)
    ensures EndsWith(s + suffix, suffix)
  {
    assert (s + suffix)[|s|..] == suffix;
  }

  /** No element of `xs` contains the character `c`. */
  predicate FreeOf(c: char, xs: seq<string>)
  {
    forall i :: 0 <= i < |xs| ==> c !in xs[i]
  }

  lemma {:induction false} SplitWithout(s: string, sep: char)
    requires sep !in s
    ensures Split(s, sep) == [s]
  {
    if s != [] {
      SplitWithout(s[1..], sep);
      assert [s[0]] + s[1..] == s;
    }
  }

  lemma {:induction false} SplitAppend(a: string, sep: char, b: string)
    requires sep !in b
    ensures Split(a + [sep] + b, sep) == Split(a, sep) + [b]
  {
    var s := a + [sep] + b;
    if a == [] {
      assert s[1..] == b;
      SplitWithout(b, sep);
    } else {
      assert s[1..] == a[1..] + [sep] + b;
      SplitAppend(a[1..], sep, b);
    }
  }

  /** Splitting a join on its separator gives the elements back, provided
      none of them contains the separator. */
  lemma {:induction false} SplitJoin(xs: seq<string>, sep: char)
    requires |xs| > 0 && FreeOf(sep, xs)
    ensures Split(Join([sep], xs), sep) == xs
  {
    if |xs| == 1 {
      SplitWithout(xs[0], sep);
    } else {
      var init := xs[..|xs| - 1];
      assert FreeOf(sep, init) by {
        forall i | 0 <= i < |init| ensures sep !in init[i] { assert init[i] == xs[i]; }
      }
      SplitJoin(init, sep);
      SplitAppend(Join([sep], init), sep, xs[|xs| - 1]);
      assert init + [xs[|xs| - 1]] == xs;
    }
  }

  /** A join ends with its last element. */
  lemma JoinEndsWithLast(sep: string, xs: seq<string>)
    requires |xs| > 0
    ensures |Join(sep, xs)| >= |xs[|xs| - 1]|
    ensures Join(sep, xs)[|Join(sep, xs)| - |xs[|xs| - 1]|..] == xs[|xs| - 1]
  {
  }

  /** The newline-terminated form of a non-empty list is its newline join
      plus one final newline. */
  lemma {:induction false} TerminatedIsJoinPlusNewline(xs: seq<string>)
    requires |xs| > 0
    ensures Terminated(xs) == Join("\n", xs) + "\n"
  {
    var init := xs[..|xs| - 1];
    if |xs| > 1 {
      TerminatedIsJoinPlusNewline(init);
    }
  }

  /** Splitting the newline-terminated form on newlines gives the elements
      back, followed by the empty piece after the last newline. */
  lemma TerminatedLines(xs: seq<string>)
    requires FreeOf('\n', xs)
    ensures Split(Terminated(xs), '\n') == xs + [""]
  {
    if xs != [] {
      TerminatedIsJoinPlusNewline(xs);
      SplitJoin(xs, '\n');
      SplitAppend(Join("\n", xs), '\n', "");
      assert Join("\n", xs) + ['\n'] + "" == Terminated(xs);
    }
  }
}
