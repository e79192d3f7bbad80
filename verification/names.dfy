/** `String.Split(separators, StringSplitOptions.RemoveEmptyEntries)` for a single separator,
    its inverse `Join`, and the facts the handler-name filter relies on. */
module Names {

  /** The separator handler names are split on. */
  const Underscore: char := '_'

  /** Every character of `s` other than `sep`, in order. */
  function Without(s: string, sep: char): (r: string)
    ensures sep !in r
    ensures |r| <= |s|
    ensures sep !in s ==> r == s
  {
    if |s| == 0 then [] else (if s[0] == sep then [] else [s[0]]) + Without(s[1..], sep)
  }

  /** Length of the longest prefix of `s` that does not contain `sep`. */
  function RunLength(s: string, sep: char): (n: nat)
    ensures n <= |s|
    ensures forall k :: 0 <= k < n ==> s[k] != sep
    ensures n == |s| || s[n] == sep
  {
    if |s| == 0 || s[0] == sep then 0 else 1 + RunLength(s[1..], sep)
  }

  /** The pieces of `s` between occurrences of `sep`, with empty pieces dropped. */
  function Split(s: string, sep: char): (parts: seq<string>)
    ensures forall i :: 0 <= i < |parts| ==> |parts[i]| > 0 && sep !in parts[i]
    ensures |parts| <= |s|
    decreases |s|
  {
    if |s| == 0 then []
    else if s[0] == sep then Split(s[1..], sep)
    else
      var n := RunLength(s, sep);
      [s[..n]] + Split(s[n..], sep)
  }

  /** A piece that `Split` can return: non-empty and free of the separator. */
  predicate IsPiece(p: string, sep: char) {
    |p| > 0 && sep !in p
  }

  /** A piece of an underscore-separated method name. */
  type Piece = p: string | IsPiece(p, Underscore) witness "a"

  /** The pieces separated by one `sep` each. */
  function Join(parts: seq<string>, sep: char): (s: string)
    ensures forall i :: 0 <= i < |parts| ==> |parts[i]| <= |s|
    ensures |parts| > 0 ==> parts[0] <= s
  {
    if |parts| == 0 then []
    else if |parts| == 1 then parts[0]
    else parts[0] + [sep] + Join(parts[1..], sep)
  }

  /** The pieces laid end to end. */
  function Concat(parts: seq<string>): string {
    if |parts| == 0 then [] else parts[0] + Concat(parts[1..])
  }

  /** The run at the front of a word followed by a separator (or nothing) is the word. */
  lemma {:induction false} RunLengthOfWord(w: string, t: string, sep: char)
    requires sep !in w
    requires |t| == 0 || t[0] == sep
    ensures RunLength(w + t, sep) == |w|
  {
    if |w| > 0 {
      assert (w + t)[1..] == w[1..] + t;
      RunLengthOfWord(w[1..], t, sep);
    }
  }

  /** Splitting a word followed by a separator (or nothing) yields the word and then the rest. */
  lemma SplitWordThen(w: string, t: string, sep: char)
    requires IsPiece(w, sep)
    requires |t| == 0 || t[0] == sep
    ensures Split(w + t, sep) == [w] + Split(t, sep)
  {
    RunLengthOfWord(w, t, sep);
    var s := w + t;
    assert s[..|w|] == w;
    assert s[|w|..] == t;
  }

  /** Round trip: splitting what `Join` built gives back the pieces. */
  lemma {:induction false} SplitJoin(parts: seq<string>, sep: char)
    requires forall i :: 0 <= i < |parts| ==> IsPiece(parts[i], sep)
    ensures Split(Join(parts, sep), sep) == parts
  {
    if |parts| == 1 {
      SplitWordThen(parts[0], [], sep);
      assert parts[0] + [] == parts[0];
    } else if |parts| > 1 {
      var rest := Join(parts[1..], sep);
      SplitJoin(parts[1..], sep);
      assert parts[0] + [sep] + rest == parts[0] + ([sep] + rest);
      SplitWordThen(parts[0], [sep] + rest, sep);
      assert ([sep] + rest)[1..] == rest;
      assert parts == [parts[0]] + parts[1..];
    }
  }

  /** Joining with one separator is injective when the right-hand halves are free of it:
      the first separator of `a + [sep] + b` is the one between the halves, whatever `t` and
      `n` are. */
  lemma FirstSeparatorDecides(t: string, n: string, a: string, b: string, sep: char)
    requires sep !in a && sep !in b
    ensures t + [sep] + n == a + [sep] + b <==> t == a && n == b
  {
    var lhs, rhs := t + [sep] + n, a + [sep] + b;
    if lhs == rhs {
      assert forall i :: 0 <= i < |a| ==> rhs[i] == a[i];
      assert forall i :: |a| < i < |rhs| ==> rhs[i] == b[i - |a| - 1];
      assert lhs[|t|] == sep;
      assert |t| == |a|;
      assert t == lhs[..|t|] == rhs[..|a|] == a;
      assert n == lhs[|t| + 1..] == rhs[|a| + 1..] == b;
    }
  }

  /** The name shape every routing routine has: two pieces joined by one underscore. */
  lemma SplitTwoPieces(a: string, b: string)
    requires IsPiece(a, Underscore) && IsPiece(b, Underscore)
    ensures Split(a + [Underscore] + b, Underscore) == [a, b]
  {
    SplitJoin([a, b], Underscore);
    assert [a, b][1..] == [b];
  }

  /** Nothing but the separators is lost: the pieces laid end to end are the input without them. */
  lemma {:induction false} SplitKeepsEverythingElse(s: string, sep: char)
    ensures Concat(Split(s, sep)) == Without(s, sep)
    decreases |s|
  {
    if |s| > 0 {
      if s[0] == sep {
        SplitKeepsEverythingElse(s[1..], sep);
      } else {
        var n := RunLength(s, sep);
        var w, t := s[..n], s[n..];
        assert s == w + t;
        SplitWordThen(w, t, sep);
        SplitKeepsEverythingElse(t, sep);
        WithoutAppend(w, t, sep);
        ConcatCons(w, Split(t, sep));
      }
    }
  }

  /** `Concat` of a piece followed by more pieces. */
  lemma ConcatCons(w: string, rest: seq<string>)
    ensures Concat([w] + rest) == w + Concat(rest)
  {
    assert ([w] + rest)[1..] == rest;
  }

  /** `Without` distributes over concatenation. */
  lemma {:induction false} WithoutAppend(a: string, b: string, sep: char)
    ensures Without(a + b, sep) == Without(a, sep) + Without(b, sep)
  {
    if |a| > 0 {
      assert (a + b)[1..] == a[1..] + b;
      WithoutAppend(a[1..], b, sep);
    } else {
      assert a + b == b;
    }
  }

  /** A string without the separator is a single piece (or none, when empty). */
  lemma NoSeparatorOnePiece(s: string, sep: char)
    requires sep !in s
    ensures Split(s, sep) == if |s| == 0 then [] else [s]
  {
    if |s| > 0 {
      SplitWordThen(s, [], sep);
      assert s + [] == s;
    }
  }

  /** Two pieces imply an underscore: the `Contains("_")` test before the split never rejects
      a name the split would accept. */
  lemma TwoPiecesNeedSeparator(s: string, sep: char)
    requires |Split(s, sep)| == 2
    ensures sep in s
  {
    if sep !in s {
      NoSeparatorOnePiece(s, sep);
      assert false;
    }
  }

  /** Splitting skips a leading separator. */
  lemma SplitSkipsSeparator(t: string, sep: char)
    ensures Split([sep] + t, sep) == Split(t, sep)
  {
    assert ([sep] + t)[1..] == t;
  }

  /** Empty pieces are dropped: a leading, a doubled and a trailing separator add no pieces,
      so `_A__B_` splits into the same two pieces as `A_B`. */
  lemma SplitDropsEmptyPieces(a: string, b: string)
    requires IsPiece(a, Underscore) && IsPiece(b, Underscore)
    ensures Split([Underscore] + a + [Underscore, Underscore] + b + [Underscore], Underscore) == [a, b]
  {
    var u := [Underscore];
    var s := [Underscore] + a + [Underscore, Underscore] + b + [Underscore];
    assert s == u + (a + (u + (u + (b + u))));
    SplitSkipsSeparator(a + (u + (u + (b + u))), Underscore);
    SplitWordThen(a, u + (u + (b + u)), Underscore);
    SplitSkipsSeparator(u + (b + u), Underscore);
    SplitSkipsSeparator(b + u, Underscore);
    SplitWordThen(b, u, Underscore);
    SplitSkipsSeparator([], Underscore);
    assert u == u + [];
  }
}
