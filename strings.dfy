/**
  The string operations the log reader relies on, with the .NET meaning the
  source gets from the library: `String.Split(char[])` (every separator splits,
  empty pieces are kept), `String.Join`, ASCII case folding for the
  case-insensitive process filter, substring occurrence, and the ordinal
  order used to sort the parsed processes.
*/
module Strings {

  /** No character of `s` is one of `seps`. */
  predicate NoneIn(s: string, seps: set<char>)
  {
    forall i :: 0 <= i < |s| ==> s[i] !in seps
  }

  /** Number of characters of `s` that are in `seps`. */
  function CountIn(s: string, seps: set<char>): nat
  {
    if s == [] then 0 else (if s[0] in seps then 1 else 0) + CountIn(s[1..], seps)
  }

  /**
    `s.Split(seps)`: the pieces between separators, empty pieces included,
    so there is always one more piece than there are separators.
  */
  function Split(s: string, seps: set<char>): (r: seq<string>)
    ensures |r| == CountIn(s, seps) + 1
    ensures forall k :: 0 <= k < |r| ==> NoneIn(r[k], seps)
    decreases |s|
  {
    if s == [] then [""]
    else
      var rest := Split(s[1..], seps);
      if s[0] in seps then [""] + rest
      else [[s[0]] + rest[0]] + rest[1..]
  }

  /** Text free of separators is one piece, so it has no second one. */
  lemma {:induction false} CountInNone(s: string, seps: set<char>)
    requires NoneIn(s, seps)
    ensures CountIn(s, seps) == 0
    decreases |s|
  {
    if s != [] { CountInNone(s[1..], seps); }
  }

  /** `String.Join(sep, parts)`. */
  function Join(parts: seq<string>, sep: string): string
  {
    if |parts| == 0 then ""
    else if |parts| == 1 then parts[0]
    else parts[0] + sep + Join(parts[1..], sep)
  }

  /** `s` with every `a` replaced by `b`. */
  function ReplaceChar(s: string, a: char, b: char): (r: string)
    ensures |r| == |s|
  {
    if s == [] then [] else [if s[0] == a then b else s[0]] + ReplaceChar(s[1..], a, b)
  }

  /** Splitting on `a` and joining with `b` replaces every `a` by `b`. */
  lemma {:induction false} JoinSplitReplaces(s: string, a: char, b: char)
    ensures Join(Split(s, {a}), [b]) == ReplaceChar(s, a, b)
    decreases |s|
  {
    if s != [] {
      var rest := Split(s[1..], {a});
      JoinSplitReplaces(s[1..], a, b);
      if s[0] == a {
        assert Split(s, {a}) == [""] + rest;
        assert ([""] + rest)[1..] == rest;
      } else {
        assert Split(s, {a}) == [[s[0]] + rest[0]] + rest[1..];
        if |rest| > 1 {
          assert Join(rest, [b]) == rest[0] + [b] + Join(rest[1..], [b]);
        }
      }
    }
  }

  /** A piece free of separators followed by a separator splits off as the first piece. */
  lemma {:induction false} SplitAfterWord(w: string, c: char, t: string, seps: set<char>)
    requires c in seps && NoneIn(w, seps)
    ensures Split(w + [c] + t, seps) == [w] + Split(t, seps)
    decreases |w|
  {
    if w == [] {
      assert [c] + t == ([] + [c] + t);
      assert ([c] + t)[1..] == t;
    } else {
      SplitAfterWord(w[1..], c, t, seps);
      assert (w + [c] + t)[1..] == w[1..] + [c] + t;
      assert [w[0]] + w[1..] == w;
    }
  }

  /** Text free of separators is one piece. */
  lemma {:induction false} SplitWord(w: string, seps: set<char>)
    requires NoneIn(w, seps)
    ensures Split(w, seps) == [w]
    decreases |w|
  {
    if w != [] {
      SplitWord(w[1..], seps);
      assert [w[0]] + w[1..] == w;
    }
  }

  /** Splitting the joined pieces gives the pieces back, when no piece holds the separator. */
  lemma {:induction false} SplitJoin(parts: seq<string>, c: char)
    requires |parts| >= 1
    requires forall k :: 0 <= k < |parts| ==> NoneIn(parts[k], {c})
    ensures Split(Join(parts, [c]), {c}) == parts
    decreases |parts|
  {
    if |parts| == 1 {
      SplitWord(parts[0], {c});
    } else {
      SplitJoin(parts[1..], c);
      SplitAfterWord(parts[0], c, Join(parts[1..], [c]), {c});
      assert [parts[0]] + parts[1..] == parts;
    }
  }

  /** The first piece is the longest separator-free prefix of `s`. */
  lemma {:induction false} SplitFirstPiece(s: string, seps: set<char>)
    ensures var w := Split(s, seps)[0];
      && w <= s
      && (|w| < |s| ==> s[|w|] in seps)
    decreases |s|
  {
    if s != [] {
      SplitFirstPiece(s[1..], seps);
    }
  }

  /**
    The last piece is the longest separator-free suffix of `s`; it is all of
    `s` exactly when `s` holds no separator.
  */
  lemma {:induction false} SplitLastPiece(s: string, seps: set<char>)
    ensures var r := Split(s, seps); var w := r[|r| - 1];
      && |w| <= |s| && w == s[|s| - |w|..]
      && (|w| < |s| ==> s[|s| - |w| - 1] in seps)
      && (|r| == 1 <==> |w| == |s|)
    decreases |s|
  {
    if s != [] {
      SplitLastPiece(s[1..], seps);
      var rest := Split(s[1..], seps);
      var w := rest[|rest| - 1];
      assert s[1..][|s| - 1 - |w|..] == s[|s| - |w|..];
      if s[0] !in seps && |rest| == 1 {
        assert [s[0]] + rest[0] == s;
      }
    }
  }

  /** ASCII lower-case of one character. */
  function LowerChar(c: char): char
  {
    if 'A' <= c <= 'Z' then (c as int + 32) as char else c
  }

  /** ASCII lower-case of a string, as `RegexOptions.IgnoreCase` compares it. */
  function Lower(s: string): (r: string)
    ensures |r| == |s|
  {
    seq(|s|, i requires 0 <= i < |s| => LowerChar(s[i]))
  }

  /** `p` occurs in `s` at some position (a regular-expression search for a literal). */
  predicate Occurs(p: string, s: string)
    decreases |s|
  {
    p <= s || (|s| > 0 && Occurs(p, s[1..]))
  }

  /** `p` stands in `s` at position `i`. */
  predicate OccursAtIndex(p: string, s: string, i: int)
  {
    0 <= i <= |s| - |p| && s[i..i + |p|] == p
  }

  /** `Occurs` agrees with the positional definition of a substring. */
  lemma {:induction false} OccursAt(p: string, s: string)
    ensures Occurs(p, s) <==> exists i :: OccursAtIndex(p, s, i)
    decreases |s|
  {
    if p <= s {
      assert OccursAtIndex(p, s, 0);
    } else if |s| > 0 {
      OccursAt(p, s[1..]);
      if Occurs(p, s[1..]) {
        var i :| OccursAtIndex(p, s[1..], i);
        assert s[i + 1..i + 1 + |p|] == s[1..][i..i + |p|];
        assert OccursAtIndex(p, s, i + 1);
      }
      if exists i :: OccursAtIndex(p, s, i) {
        var i :| OccursAtIndex(p, s, i);
        assert i != 0;
        assert s[1..][i - 1..i - 1 + |p|] == s[i..i + |p|];
        assert OccursAtIndex(p, s[1..], i - 1);
      }
    }
  }

  /** What occurs in a suffix occurs in the whole. */
  lemma {:induction false} OccursSuffix(p: string, s: string, k: nat)
    requires k <= |s| && Occurs(p, s[k..])
    ensures Occurs(p, s)
    decreases k
  {
    if k > 0 {
      assert s[1..][k - 1..] == s[k..];
      OccursSuffix(p, s[1..], k - 1);
    }
  }

  /** Nothing longer than `s` occurs in it. */
  lemma {:induction false} OccursNoLongerThan(p: string, s: string)
    requires |p| > |s|
    ensures !Occurs(p, s)
    decreases |s|
  {
    if |s| > 0 { OccursNoLongerThan(p, s[1..]); }
  }

  /** The empty string occurs everywhere; nothing else occurs in the empty string. */
  lemma OccursInEmpty(p: string)
    ensures Occurs(p, "") <==> p == ""
  {
  }

  /** Ordinal comparison: `a` sorts at or before `b`, character by character. */
  predicate LexLe(a: string, b: string)
    decreases |a|
  {
    |a| == 0 || (|b| > 0 && (a[0] < b[0] || (a[0] == b[0] && LexLe(a[1..], b[1..]))))
  }

  lemma {:induction false} LexLeReflexive(a: string)
    ensures LexLe(a, a)
    decreases |a|
  {
    if |a| > 0 { LexLeReflexive(a[1..]); }
  }

  lemma {:induction false} LexLeTotal(a: string, b: string)
    ensures LexLe(a, b) || LexLe(b, a)
    decreases |a|
  {
    if |a| > 0 && |b| > 0 && a[0] == b[0] { LexLeTotal(a[1..], b[1..]); }
  }

  lemma {:induction false} LexLeTransitive(a: string, b: string, c: string)
    requires LexLe(a, b) && LexLe(b, c)
    ensures LexLe(a, c)
    decreases |a|
  {
    if |a| > 0 && a[0] == b[0] && b[0] == c[0] { LexLeTransitive(a[1..], b[1..], c[1..]); }
  }

  lemma {:induction false} LexLeAntisymmetric(a: string, b: string)
    requires LexLe(a, b) && LexLe(b, a)
    ensures a == b
    decreases |a|
  {
    if |a| > 0 {
      LexLeAntisymmetric(a[1..], b[1..]);
      assert a == [a[0]] + a[1..] && b == [b[0]] + b[1..];
    }
  }

  /** A common prefix does not change the order. */
  lemma {:induction false} LexLeCommonPrefix(p: string, a: string, b: string)
    ensures LexLe(p + a, p + b) <==> LexLe(a, b)
    decreases |p|
  {
    if |p| > 0 {
      LexLeCommonPrefix(p[1..], a, b);
      assert (p + a)[1..] == p[1..] + a && (p + b)[1..] == p[1..] + b;
    } else {
      assert p + a == a && p + b == b;
    }
  }
}
