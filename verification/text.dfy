/** String helpers shared by the whole model: prefix tests, searching,
    splitting on a separator, and the two flavours of `String.prototype.replace`
    the toolkit relies on (a global literal pattern, and a first-occurrence
    string pattern with `$` substitution patterns in the replacement). */
module Text {

  predicate StartsWith(s: string, p: string) {
    |p| <= |s| && s[..|p|] == p
  }

  /** `s.indexOf(p, from)`: the first position at or after `from` where `p`
      occurs, or -1 when there is none. */
  function FindFrom(s: string, p: string, from: nat): (r: int)
    ensures r == -1 || (from <= r && r + |p| <= |s| && StartsWith(s[r..], p))
    ensures forall j :: from <= j <= |s| && (r == -1 || j < r) ==> !StartsWith(s[j..], p)
    decreases |s| - from
  {
    if from > |s| then -1
    else if StartsWith(s[from..], p) then from
    else FindFrom(s, p, from + 1)
  }

  /** A string does not start with a pattern whose first character differs
      from its own. */
  lemma StartsWithHead(s: string, p: string)
    requires s != [] && p != [] && s[0] != p[0]
    ensures !StartsWith(s, p)
  {
    if |p| <= |s| {
      assert s[..|p|][0] == s[0];
    }
  }

  /** A common first character does not change whether one text starts
      with another. */
  lemma StartsWithCons(c: char, t: string, p: string)
    ensures StartsWith([c] + t, [c] + p) <==> StartsWith(t, p)
  {
    if |p| <= |t| {
      assert ([c] + t)[..|p| + 1] == [c] + t[..|p|];
      assert ([c] + t[..|p|])[1..] == t[..|p|];
      assert ([c] + p)[1..] == p;
    }
  }

  predicate Contains(s: string, p: string) {
    FindFrom(s, p, 0) >= 0
  }

  /** `s.split(sep)` for a one-character separator: always at least one part,
      and no part contains the separator. */
  function Split(s: string, sep: char): (parts: seq<string>)
    ensures |parts| >= 1
    ensures forall i :: 0 <= i < |parts| ==> sep !in parts[i]
    decreases |s|
  {
    if s == [] then [""]
    else
      var rest := Split(s[1..], sep);
      if s[0] == sep then [""] + rest
      else [[s[0]] + rest[0]] + rest[1..]
  }

  /** `parts.join(sep)`. */
  function Join(parts: seq<string>, sep: char): string
    requires |parts| >= 1
  {
    if |parts| == 1 then parts[0] else parts[0] + [sep] + Join(parts[1..], sep)
  }

  /** Splitting and re-joining gives back the original string. */
  lemma {:induction false} JoinSplit(s: string, sep: char)
    ensures Join(Split(s, sep), sep) == s
    decreases |s|
  {
    if s != [] {
      JoinSplit(s[1..], sep);
      var rest := Split(s[1..], sep);
      if s[0] != sep {
        if |rest| > 1 {
          assert Join(rest, sep) == rest[0] + [sep] + Join(rest[1..], sep);
          assert [[s[0]] + rest[0]] + rest[1..] == [[s[0]] + rest[0]] + rest[1..];
          assert ([[s[0]] + rest[0]] + rest[1..])[1..] == rest[1..];
        }
        assert s == [s[0]] + s[1..];
      } else {
        assert ([""] + rest)[1..] == rest;
        assert s == [s[0]] + s[1..];
      }
    }
  }

  /** Joining separator-free parts and splitting again gives back the parts:
      this is why `get` may re-join its remaining key and split it again. */
  lemma {:induction false} SplitJoin(parts: seq<string>, sep: char)
    requires |parts| >= 1
    requires forall i :: 0 <= i < |parts| ==> sep !in parts[i]
    ensures Split(Join(parts, sep), sep) == parts
    decreases |parts|
  {
    var p0 := parts[0];
    if |parts| == 1 {
      SplitPrefix(p0, [], sep);
      assert p0 + [] == p0;
    } else {
      var tail := parts[1..];
      assert forall i :: 0 <= i < |tail| ==> tail[i] == parts[i + 1];
      SplitJoin(tail, sep);
      var rest := [sep] + Join(tail, sep);
      assert rest[1..] == Join(tail, sep);
      assert Split(rest, sep) == [""] + tail;
      SplitPrefix(p0, rest, sep);
      assert Join(parts, sep) == p0 + rest;
      assert p0 + "" == p0;
      assert parts == [p0] + tail;
    }
  }

  /** Text without the separator extends the first part of what follows. */
  lemma {:induction false} SplitPrefix(a: string, rest: string, sep: char)
    requires sep !in a
    ensures Split(a + rest, sep) == [a + Split(rest, sep)[0]] + Split(rest, sep)[1..]
    decreases |a|
  {
    if a == [] {
      assert a + rest == rest;
      assert [] + Split(rest, sep)[0] == Split(rest, sep)[0];
    } else {
      assert sep !in a[1..] by { assert forall c :: c in a[1..] ==> c in a; }
      SplitPrefix(a[1..], rest, sep);
      var s := a + rest;
      assert s[0] == a[0] && s[1..] == a[1..] + rest;
      assert a[0] != sep by { assert a[0] in a; }
      assert [a[0]] + (a[1..] + Split(rest, sep)[0]) == a + Split(rest, sep)[0];
    }
  }

  /** The first part of a split is the text before the first separator. */
  lemma {:induction false} SplitHead(a: string, b: string, sep: char)
    requires sep !in a
    ensures Split(a + [sep] + b, sep)[0] == a
    decreases |a|
  {
    if a == [] {
      assert a + [sep] + b == [sep] + b;
    } else {
      assert a[0] in a;
      assert forall c :: c in a[1..] ==> c in a;
      SplitHead(a[1..], b, sep);
      assert (a + [sep] + b)[1..] == a[1..] + [sep] + b;
      assert a == [a[0]] + a[1..];
    }
  }

  /** The last part of `s.split(sep)` is empty exactly when `s` is empty or
      ends with the separator. */
  lemma {:induction false} SplitLastEmpty(s: string, sep: char)
    ensures var parts := Split(s, sep);
      (parts[|parts| - 1] == "") <==> (s == [] || s[|s| - 1] == sep)
    decreases |s|
  {
    if s != [] {
      SplitLastEmpty(s[1..], sep);
      var rest := Split(s[1..], sep);
      if s[0] != sep && |rest| == 1 {
        assert Split(s, sep) == [[s[0]] + rest[0]];
        assert s[1..] == [] || s[|s| - 1] == s[1..][|s[1..]| - 1];
      } else {
        assert s[1..] == [] ==> |s| == 1;
        assert s[1..] != [] ==> s[|s| - 1] == s[1..][|s[1..]| - 1];
      }
    }
  }

  /** A global replacement of a literal pattern (a regular expression without
      special characters and the `g` flag): matches are found left to right,
      never overlap, and the replacement text is not scanned again. */
  function ReplaceLiteral(s: string, pat: string, rep: string): string
    requires pat != []
    decreases |s|
  {
    if s == [] then []
    else if StartsWith(s, pat) then rep + ReplaceLiteral(s[|pat|..], pat, rep)
    else [s[0]] + ReplaceLiteral(s[1..], pat, rep)
  }

  /** Text that cannot start a match is copied as it is. */
  lemma {:induction false} ReplaceLiteralPlainPrefix(pre: string, t: string, pat: string, rep: string)
    requires pat != [] && pat[0] !in pre
    ensures ReplaceLiteral(pre + t, pat, rep) == pre + ReplaceLiteral(t, pat, rep)
    decreases |pre|
  {
    if pre != [] {
      var s := pre + t;
      assert s[0] == pre[0] && pre[0] in pre;
      ReplaceLiteralPlainStep(s, pat, rep);
      assert s[1..] == pre[1..] + t;
      assert pat[0] !in pre[1..] by { assert forall c :: c in pre[1..] ==> c in pre; }
      ReplaceLiteralPlainPrefix(pre[1..], t, pat, rep);
      assert [pre[0]] + (pre[1..] + ReplaceLiteral(t, pat, rep)) == pre + ReplaceLiteral(t, pat, rep);
    } else {
      assert pre + t == t;
    }
  }

  /** A character that cannot start a match is copied. */
  lemma ReplaceLiteralPlainStep(s: string, pat: string, rep: string)
    requires pat != [] && s != [] && s[0] != pat[0]
    ensures ReplaceLiteral(s, pat, rep) == [s[0]] + ReplaceLiteral(s[1..], pat, rep)
  {
    StartsWithHead(s, pat);
  }

  /** Replacing a one-character pattern by text that does not contain that
      character removes it entirely; other absent characters stay absent. */
  lemma {:induction false} ReplaceLiteralExcludes(s: string, pat: string, rep: string, c: char)
    requires pat != []
    requires c !in rep
    requires c !in s || pat == [c]
    ensures c !in ReplaceLiteral(s, pat, rep)
    decreases |s|
  {
    if s != [] {
      if StartsWith(s, pat) {
        assert forall x :: x in s[|pat|..] ==> x in s;
        ReplaceLiteralExcludes(s[|pat|..], pat, rep, c);
      } else {
        assert forall x :: x in s[1..] ==> x in s;
        ReplaceLiteralExcludes(s[1..], pat, rep, c);
      }
    }
  }

  /** A string without an occurrence of `p` does not start with it, and
      neither does any of its suffixes contain it. */
  lemma NotContainsTail(s: string, p: string)
    requires s != [] && !Contains(s, p)
    ensures !StartsWith(s, p) && !Contains(s[1..], p)
  {
    assert s[0..] == s;
    forall j | 0 <= j <= |s[1..]| ensures !StartsWith(s[1..][j..], p) {
      assert s[1..][j..] == s[j + 1..];
    }
  }

  /** A literal replacement changes nothing when the pattern does not occur. */
  lemma {:induction false} ReplaceLiteralAbsent(s: string, pat: string, rep: string)
    requires pat != []
    requires !Contains(s, pat)
    ensures ReplaceLiteral(s, pat, rep) == s
    decreases |s|
  {
    if s != [] {
      NotContainsTail(s, pat);
      ReplaceLiteralAbsent(s[1..], pat, rep);
      assert s == [s[0]] + s[1..];
    }
  }

  /** The replacement text of a string-pattern `replace` after expanding its
      substitution patterns: `$$` is a dollar sign, `$&` the matched text,
      `` $` `` the text before the match, `$'` the text after it; any other
      `$` is kept literally. */
  function Substitute(rep: string, matched: string, before: string, after: string): string
    decreases |rep|
  {
    if rep == [] then []
    else if rep[0] == '$' && |rep| >= 2 && rep[1] == '$' then "$" + Substitute(rep[2..], matched, before, after)
    else if rep[0] == '$' && |rep| >= 2 && rep[1] == '&' then matched + Substitute(rep[2..], matched, before, after)
    else if rep[0] == '$' && |rep| >= 2 && rep[1] == '`' then before + Substitute(rep[2..], matched, before, after)
    else if rep[0] == '$' && |rep| >= 2 && rep[1] == '\'' then after + Substitute(rep[2..], matched, before, after)
    else [rep[0]] + Substitute(rep[1..], matched, before, after)
  }

  /** Without a dollar sign the replacement text is used as it is. */
  lemma {:induction false} SubstituteNoDollar(rep: string, matched: string, before: string, after: string)
    requires '$' !in rep
    ensures Substitute(rep, matched, before, after) == rep
    decreases |rep|
  {
    if rep != [] {
      assert rep[0] in rep;
      assert forall x :: x in rep[1..] ==> x in rep;
      SubstituteNoDollar(rep[1..], matched, before, after);
      assert rep == [rep[0]] + rep[1..];
    }
  }

  /** `s.replace(pat, rep)` with a string pattern: only the first occurrence
      is replaced. */
  function ReplaceFirst(s: string, pat: string, rep: string): string
  {
    var i := FindFrom(s, pat, 0);
    if i < 0 then s
    else s[..i] + Substitute(rep, pat, s[..i], s[i + |pat|..]) + s[i + |pat|..]
  }
}
