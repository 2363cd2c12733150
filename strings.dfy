/**
 * Python's `str.replace(old, new)` for a non-empty `old`: one pass over the
 * string, left to right, replacing non-overlapping occurrences. `Split` and
 * `Join` below, modelled on `str.split` and `str.join`, give an independent
 * definition of the same result, and `ReplaceIsJoinOfSplit` proves the two agree.
 */
module Strings {

  /** `pat` occurs in `s` starting at position `i`. */
  predicate OccursAt(s: string, pat: string, i: nat)
  {
    i <= |s| && pat <= s[i..]
  }

  /** `pat` occurs somewhere inside `s`. */
  predicate Occurs(s: string, pat: string)
  {
    exists i: nat | i <= |s| :: OccursAt(s, pat, i)
  }

  /** The scan `str.replace` performs. */
  function Replace(s: string, pat: string, rep: string): string
    requires |pat| > 0
    decreases |s|
  {
    if |s| == 0 then ""
    else if pat <= s then rep + Replace(s[|pat|..], pat, rep)
    else [s[0]] + Replace(s[1..], pat, rep)
  }

  /** `str.split(sep)` for a non-empty separator: always at least one piece. */
  function Split(s: string, sep: string): (pieces: seq<string>)
    requires |sep| > 0
    ensures |pieces| >= 1
    decreases |s|
  {
    if |s| == 0 then [""]
    else if sep <= s then [""] + Split(s[|sep|..], sep)
    else
      var rest := Split(s[1..], sep);
      [[s[0]] + rest[0]] + rest[1..]
  }

  /** `glue.join(pieces)`. */
  function Join(pieces: seq<string>, glue: string): string
  {
    if |pieces| == 0 then ""
    else if |pieces| == 1 then pieces[0]
    else pieces[0] + glue + Join(pieces[1..], glue)
  }

  /** Putting a prefix on the first piece puts it in front of the joined string. */
  lemma {:induction false} JoinPrefixFirst(c: string, pieces: seq<string>, glue: string)
    requires |pieces| >= 1
    ensures Join([c + pieces[0]] + pieces[1..], glue) == c + Join(pieces, glue)
  {
    var p := [c + pieces[0]] + pieces[1..];
    if |pieces| > 1 {
      assert p[1..] == pieces[1..];
      assert Join(p, glue) == (c + pieces[0]) + glue + Join(pieces[1..], glue);
    }
  }

  /** The scan and the split/join definition give the same string. */
  lemma {:induction false} ReplaceIsJoinOfSplit(s: string, pat: string, rep: string)
    requires |pat| > 0
    ensures Replace(s, pat, rep) == Join(Split(s, pat), rep)
    decreases |s|
  {
    if |s| == 0 {
    } else if pat <= s {
      ReplaceIsJoinOfSplit(s[|pat|..], pat, rep);
      var rest := Split(s[|pat|..], pat);
      assert Split(s, pat) == [""] + rest;
      assert ([""] + rest)[1..] == rest;
      assert Join([""] + rest, rep) == "" + rep + Join(rest, rep);
    } else {
      ReplaceIsJoinOfSplit(s[1..], pat, rep);
      var rest := Split(s[1..], pat);
      assert Split(s, pat) == [[s[0]] + rest[0]] + rest[1..];
      JoinPrefixFirst([s[0]], rest, rep);
    }
  }

  /** A string in which `pat` does not occur is returned unchanged. */
  lemma {:induction false} ReplaceAbsent(s: string, pat: string, rep: string)
    requires |pat| > 0
    requires !Occurs(s, pat)
    ensures Replace(s, pat, rep) == s
    decreases |s|
  {
    if |s| > 0 {
      assert !OccursAt(s, pat, 0);
      forall i: nat ensures !OccursAt(s[1..], pat, i) {
        assert !OccursAt(s, pat, i + 1);
        if i <= |s[1..]| {
          assert s[1..][i..] == s[i + 1..];
        }
      }
      ReplaceAbsent(s[1..], pat, rep);
    }
  }

  /**
   * A prefix that does not contain the first character of `pat` cannot start
   * a match, so it is copied through unchanged.
   */
  lemma {:induction false} ReplaceSkip(u: string, v: string, pat: string, rep: string)
    requires |pat| > 0 && pat[0] !in u
    ensures Replace(u + v, pat, rep) == u + Replace(v, pat, rep)
    decreases |u|
  {
    if |u| == 0 {
      assert u + v == v;
    } else {
      assert (u + v)[0] == u[0] && u[0] != pat[0];
      assert !(pat <= u + v);
      assert (u + v)[1..] == u[1..] + v;
      assert u == [u[0]] + u[1..];
      forall k | 0 <= k < |u[1..]| ensures u[1..][k] != pat[0] {
        assert u[1..][k] == u[k + 1];
      }
      ReplaceSkip(u[1..], v, pat, rep);
      assert Replace(u + v, pat, rep) == [u[0]] + (u[1..] + Replace(v, pat, rep));
    }
  }

  /** One occurrence preceded by a prefix that cannot start a match is replaced once. */
  lemma ReplaceFirst(u: string, pat: string, w: string, rep: string)
    requires |pat| > 0 && pat[0] !in u
    ensures Replace(u + pat + w, pat, rep) == u + rep + Replace(w, pat, rep)
  {
    assert u + pat + w == u + (pat + w);
    ReplaceSkip(u, pat + w, pat, rep);
    assert pat <= pat + w && (pat + w)[|pat|..] == w;
  }

  /** A string without the first character of `pat` is returned unchanged. */
  lemma ReplaceWithoutFirstChar(s: string, pat: string, rep: string)
    requires |pat| > 0 && pat[0] !in s
    ensures Replace(s, pat, rep) == s
  {
    assert s + "" == s;
    ReplaceSkip(s, "", pat, rep);
  }

  /** A string shorter than `pat` cannot hold it and is returned unchanged. */
  lemma {:induction false} ReplaceShort(s: string, pat: string, rep: string)
    requires 0 < |pat| && |s| < |pat|
    ensures Replace(s, pat, rep) == s
    decreases |s|
  {
    if |s| > 0 {
      ReplaceShort(s[1..], pat, rep);
      assert s == [s[0]] + s[1..];
    }
  }
}
