/** The Python string operations the adapters rely on: `str.lower` (on
    ASCII), `sep.join`, `str.split` on one character and `str.replace`. */
module Strings {

  /** ASCII lower-casing of one character. */
  function LowerChar(c: char): char {
    if 'A' <= c <= 'Z' then (c as int - 'A' as int + 'a' as int) as char else c
  }

  /** `s.lower()`, character by character. */
  function Lower(s: string): string
  {
    if |s| == 0 then "" else [LowerChar(s[0])] + Lower(s[1..])
  }

  /** Lower-casing keeps the length, maps each character on its own, and
      leaves nothing upper-case behind. */
  lemma {:induction false} LowerAt(s: string)
    ensures |Lower(s)| == |s|
    ensures forall i :: 0 <= i < |s| ==> Lower(s)[i] == LowerChar(s[i])
    ensures forall i :: 0 <= i < |s| ==> !('A' <= Lower(s)[i] <= 'Z')
  {
    if |s| > 0 {
      LowerAt(s[1..]);
      assert forall i :: 1 <= i < |s| ==> Lower(s)[i] == Lower(s[1..])[i - 1];
    }
  }

  /** `sep.join(parts)`: the parts with one `sep` between neighbours. */
  function Join(sep: string, parts: seq<string>): string
  {
    if |parts| == 0 then ""
    else if |parts| == 1 then parts[0]
    else parts[0] + sep + Join(sep, parts[1..])
  }

  /** Appending a part adds one separator and the part at the end. */
  lemma {:induction false} JoinSnoc(sep: string, parts: seq<string>, x: string)
    requires |parts| >= 1
    ensures Join(sep, parts + [x]) == Join(sep, parts) + sep + x
  {
    if |parts| > 1 {
      assert (parts + [x])[1..] == parts[1..] + [x];
      JoinSnoc(sep, parts[1..], x);
    }
  }

  /** `s.split(c)`: the pieces between occurrences of `c`, never fewer than one. */
  function Split(s: string, c: char): (r: seq<string>)
    ensures |r| >= 1
    ensures forall i :: 0 <= i < |r| ==> c !in r[i]
  {
    if |s| == 0 then [""]
    else
      var rest := Split(s[1..], c);
      if s[0] == c then [""] + rest else [[s[0]] + rest[0]] + rest[1..]
  }

  /** A string without the separator is one piece. */
  lemma {:induction false} SplitWithoutSeparator(s: string, c: char)
    requires c !in s
    ensures Split(s, c) == [s]
  {
    if |s| > 0 {
      SplitWithoutSeparator(s[1..], c);
      assert [s[0]] + s[1..] == s;
    }
  }

  /** Splitting `x c y` yields `x` followed by the pieces of `y`. */
  lemma {:induction false} SplitCons(x: string, c: char, y: string)
    requires c !in x
    ensures Split(x + [c] + y, c) == [x] + Split(y, c)
  {
    if |x| == 0 {
      assert (x + [c] + y)[1..] == y;
    } else {
      assert (x + [c] + y)[1..] == x[1..] + [c] + y;
      SplitCons(x[1..], c, y);
      assert [x[0]] + x[1..] == x;
    }
  }

  /** `split` undoes `join` when no part contains the separator. */
  lemma {:induction false} SplitJoin(c: char, parts: seq<string>)
    requires |parts| >= 1
    requires forall i :: 0 <= i < |parts| ==> c !in parts[i]
    ensures Split(Join([c], parts), c) == parts
  {
    if |parts| == 1 {
      SplitWithoutSeparator(parts[0], c);
    } else {
      SplitJoin(c, parts[1..]);
      SplitCons(parts[0], c, Join([c], parts[1..]));
    }
  }

  /** The first piece of `s.split(c)` is the prefix of `s` before the first `c`. */
  lemma {:induction false} SplitFirstPiece(s: string, c: char)
    ensures var p := Split(s, c)[0];
      && |p| <= |s| && p == s[..|p|]
      && c !in p
      && (|p| < |s| ==> s[|p|] == c)
  {
    if |s| > 0 && s[0] != c {
      SplitFirstPiece(s[1..], c);
    }
  }

  /** Whether `p` occurs in `t` at some position. */
  predicate Occurs(t: string, p: string)
    decreases |t|
  {
    if |t| < |p| then false
    else t[..|p|] == p || (|t| > 0 && Occurs(t[1..], p))
  }

  /** `s.replace(target, replacement)`: every non-overlapping occurrence,
      scanned from the left, is replaced. */
  function Replace(s: string, target: string, replacement: string): string
    requires |target| > 0
    decreases |s|
  {
    if |s| < |target| then s
    else if s[..|target|] == target then replacement + Replace(s[|target|..], target, replacement)
    else [s[0]] + Replace(s[1..], target, replacement)
  }

  /** The first character of a replaced string comes from the replacement
      or is the first character of the input. */
  lemma ReplaceHead(s: string, target: string, replacement: string)
    requires |target| > 0 && |replacement| > 0
    requires |Replace(s, target, replacement)| > 0
    ensures |s| > 0
    ensures var r := Replace(s, target, replacement);
      r[0] == replacement[0] || r[0] == s[0]
  {
  }

  /** Replacing the platform line separator by a space leaves no line
      separator behind, for both separators a platform uses. */
  lemma {:induction false} ReplaceRemovesLineSeparator(s: string, sep: string)
    requires sep == "\n" || sep == "\r\n"
    ensures !Occurs(Replace(s, sep, " "), sep)
    decreases |s|
  {
    var r := Replace(s, sep, " ");
    if |s| < |sep| {
      assert r == s;
      if |s| == 1 {
        assert s[..|s|] == s;
        assert s[1..] == [];
      }
    } else if s[..|sep|] == sep {
      var rest := Replace(s[|sep|..], sep, " ");
      ReplaceRemovesLineSeparator(s[|sep|..], sep);
      assert r == " " + rest;
      assert r[1..] == rest;
    } else {
      var rest := Replace(s[1..], sep, " ");
      ReplaceRemovesLineSeparator(s[1..], sep);
      assert r == [s[0]] + rest;
      assert r[1..] == rest;
      if |sep| == 2 && |rest| > 0 {
        ReplaceHead(s[1..], sep, " ");
        assert s[..2] == [s[0], s[1]];
      }
    }
  }

  /** A text in which the target does not occur is left as it is. */
  lemma {:induction false} ReplaceWithoutTarget(s: string, target: string, replacement: string)
    requires |target| > 0
    requires !Occurs(s, target)
    ensures Replace(s, target, replacement) == s
    decreases |s|
  {
    if |s| >= |target| {
      ReplaceWithoutTarget(s[1..], target, replacement);
      assert [s[0]] + s[1..] == s;
    }
  }

  /** Replacing the line separator in a line that holds none, then the
      separator, then the rest: the line is kept, the separator becomes one
      space and the rest is replaced on its own. No occurrence of the
      separator straddles the end of the line, for either separator. */
  lemma {:induction false} ReplaceLineSeparatorConcat(a: string, sep: string, b: string)
    requires sep == "\n" || sep == "\r\n"
    requires !Occurs(a, sep)
    ensures Replace(a + sep + b, sep, " ") == a + " " + Replace(b, sep, " ")
    decreases |a|
  {
    var s := a + sep + b;
    if |a| == 0 {
      assert s[..|sep|] == sep;
      assert s[|sep|..] == b;
    } else {
      if |a| >= |sep| {
        assert s[..|sep|] == a[..|sep|];
      } else {
        assert |a| == 1 && |sep| == 2;
        assert s[1] == '\r';
      }
      assert s[..|sep|] != sep;
      assert s[1..] == a[1..] + sep + b;
      ReplaceLineSeparatorConcat(a[1..], sep, b);
      assert [a[0]] + a[1..] == a;
    }
  }
}
