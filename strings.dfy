/**
 * The handful of Python string operations the modelled code relies on:
 * `str.split(sep)` with a one-character separator, `sep.join(parts)`,
 * `str.startswith`, `str.capitalize` (on ASCII letters) and the
 * whitespace split of `bytes.split()`.
 */
module Strings {

  /** Python's `s.split(c)`: never empty; "" splits to [""], "a--b" to ["a", "", "b"]. */
  function Split(s: string, c: char): (parts: seq<string>)
    ensures |parts| >= 1
    decreases |s|
  {
    if |s| == 0 then [""]
    else
      var rest := Split(s[1..], c);
      if s[0] == c then [""] + rest
      else [[s[0]] + rest[0]] + rest[1..]
  }

  /** Python's `sep.join(parts)`. */
  function Join(sep: string, parts: seq<string>): string
    decreases |parts|
  {
    if |parts| == 0 then ""
    else if |parts| == 1 then parts[0]
    else parts[0] + sep + Join(sep, parts[1..])
  }

  /** Python's `parts[-1]`. */
  function Last(parts: seq<string>): string
    requires |parts| > 0
  {
    parts[|parts| - 1]
  }

  /** Python's `s.startswith(p)`. */
  predicate StartsWith(s: string, p: string)
  {
    |p| <= |s| && s[..|p|] == p
  }

  /** Reference definition: every occurrence of `c` in `s` replaced by `rep`. */
  function Substitute(s: string, c: char, rep: string): string
    decreases |s|
  {
    if |s| == 0 then ""
    else (if s[0] == c then rep else [s[0]]) + Substitute(s[1..], c, rep)
  }

  /** Reference definition: `s` with every occurrence of `c` removed. */
  function Remove(s: string, c: char): string
  {
    Substitute(s, c, "")
  }

  lemma {:induction false} JoinCons(sep: string, x: string, parts: seq<string>)
    requires |parts| >= 1
    ensures Join(sep, [x] + parts) == x + sep + Join(sep, parts)
  {
    assert ([x] + parts)[1..] == parts;
  }

  /** Prepending to the first part prepends to the joined string. */
  lemma {:induction false} JoinPrependFirst(sep: string, x: string, parts: seq<string>)
    requires |parts| >= 1
    ensures Join(sep, [x + parts[0]] + parts[1..]) == x + Join(sep, parts)
  {
    if |parts| == 1 {
      assert [x + parts[0]] + parts[1..] == [x + parts[0]];
    } else {
      JoinCons(sep, x + parts[0], parts[1..]);
      JoinCons(sep, parts[0], parts[1..]);
      assert parts == [parts[0]] + parts[1..];
    }
  }

  /** Joining the pieces of a split with `sep` substitutes `sep` for the separator. */
  lemma {:induction false} JoinSplit(s: string, c: char, sep: string)
    ensures Join(sep, Split(s, c)) == Substitute(s, c, sep)
    decreases |s|
  {
    if |s| > 0 {
      var rest := Split(s[1..], c);
      JoinSplit(s[1..], c, sep);
      if s[0] == c {
        JoinCons(sep, "", rest);
      } else {
        JoinPrependFirst(sep, [s[0]], rest);
      }
    }
  }

  /** Round trip: joining the pieces of `s.split(c)` with `c` gives back `s`. */
  lemma {:induction false} SubstituteSelf(s: string, c: char)
    ensures Substitute(s, c, [c]) == s
    decreases |s|
  {
    if |s| > 0 {
      SubstituteSelf(s[1..], c);
      assert s == [s[0]] + s[1..];
    }
  }

  /** No piece of a split contains the separator. */
  lemma {:induction false} SplitPiecesFree(s: string, c: char)
    ensures forall i :: 0 <= i < |Split(s, c)| ==> c !in Split(s, c)[i]
    decreases |s|
  {
    if |s| > 0 {
      SplitPiecesFree(s[1..], c);
    }
  }

  /** A string without the separator splits to itself. */
  lemma {:induction false} SplitWithout(w: string, c: char)
    requires c !in w
    ensures Split(w, c) == [w]
    decreases |w|
  {
    if |w| > 0 {
      SplitWithout(w[1..], c);
      assert w == [w[0]] + w[1..];
    }
  }

  /** One step of `Split`: the first character either starts a new piece or extends the first one. */
  lemma SplitCons(ch: char, t: string, c: char)
    ensures ch == c ==> Split([ch] + t, c) == [""] + Split(t, c)
    ensures ch != c ==> Split([ch] + t, c) == [[ch] + Split(t, c)[0]] + Split(t, c)[1..]
  {
    assert ([ch] + t)[1..] == t;
  }

  /** Splitting around one separator concatenates the splits of the two sides. */
  lemma {:induction false} SplitAround(p: string, c: char, w: string)
    ensures Split(p + [c] + w, c) == Split(p, c) + Split(w, c)
    decreases |p|
  {
    if |p| == 0 {
      assert p + [c] + w == [c] + w;
      SplitCons(c, w, c);
    } else {
      SplitAround(p[1..], c, w);
      SplitAroundStep(p, c, w);
    }
  }

  lemma SplitAroundStep(p: string, c: char, w: string)
    requires |p| > 0
    requires Split(p[1..] + [c] + w, c) == Split(p[1..], c) + Split(w, c)
    ensures Split(p + [c] + w, c) == Split(p, c) + Split(w, c)
  {
    var q := p[1..] + [c] + w;
    assert p + [c] + w == [p[0]] + q;
    assert p == [p[0]] + p[1..];
    SplitCons(p[0], q, c);
    SplitCons(p[0], p[1..], c);
    ExtendFirst(if p[0] == c then "" else [p[0]], Split(p[1..], c), Split(w, c));
  }

  /** Starting a new piece `[x] + a`, or extending the first one, commutes with appending `b`. */
  lemma ExtendFirst(x: string, a: seq<string>, b: seq<string>)
    requires |a| > 0
    ensures [x] + (a + b) == ([x] + a) + b
    ensures [x + (a + b)[0]] + (a + b)[1..] == ([x + a[0]] + a[1..]) + b
  {
    assert (a + b)[0] == a[0] && (a + b)[1..] == a[1..] + b;
  }

  /** The last piece of `p + c + w` is `w` when `w` holds no separator. */
  lemma LastPieceAfter(p: string, c: char, w: string)
    requires c !in w
    ensures Last(Split(p + [c] + w, c)) == w
  {
    SplitAround(p, c, w);
    SplitWithout(w, c);
  }

  // ---- ASCII case mapping, as Python's str.upper/str.lower do on ASCII letters ----

  function UpperChar(ch: char): char
  {
    if 'a' <= ch <= 'z' then (ch as int - 32) as char else ch
  }

  function LowerChar(ch: char): char
  {
    if 'A' <= ch <= 'Z' then (ch as int + 32) as char else ch
  }

  function Lower(s: string): (r: string)
    ensures |r| == |s| && forall i :: 0 <= i < |s| ==> r[i] == LowerChar(s[i])
  {
    seq(|s|, i requires 0 <= i < |s| => LowerChar(s[i]))
  }

  /** Python's `str.capitalize` on ASCII letters: first character upper-cased, the rest lower-cased. */
  function Capitalize(t: string): (r: string)
    ensures |r| == |t|
    ensures |t| > 0 ==> r[0] == UpperChar(t[0])
    ensures forall i :: 0 < i < |t| ==> r[i] == LowerChar(t[i])
  {
    if |t| == 0 then "" else [UpperChar(t[0])] + Lower(t[1..])
  }

  /** `[Capitalize(p) for p in parts]`. */
  function CapitalizeAll(parts: seq<string>): (r: seq<string>)
    ensures |r| == |parts| && forall i :: 0 <= i < |parts| ==> r[i] == Capitalize(parts[i])
  {
    seq(|parts|, i requires 0 <= i < |parts| => Capitalize(parts[i]))
  }

  function LowerAll(parts: seq<string>): (r: seq<string>)
    ensures |r| == |parts| && forall i :: 0 <= i < |parts| ==> r[i] == Lower(parts[i])
  {
    seq(|parts|, i requires 0 <= i < |parts| => Lower(parts[i]))
  }

  lemma LowerIdempotentChar(ch: char)
    ensures LowerChar(LowerChar(ch)) == LowerChar(ch) && LowerChar(UpperChar(ch)) == LowerChar(ch)
  {
  }

  /** Capitalizing changes only letter case. */
  lemma LowerCapitalize(t: string)
    ensures Lower(Capitalize(t)) == Lower(t)
  {
    forall i | 0 <= i < |t| ensures Lower(Capitalize(t))[i] == Lower(t)[i] {
      LowerIdempotentChar(t[i]);
    }
  }

  lemma LowerAppend(a: string, b: string)
    ensures Lower(a + b) == Lower(a) + Lower(b)
  {
  }

  lemma LowerCons(c: char, x: string)
    ensures Lower([c] + x) == [LowerChar(c)] + Lower(x)
  {
    assert forall i :: 0 <= i < |x| ==> ([c] + x)[i + 1] == x[i];
  }

  lemma CapitalizeCons(c: char, x: string)
    ensures Capitalize([c] + x) == [UpperChar(c)] + Lower(x)
  {
    assert ([c] + x)[1..] == x;
  }

  /** Lower-casing distributes over concatenation of the parts. */
  lemma {:induction false} LowerConcat(parts: seq<string>)
    ensures Lower(Join("", parts)) == Join("", LowerAll(parts))
    decreases |parts|
  {
    if |parts| >= 2 {
      LowerConcat(parts[1..]);
      LowerAppend(parts[0], Join("", parts[1..]));
      assert LowerAll(parts)[1..] == LowerAll(parts[1..]);
    }
  }

  /** Whitespace as `bytes.split()` with no argument sees it. */
  predicate IsSpace(ch: char)
  {
    ch == ' ' || ch == '\t' || ch == '\n' || ch == '\r' || ch == '\U{000B}' || ch == '\U{000C}'
  }

  /** Length of the leading run of non-whitespace characters. */
  function WordLength(s: string): (n: nat)
    ensures n <= |s| && (n < |s| ==> IsSpace(s[n]))
    ensures forall i :: 0 <= i < n ==> !IsSpace(s[i])
  {
    if |s| == 0 || IsSpace(s[0]) then 0 else 1 + WordLength(s[1..])
  }

  /** Python's `s.split()`: the maximal runs of non-whitespace characters. */
  function Fields(s: string): (r: seq<string>)
    ensures forall i :: 0 <= i < |r| ==> r[i] != "" && forall j :: 0 <= j < |r[i]| ==> !IsSpace(r[i][j])
    decreases |s|
  {
    if |s| == 0 then []
    else if IsSpace(s[0]) then Fields(s[1..])
    else
      var n := WordLength(s);
      [s[..n]] + Fields(s[n..])
  }

  predicate NoSpace(w: string)
  {
    forall j :: 0 <= j < |w| ==> !IsSpace(w[j])
  }

  lemma {:induction false} WordLengthOf(w: string, rest: string)
    requires NoSpace(w) && |rest| > 0 && IsSpace(rest[0])
    ensures WordLength(w + rest) == |w|
    decreases |w|
  {
    if |w| > 0 {
      assert (w + rest)[1..] == w[1..] + rest;
      WordLengthOf(w[1..], rest);
    }
  }

  /** A word followed by whitespace is split off as the first field. */
  lemma FieldsOfWord(w: string, rest: string)
    requires w != "" && NoSpace(w) && |rest| > 0 && IsSpace(rest[0])
    ensures Fields(w + rest) == [w] + Fields(rest)
  {
    WordLengthOf(w, rest);
    assert (w + rest)[..|w|] == w;
    assert (w + rest)[|w|..] == rest;
  }

  /** Whitespace in front of the fields is skipped. */
  lemma FieldsSkip(ch: char, rest: string)
    requires IsSpace(ch)
    ensures Fields([ch] + rest) == Fields(rest)
  {
    assert ([ch] + rest)[1..] == rest;
  }
}
