/**
 * POSIX path composition as Python's `os.path` does it on the resource side:
 * `isabs` tests for a leading "/", and `join` appends components with "/",
 * restarting from any component that is itself absolute.
 */
module Paths {
  import opened Strings

  /** `os.path.isabs(p)`. */
  predicate IsAbs(p: string)
  {
    |p| > 0 && p[0] == '/'
  }

  /** `os.path.join(a, b)`. */
  function Join2(a: string, b: string): (r: string)
    ensures IsAbs(b) ==> r == b
    ensures !IsAbs(b) && a != "" && a[|a| - 1] != '/' ==> r == a + "/" + b
    ensures !IsAbs(b) && (a == "" || a[|a| - 1] == '/') ==> r == a + b
  {
    if IsAbs(b) then b
    else if a == "" || a[|a| - 1] == '/' then a + b
    else a + "/" + b
  }

  /** `os.path.join(a, *bs)`: components are folded in from left to right. */
  function JoinAll(a: string, bs: seq<string>): string
    decreases |bs|
  {
    if |bs| == 0 then a else JoinAll(Join2(a, bs[0]), bs[1..])
  }

  predicate AllRelative(bs: seq<string>)
  {
    forall i :: 0 <= i < |bs| ==> !IsAbs(bs[i])
  }

  /** Joining relative components never leaves the starting directory. */
  lemma {:induction false} JoinStaysUnder(a: string, bs: seq<string>)
    requires AllRelative(bs)
    ensures StartsWith(JoinAll(a, bs), a)
    ensures IsAbs(a) ==> IsAbs(JoinAll(a, bs))
    decreases |bs|
  {
    if |bs| > 0 {
      var a' := Join2(a, bs[0]);
      assert StartsWith(a', a);
      JoinStaysUnder(a', bs[1..]);
      var r := JoinAll(a', bs[1..]);
      assert r[..|a|] == r[..|a'|][..|a|];
    }
  }

  /** An absolute component anywhere discards everything joined before it. */
  lemma {:induction false} JoinRestartsAtAbsolute(a: string, bs: seq<string>, k: nat)
    requires k < |bs| && IsAbs(bs[k])
    ensures JoinAll(a, bs) == JoinAll(bs[k], bs[k + 1..])
    decreases k
  {
    if k > 0 {
      JoinRestartsAtAbsolute(Join2(a, bs[0]), bs[1..], k - 1);
      assert bs[1..][k..] == bs[k + 1..];
    }
  }

  /** Joining a concatenation of component lists joins the second list onto the first join. */
  lemma {:induction false} JoinAllAppend(a: string, xs: seq<string>, ys: seq<string>)
    ensures JoinAll(a, xs + ys) == JoinAll(JoinAll(a, xs), ys)
    decreases |xs|
  {
    if |xs| == 0 {
      assert xs + ys == ys;
    } else {
      assert (xs + ys)[0] == xs[0] && (xs + ys)[1..] == xs[1..] + ys;
      JoinAllAppend(Join2(a, xs[0]), xs[1..], ys);
    }
  }

  /** Two relative components under a base without trailing "/". */
  lemma JoinTwo(a: string, b: string, c: string)
    requires a != "" && a[|a| - 1] != '/'
    requires b != "" && b[0] != '/' && b[|b| - 1] != '/' && c != "" && c[0] != '/'
    ensures JoinAll(a, [b, c]) == a + "/" + b + "/" + c
  {
    var ab := a + "/" + b;
    assert Join2(a, b) == ab;
    assert ab[|ab| - 1] == b[|b| - 1];
    assert [b, c][1..] == [c] && [c][1..] == [];
    assert JoinAll(a, [b, c]) == JoinAll(ab, [c]);
    assert JoinAll(ab, [c]) == JoinAll(Join2(ab, c), []);
  }

  /** The directories `mkdir -p p` creates besides `p` itself: every proper "/"-prefix. */
  function Ancestors(p: string): (r: set<string>)
    ensures forall q :: q in r ==> |q| < |p| && StartsWith(p, q)
  {
    set i | 0 < i < |p| && p[i] == '/' :: p[..i]
  }
}
