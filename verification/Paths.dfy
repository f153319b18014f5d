/**
 Range paths as strings and as lists of components: `os.path.join`, `os.path.dirname`
 and `split("/")`, and what a string prefix between two paths means for their components.
 */
module Paths {

  // ------------------------------------------------------------- Python's functions

  /** `os.path.join(path, name)` */
  function Join(path: string, name: string): string {
    if name != "" && name[0] == '/' then name
    else if path == "" || path[|path| - 1] == '/' then path + name
    else path + "/" + name
  }

  /** `p.rfind("/") + 1` */
  function AfterLastSlash(p: string): (i: nat)
    ensures i <= |p|
    ensures i > 0 ==> p[i - 1] == '/'
    ensures forall j :: i <= j < |p| ==> p[j] != '/'
  {
    if p == "" || p[|p| - 1] == '/' then |p| else AfterLastSlash(p[..|p| - 1])
  }

  /** `s.rstrip("/")` */
  function StripSlashes(s: string): (r: string)
    ensures r <= s
    ensures r != "" ==> r[|r| - 1] != '/'
  {
    if s != "" && s[|s| - 1] == '/' then StripSlashes(s[..|s| - 1]) else s
  }

  /** `os.path.dirname(p)` */
  function Dirname(p: string): string {
    var head := p[..AfterLastSlash(p)];
    if forall i :: 0 <= i < |head| ==> head[i] == '/' then head else StripSlashes(head)
  }

  /** `s.split("/")` */
  function Split(s: string): (parts: seq<string>)
    ensures parts != []
    decreases |s|
  {
    var i := AfterLastSlash(s);
    if i == 0 then [s] else Split(s[..i - 1]) + [s[i..]]
  }

  // ------------------------------------------------------------------- components

  predicate Component(c: string) {
    c != "" && '/' !in c
  }

  predicate Components(ps: seq<string>) {
    ps != [] && forall i :: 0 <= i < |ps| ==> Component(ps[i])
  }

  function Render(ps: seq<string>): string
    requires ps != []
  {
    if |ps| == 1 then ps[0] else Render(ps[..|ps| - 1]) + "/" + ps[|ps| - 1]
  }

  lemma Append(ps: seq<string>, c: string)
    requires ps != []
    ensures Render(ps + [c]) == Render(ps) + "/" + c
  {
    assert (ps + [c])[..|ps|] == ps;
  }

  lemma {:induction false} RenderEnds(ps: seq<string>)
    requires Components(ps)
    ensures Render(ps) != "" && Render(ps)[0] != '/' && Render(ps)[|Render(ps)| - 1] != '/'
  {
    if |ps| > 1 { RenderEnds(ps[..|ps| - 1]); }
  }

  lemma LastSlash(a: string, c: string)
    requires '/' !in c
    ensures AfterLastSlash(a + "/" + c) == |a| + 1
    ensures AfterLastSlash(c) == 0
  {
    hide AfterLastSlash;
    var p := a + "/" + c;
    assert p[|a|] == '/';
    forall j | 0 <= j < |c| ensures c[j] != '/' && p[|a| + 1 + j] != '/' {
      assert c[j] in c;
    }
    forall j | |a| + 1 <= j < |p| ensures p[j] != '/' {
      assert p[j] == p[|a| + 1 + (j - |a| - 1)];
    }
  }

  /** Joining a component appends it, and `dirname` takes it off again. */
  lemma JoinAppends(ps: seq<string>, c: string)
    requires Components(ps) && Component(c)
    ensures Components(ps + [c])
    ensures Join(Render(ps), c) == Render(ps + [c])
    ensures Dirname(Render(ps + [c])) == Render(ps)
  {
    RenderEnds(ps);
    Append(ps, c);
    var a := Render(ps);
    LastSlash(a, c);
    var p := a + "/" + c;
    assert p[..|a| + 1] == a + "/";
    assert (a + "/")[0] != '/';
    StripOne(a);
  }

  lemma StripOne(a: string)
    requires a != "" && a[|a| - 1] != '/'
    ensures StripSlashes(a + "/") == a
  {
    assert (a + "/")[..|a|] == a;
  }

  /** `split` undoes rendering. */
  lemma {:induction false} SplitRender(ps: seq<string>)
    requires Components(ps)
    ensures Split(Render(ps)) == ps
  {
    if |ps| == 1 {
      LastSlash("", ps[0]);
    } else {
      var init, c := ps[..|ps| - 1], ps[|ps| - 1];
      SplitRender(init);
      LastSlash(Render(init), c);
      var s := Render(ps);
      assert s[..|Render(init)|] == Render(init) && s[|Render(init)| + 1..] == c;
    }
  }

  /** Rendering undoes `split`, for every string. */
  lemma {:induction false} RenderSplit(s: string)
    ensures Render(Split(s)) == s
    decreases |s|
  {
    var i := AfterLastSlash(s);
    if i > 0 {
      RenderSplit(s[..i - 1]);
      Append(Split(s[..i - 1]), s[i..]);
      assert s == s[..i - 1] + "/" + s[i..];
    }
  }

  lemma RenderInjective(a: seq<string>, b: seq<string>)
    requires Components(a) && Components(b)
    ensures Render(a) == Render(b) <==> a == b
  {
    SplitRender(a);
    SplitRender(b);
  }

  // ------------------------------------------------------ when a push can be undone

  /** For a path that neither starts nor ends with a slash: `dirname` undoes `join` iff the message has no slash. */
  lemma DirnameUndoesJoin(p: string, m: string)
    requires p != "" && p[0] != '/' && p[|p| - 1] != '/'
    ensures Dirname(Join(p, m)) == p <==> '/' !in m
  {
    if '/' !in m {
      LastSlash(p, m);
      var q := p + "/" + m;
      assert q[..|p| + 1] == p + "/";
      assert (p + "/")[0] != '/';
      StripOne(p);
    } else if m[0] == '/' {
      var q := Join(p, m);
      DirnameKeepsSlash(q);
    } else {
      DirnameKeepsMore(p, m);
    }
  }

  /** A message with a slash inside leaves at least its first character behind. */
  lemma DirnameKeepsMore(p: string, m: string)
    requires p != "" && p[0] != '/' && m != "" && m[0] != '/' && '/' in m
    ensures |Dirname(p + "/" + m)| > |p|
  {
    hide AfterLastSlash;
    var i := AfterLastSlash(m);
    assert i > 0 by { var k :| 0 <= k < |m| && m[k] == '/'; }
    var q := p + "/" + m;
    var a := p + "/" + m[..i - 1];
    assert m == m[..i - 1] + "/" + m[i..];
    assert q == a + "/" + m[i..];
    LastSlash(a, m[i..]);
    var head := q[..|a| + 1];
    assert head[0] == p[0];
    assert head[|p| + 1] == m[0];
    StripKeeps(head, |p| + 1);
  }

  lemma DirnameKeepsSlash(q: string)
    requires q != "" && q[0] == '/'
    ensures Dirname(q) != "" && Dirname(q)[0] == '/'
  {
    var head := q[..AfterLastSlash(q)];
    assert AfterLastSlash(q) > 0;
    assert head[0] == '/';
    if i :| 0 <= i < |head| && head[i] != '/' {
      StripKeeps(head, i);
    }
  }

  lemma {:induction false} StripKeeps(s: string, i: nat)
    requires i < |s| && s[i] != '/'
    ensures i < |StripSlashes(s)|
  {
    if s[|s| - 1] == '/' { StripKeeps(s[..|s| - 1], i); }
  }

  // ----------------------------------------------------------- prefixes of paths

  /** `b` continues the last component of `a` by at least one more character. */
  predicate ExtendsInside(a: seq<string>, b: seq<string>)
    requires a != []
  {
    |a| <= |b| && a[..|a| - 1] == b[..|a| - 1] && a[|a| - 1] < b[|a| - 1]
  }

  lemma {:induction false} RenderPrefix(a: seq<string>, b: seq<string>)
    requires a != [] && a <= b
    ensures Render(a) <= Render(b)
    decreases |b|
  {
    if |a| < |b| {
      RenderPrefix(a, b[..|b| - 1]);
    } else {
      assert a == b;
    }
  }

  /** A string prefix of a path is a path prefix, or stops inside a component. */
  lemma {:induction false} PrefixMeaning(a: seq<string>, b: seq<string>)
    requires Components(a) && Components(b)
    ensures Render(a) <= Render(b) <==> a <= b || ExtendsInside(a, b)
  {
    if Render(a) <= Render(b) {
      PrefixSplits(a, b);
    }
    if a <= b {
      RenderPrefix(a, b);
    } else if ExtendsInside(a, b) {
      var n := |a| - 1;
      if n == 0 {
        RenderPrefix([b[0]], b);
        assert a == [a[0]];
      } else {
        Append(a[..n], a[n]);
        Append(b[..n], b[n]);
        assert a == a[..n] + [a[n]] && b[..n + 1] == b[..n] + [b[n]];
        RenderPrefix(b[..n + 1], b);
      }
    }
  }

  lemma {:induction false} PrefixSplits(a: seq<string>, b: seq<string>)
    requires Components(a) && Components(b) && Render(a) <= Render(b)
    ensures a <= b || ExtendsInside(a, b)
    decreases |b|
  {
    hide Split, AfterLastSlash, ExtendsInside;
    if |b| == 1 {
      if |a| > 1 { SlashInside(a); assert false; }
      SameButLast([], a[0], b[0]);
      assert a == [] + [a[0]] && b == [] + [b[0]];
    } else {
      var init, c := b[..|b| - 1], b[|b| - 1];
      if |Render(a)| <= |Render(init)| {
        assert Render(a) <= Render(init);
        PrefixSplits(a, init);
        Widen(a, init, c);
        assert b == init + [c];
      } else {
        var x := LastPart(Render(init), c, Render(a));
        SplitRender(a);
        SplitRender(init);
        SameButLast(init, x, c);
        assert a == init + [x] && b == init + [c];
      }
    }
  }

  lemma Widen(a: seq<string>, init: seq<string>, c: string)
    requires a != [] && (a <= init || ExtendsInside(a, init))
    ensures a <= init + [c] || ExtendsInside(a, init + [c])
  {
    if ExtendsInside(a, init) {
      assert (init + [c])[..|a| - 1] == init[..|a| - 1];
    }
  }

  lemma SameButLast(init: seq<string>, x: string, c: string)
    requires x <= c
    ensures init + [x] <= init + [c] || ExtendsInside(init + [x], init + [c])
  {
    if |x| == |c| {
      assert x == c;
    } else {
      assert (init + [x])[..|init|] == init == (init + [c])[..|init|];
    }
  }

  /** A prefix of `t/c` that is longer than `t` is `t/x` for a prefix `x` of `c`. */
  lemma LastPart(t: string, c: string, r: string) returns (x: string)
    requires '/' !in c && |t| < |r| && r <= t + "/" + c
    ensures x <= c && Split(r) == Split(t) + [x]
  {
    x := r[|t| + 1..];
    assert x == (t + "/" + c)[|t| + 1..|r|] == c[..|x|];
    assert r == t + "/" + x;
    LastSlash(t, x);
    assert r[..|t|] == t;
  }

  lemma SlashInside(a: seq<string>)
    requires |a| > 1
    ensures '/' in Render(a)
  {
    var n := |Render(a[..|a| - 1])|;
    assert Render(a)[n] == '/';
  }
}
