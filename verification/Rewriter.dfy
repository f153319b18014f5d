/**
 The source-porting rewriter on one line: the rules are applied one after the other, the
 longest key first.  The intended meaning is a single left-to-right pass that replaces
 the longest key found at each place.  `SequentialIsClosedPass` says what the loop
 computes instead, `SequentialIsOnePass` and `AgreesIff` when the two are the same.
 */
module Rewriter {

  datatype Rule = Rule(key: string, text: string)

  // ---------------------------------------------------------------- Python's str

  /** `s.replace(k, d)`: leftmost, non-overlapping. */
  function ReplaceAll(s: string, k: string, d: string): string
    requires k != ""
    decreases |s|
  {
    if |s| < |k| then s
    else if k <= s then d + ReplaceAll(s[|k|..], k, d)
    else [s[0]] + ReplaceAll(s[1..], k, d)
  }

  /** `k in s` */
  predicate Occurs(k: string, s: string) {
    k <= s || (s != "" && Occurs(k, s[1..]))
  }

  /** `k in s` is a statement about positions. */
  lemma {:induction false} OccursSomewhere(k: string, s: string)
    ensures Occurs(k, s) <==> exists i :: 0 <= i <= |s| && k <= s[i..]
  {
    assert s[0..] == s;
    if !(k <= s) && s != "" {
      OccursSomewhere(k, s[1..]);
      if Occurs(k, s[1..]) {
        var i :| 0 <= i <= |s[1..]| && k <= s[1..][i..];
        assert s[1..][i..] == s[i + 1..];
      }
      if i :| 0 <= i <= |s| && k <= s[i..] {
        assert i != 0;
        assert s[1..][i - 1..] == s[i..];
      }
    }
  }

  /** The loop's `if src in line` guard changes nothing. */
  lemma {:induction false} ReplaceAbsent(s: string, k: string, d: string)
    requires k != "" && !Occurs(k, s)
    ensures ReplaceAll(s, k, d) == s
    decreases |s|
  {
    if |s| >= |k| {
      ReplaceAbsent(s[1..], k, d);
      assert [s[0]] + s[1..] == s;
    }
  }

  // ------------------------------------------------- one line, rule after rule

  ghost predicate Usable(rules: seq<Rule>) {
    forall i :: 0 <= i < |rules| ==> rules[i].key != ""
  }

  function Sequential(line: string, rules: seq<Rule>): string
    requires Usable(rules)
    decreases |rules|
  {
    if rules == [] then line
    else Sequential(ReplaceAll(line, rules[0].key, rules[0].text), rules[1..])
  }

  // ------------------------------------------------- one line, in a single pass

  /** The index of the first rule whose key starts `s`, or the number of rules. */
  function FirstMatch(s: string, rules: seq<Rule>): (i: nat)
    ensures i <= |rules|
    ensures i < |rules| ==> rules[i].key <= s
    ensures forall j :: 0 <= j < i ==> !(rules[j].key <= s)
  {
    if rules == [] || rules[0].key <= s then 0 else 1 + FirstMatch(s, rules[1..])
  }

  function OnePass(s: string, rules: seq<Rule>): string
    requires Usable(rules)
    decreases |s|
  {
    if s == "" then ""
    else
      var i := FirstMatch(s, rules);
      if i < |rules| then rules[i].text + OnePass(s[|rules[i].key|..], rules)
      else [s[0]] + OnePass(s[1..], rules)
  }

  ghost predicate LongestFirst(rules: seq<Rule>) {
    forall i, j :: 0 <= i < j < |rules| ==> |rules[i].key| >= |rules[j].key|
  }

  /** In a table sorted by key length, the pass picks a longest key among all that match. */
  lemma FirstMatchIsLongest(s: string, rules: seq<Rule>, j: nat)
    requires LongestFirst(rules) && j < |rules| && rules[j].key <= s
    ensures FirstMatch(s, rules) < |rules|
    ensures |rules[j].key| <= |rules[FirstMatch(s, rules)].key|
  {
    assert FirstMatch(s, rules) <= j;
  }

  // ------------------------------------------------------- when the two agree

  /** `k` and `d` agree where they overlap when `k` is laid over `d` at offset `o`. */
  ghost predicate Agrees(d: string, k: string, o: int) {
    forall p :: 0 <= p < |d| && 0 <= p - o < |k| ==> d[p] == k[p - o]
  }

  /** Some text around an inserted `d` can make `k` occur in it or over one of its edges. */
  ghost predicate Clashes(d: string, k: string) {
    exists o :: -|k| < o < |d| && Agrees(d, k, o)
  }

  /** The same, with `k` over an edge of `d`, not inside it. */
  ghost predicate Crosses(d: string, k: string) {
    exists o :: -|k| < o < |d| && (o < 0 || o + |k| > |d|) && Agrees(d, k, o)
  }

  /** An occurrence of `left` can run into an occurrence of `right` that starts later. */
  ghost predicate RunsInto(left: string, right: string) {
    exists o :: 0 < o < |left| && left[o..] <= right
  }

  /** No rule's key lies over an edge of `d` when its turn comes; keys inside `d` are replaced. */
  ghost predicate EdgeFree(d: string, rules: seq<Rule>)
    requires Usable(rules)
    decreases |rules|
  {
    rules == [] || (!Crosses(d, rules[0].key) && EdgeFree(ReplaceAll(d, rules[0].key, rules[0].text), rules[1..]))
  }

  ghost predicate EdgesFree(rules: seq<Rule>)
    requires Usable(rules)
    decreases |rules|
  {
    rules == [] || (EdgeFree(rules[0].text, rules[1..]) && EdgesFree(rules[1..]))
  }

  /** Later rules meet what earlier ones put in only inside it; read off the table before any line is seen. */
  ghost predicate Tame(rules: seq<Rule>) {
    && Usable(rules)
    && LongestFirst(rules)
    && EdgesFree(rules)
    && (forall i, j :: 0 <= i < j < |rules| ==> !RunsInto(rules[j].key, rules[i].key))
  }

  /** Every rule with its text as the later rules leave it. */
  function Closed(rules: seq<Rule>): (c: seq<Rule>)
    requires Usable(rules)
    ensures |c| == |rules| && forall i :: 0 <= i < |c| ==> c[i].key == rules[i].key
    decreases |rules|
  {
    if rules == [] then [] else [rules[0].(text := Sequential(rules[0].text, rules[1..]))] + Closed(rules[1..])
  }

  /** Later rules do not meet what earlier ones put in at all. */
  ghost predicate Safe(rules: seq<Rule>) {
    && Usable(rules)
    && LongestFirst(rules)
    && (forall i, j :: 0 <= i < j < |rules| ==> !Clashes(rules[i].text, rules[j].key))
    && (forall i, j :: 0 <= i < j < |rules| ==> !RunsInto(rules[j].key, rules[i].key))
  }

  /** A line in which inserted text is told apart from the original characters. */
  datatype Tok = Raw(c: char) | Put(text: string)

  ghost function Flat(t: seq<Tok>): string {
    if t == [] then "" else (if t[0].Raw? then [t[0].c] else t[0].text) + Flat(t[1..])
  }

  ghost function Lift(s: string): (t: seq<Tok>)
    ensures |t| == |s| && forall i :: 0 <= i < |s| ==> t[i] == Raw(s[i])
  {
    seq(|s|, i requires 0 <= i < |s| => Raw(s[i]))
  }

  ghost predicate Starts(t: seq<Tok>, k: string) {
    |k| <= |t| && forall i :: 0 <= i < |k| ==> t[i] == Raw(k[i])
  }

  ghost function FirstStart(t: seq<Tok>, rules: seq<Rule>): (i: nat)
    ensures i <= |rules|
    ensures i < |rules| ==> Starts(t, rules[i].key)
    ensures forall j :: 0 <= j < i ==> !Starts(t, rules[j].key)
  {
    if rules == [] || Starts(t, rules[0].key) then 0 else 1 + FirstStart(t, rules[1..])
  }

  /** The single pass on marked lines; inserted text is never looked at again. */
  ghost function Scan(t: seq<Tok>, rules: seq<Rule>): seq<Tok>
    requires Usable(rules)
    decreases |t|
  {
    if t == [] then []
    else
      var i := FirstStart(t, rules);
      if i < |rules| then [Put(rules[i].text)] + Scan(t[|rules[i].key|..], rules)
      else [t[0]] + Scan(t[1..], rules)
  }

  lemma {:induction false} ScanNothing(t: seq<Tok>)
    ensures Scan(t, []) == t
  {
    if t != [] { ScanNothing(t[1..]); }
  }

  lemma ScanStep(t: seq<Tok>, r: Rule)
    requires r.key != "" && t != []
    ensures Starts(t, r.key) ==> |r.key| <= |t| && Scan(t, [r]) == [Put(r.text)] + Scan(t[|r.key|..], [r])
    ensures !Starts(t, r.key) ==> Scan(t, [r]) == [t[0]] + Scan(t[1..], [r])
  {
  }

  /** Where `r` does not start, scanning for it copies. */
  lemma {:induction false} ScanCopies(t: seq<Tok>, r: Rule, n: nat)
    requires r.key != "" && n <= |t|
    requires forall o :: 0 <= o < n ==> !Starts(t[o..], r.key)
    ensures Scan(t, [r]) == t[..n] + Scan(t[n..], [r])
  {
    hide Starts;
    assert t[0..] == t;
    if n > 0 {
      forall o | 0 <= o < n - 1 ensures !Starts(t[1..][o..], r.key) {
        assert t[1..][o..] == t[o + 1..];
      }
      ScanCopies(t[1..], r, n - 1);
      ScanStep(t, r);
      assert t[1..][n - 1..] == t[n..];
      assert t[..n] == [t[0]] + t[1..][..n - 1];
      Assoc([t[0]], t[1..][..n - 1], Scan(t[n..], [r]));
      hide Scan;
    }
  }

  /** Scanning creates no new start of a key. */
  lemma {:induction false} ScanStarts(t: seq<Tok>, r: Rule, k: string)
    requires r.key != "" && Starts(Scan(t, [r]), k)
    ensures Starts(t, k)
    decreases |k|
  {
    if k != "" {
      assert Scan(t, [r])[0] == Raw(k[0]);
      var rest := Scan(t[1..], [r]);
      assert Scan(t, [r])[1..] == rest;
      forall i | 0 <= i < |k[1..]| ensures rest[i] == Raw(k[1..][i]) {
        assert rest[i] == Scan(t, [r])[i + 1];
      }
      ScanStarts(t[1..], r, k[1..]);
      forall i | 0 <= i < |k| ensures i < |t| && t[i] == Raw(k[i]) {
        if i > 0 { assert t[i] == t[1..][i - 1] && k[i] == k[1..][i - 1]; }
      }
    }
  }

  lemma OverlapRunsInto(t: seq<Tok>, left: string, right: string, o: nat)
    requires Starts(t, left) && 0 < o < |left| <= |right|
    ensures Starts(t[o..], right) ==> RunsInto(left, right)
  {
    if Starts(t[o..], right) {
      forall i | 0 <= i < |left[o..]| ensures left[o..][i] == right[i] {
        assert t[o..][i] == t[o + i];
      }
      assert left[o..] <= right;
    }
  }

  /** A key that starts at the front and that `r` can neither contain nor run past is left alone. */
  lemma KeyIsCopied(t: seq<Tok>, r: Rule, k: string)
    requires r.key != "" && 0 < |k| <= |r.key| && Starts(t, k) && !Starts(t, r.key) && !RunsInto(k, r.key)
    ensures Scan(t, [r]) == t[..|k|] + Scan(t[|k|..], [r])
  {
    forall o | 0 <= o < |k| ensures !Starts(t[o..], r.key) {
      if o == 0 {
        assert t[0..] == t;
      } else {
        OverlapRunsInto(t, k, r.key, o);
      }
    }
    ScanCopies(t, r, |k|);
  }

  /** The step of `Peel` where `r` starts. */
  lemma PeelFirst(t: seq<Tok>, r: Rule, rest: seq<Rule>)
    requires Usable([r] + rest) && r.key != "" && Usable(rest) && Starts(t, r.key)
    ensures Scan(t, [r] + rest) == [Put(r.text)] + Scan(t[|r.key|..], [r] + rest)
    ensures Scan(Scan(t, [r]), rest) == [Put(r.text)] + Scan(Scan(t[|r.key|..], [r]), rest)
  {
    var once := Scan(t, [r]);
    assert ([r] + rest)[0] == r;
    assert once[1..] == Scan(t[|r.key|..], [r]);
    forall j | 0 <= j < |rest| ensures !Starts(once, rest[j].key) {
      assert once[0].Put? && rest[j].key != "";
    }
  }

  /** What starts a marked line is not changed by scanning for a rule that does not start it. */
  lemma SameStart(t: seq<Tok>, r: Rule, rest: seq<Rule>, i: nat)
    requires r.key != "" && i == FirstStart(t, rest)
    requires i < |rest| ==> Starts(Scan(t, [r]), rest[i].key)
    ensures FirstStart(Scan(t, [r]), rest) == i
  {
    forall j | 0 <= j < i ensures !Starts(Scan(t, [r]), rest[j].key) {
      if Starts(Scan(t, [r]), rest[j].key) { ScanStarts(t, r, rest[j].key); }
    }
  }

  /** The step of `Peel` where another rule starts. */
  lemma PeelOther(t: seq<Tok>, r: Rule, rest: seq<Rule>, i: nat)
    requires Usable([r] + rest) && r.key != "" && Usable(rest) && t != []
    requires !Starts(t, r.key) && i == FirstStart(t, rest) < |rest|
    requires |rest[i].key| <= |r.key| && !RunsInto(rest[i].key, r.key)
    ensures Scan(t, [r] + rest) == [Put(rest[i].text)] + Scan(t[|rest[i].key|..], [r] + rest)
    ensures Scan(Scan(t, [r]), rest) == [Put(rest[i].text)] + Scan(Scan(t[|rest[i].key|..], [r]), rest)
  {
    var once, k := Scan(t, [r]), rest[i].key;
    assert ([r] + rest)[0] == r && ([r] + rest)[1..] == rest;
    assert ([r] + rest)[1 + i] == rest[i];
    KeyIsCopied(t, r, k);
    assert Starts(once, k);
    SameStart(t, r, rest, i);
    assert once[|k|..] == Scan(t[|k|..], [r]);
  }

  /** The step of `Peel` where no rule starts. */
  lemma PeelNone(t: seq<Tok>, r: Rule, rest: seq<Rule>)
    requires Usable([r] + rest) && r.key != "" && Usable(rest) && t != []
    requires !Starts(t, r.key) && FirstStart(t, rest) == |rest|
    ensures Scan(t, [r] + rest) == [t[0]] + Scan(t[1..], [r] + rest)
    ensures Scan(Scan(t, [r]), rest) == [t[0]] + Scan(Scan(t[1..], [r]), rest)
  {
    assert ([r] + rest)[0] == r && ([r] + rest)[1..] == rest;
    assert Scan(t, [r])[1..] == Scan(t[1..], [r]);
    SameStart(t, r, rest, |rest|);
  }

  /** One rule at a time or all at once: the same marked line. */
  lemma {:induction false} Peel(t: seq<Tok>, r: Rule, rest: seq<Rule>)
    requires Usable([r] + rest) && LongestFirst([r] + rest)
    requires forall j :: 0 <= j < |rest| ==> !RunsInto(rest[j].key, r.key)
    ensures r.key != "" && Usable(rest)
    ensures Scan(t, [r] + rest) == Scan(Scan(t, [r]), rest)
    decreases |t|
  {
    assert ([r] + rest)[0] == r && forall j :: 0 <= j < |rest| ==> rest[j] == ([r] + rest)[j + 1];
    if t != [] {
      var i := FirstStart(t, rest);
      var n := if Starts(t, r.key) then |r.key| else if i < |rest| then |rest[i].key| else 1;
      if Starts(t, r.key) {
        PeelFirst(t, r, rest);
      } else if i < |rest| {
        PeelOther(t, r, rest, i);
      } else {
        PeelNone(t, r, rest);
      }
      Peel(t[n..], r, rest);
    }
  }

  /** `k` lies over an edge of no inserted text of `t`. */
  ghost predicate Clear(t: seq<Tok>, k: string) {
    forall i :: 0 <= i < |t| && t[i].Put? ==> !Crosses(t[i].text, k)
  }

  /** An occurrence of `k` that starts in inserted text ends in it. */
  lemma EndsInside(d: string, tail: string, k: string)
    requires k != "" && !Crosses(d, k)
    ensures forall o :: 0 <= o < |d| && k <= (d + tail)[o..] ==> o + |k| <= |d|
  {
    forall o | 0 <= o < |d| && k <= (d + tail)[o..] ensures o + |k| <= |d| {
      forall p | 0 <= p < |d| && 0 <= p - o < |k| ensures d[p] == k[p - o] {
        assert (d + tail)[o..][p - o] == d[p];
      }
      assert Agrees(d, k, o);
    }
  }

  /** No occurrence of `k` starts in `x` and ends after it. */
  ghost predicate StaysIn(x: string, tail: string, k: string) {
    forall o :: 0 <= o < |x| && k <= (x + tail)[o..] ==> o + |k| <= |x|
  }

  lemma StaysInTail(x: string, tail: string, k: string, n: nat)
    requires StaysIn(x, tail, k) && n <= |x|
    ensures (x + tail)[n..] == x[n..] + tail && StaysIn(x[n..], tail, k)
    ensures x != "" ==> (k <= x + tail <==> k <= x)
  {
    assert (x + tail)[0..] == x + tail;
    forall o | 0 <= o < |x[n..]| && k <= (x[n..] + tail)[o..] ensures o + |k| <= |x[n..]| {
      assert (x[n..] + tail)[o..] == (x + tail)[n + o..];
    }
  }

  /** One step of `ReplaceAll` at a key, and at another character. */
  lemma ReplaceStep(s: string, k: string, d: string)
    requires k != ""
    ensures s == "" ==> ReplaceAll(s, k, d) == ""
    ensures k <= s ==> ReplaceAll(s, k, d) == d + ReplaceAll(s[|k|..], k, d)
    ensures s != "" && !(k <= s) ==> ReplaceAll(s, k, d) == [s[0]] + ReplaceAll(s[1..], k, d)
  {
    assert s != "" ==> s == [s[0]] + s[1..];
  }

  lemma Assoc<T>(a: seq<T>, b: seq<T>, c: seq<T>)
    ensures (a + b) + c == a + (b + c) && a + [] == a == [] + a
  {
  }

  /** Then it is replaced apart from what follows. */
  lemma {:induction false} ReplaceSplit(x: string, tail: string, k: string, d: string)
    requires k != "" && StaysIn(x, tail, k)
    ensures ReplaceAll(x + tail, k, d) == ReplaceAll(x, k, d) + ReplaceAll(tail, k, d)
    decreases |x|
  {
    hide *;
    ReplaceStep(x, k, d);
    if x == "" {
      Assoc(tail, [], []);
      Assoc(ReplaceAll(tail, k, d), [], []);
    } else {
      var n, out := if k <= x then |k| else 1, if k <= x then d else [x[0]];
      StaysInTail(x, tail, k, 0);
      StaysInTail(x, tail, k, n);
      ReplaceStep(x + tail, k, d);
      ReplaceSplit(x[n..], tail, k, d);
      Assoc(out, ReplaceAll(x[n..], k, d), ReplaceAll(tail, k, d));
      assert ReplaceAll(x + tail, k, d) == out + ReplaceAll(x[n..] + tail, k, d);
    }
  }

  lemma FrontCrosses(d: string, tail: string, before: string, k: string)
    requires before != "" && k != "" && k <= d + tail
    ensures Crosses(d, before + k)
  {
    var o := -|before|;
    forall p | 0 <= p < |d| && 0 <= p - o < |before + k| ensures d[p] == (before + k)[p - o] {
      assert (before + k)[p - o] == k[p] == (d + tail)[p];
    }
    assert Agrees(d, before + k, o);
  }

  /** An occurrence of `k` at the front of the flat line lies on original characters only. */
  lemma {:induction false} FlatStart(t: seq<Tok>, k: string, before: string)
    requires k <= Flat(t)
    requires forall i :: 0 <= i < |t| && t[i].Put? ==> !Crosses(t[i].text, before + k)
    requires t != [] && t[0].Put? ==> before != "" && k != ""
    ensures Starts(t, k)
    decreases |k|
  {
    if k != "" {
      if t[0].Put? {
        FrontCrosses(t[0].text, Flat(t[1..]), before, k);
        assert false;
      } else {
        assert (before + [k[0]]) + k[1..] == before + k;
        assert Flat(t)[1..] == Flat(t[1..]);
        if |k| > 1 {
          FlatStart(t[1..], k[1..], before + [k[0]]);
        }
        forall i | 0 <= i < |k| ensures i < |t| && t[i] == Raw(k[i]) {
          if i > 0 { assert t[i] == t[1..][i - 1] && k[i] == k[1..][i - 1]; }
        }
      }
    }
  }

  lemma {:induction false} StartFlat(t: seq<Tok>, k: string)
    requires Starts(t, k)
    ensures Flat(t) == k + Flat(t[|k|..])
    decreases |k|
  {
    if k == "" {
      assert t[0..] == t;
    } else {
      forall i | 0 <= i < |k[1..]| ensures t[1..][i] == Raw(k[1..][i]) {
        assert t[1..][i] == t[i + 1];
      }
      StartFlat(t[1..], k[1..]);
      assert t[1..][|k[1..]|..] == t[|k|..];
      assert k == [k[0]] + k[1..];
    }
  }

  /** The marked line after rules that only reach into inserted text. */
  ghost function Rewrite(t: seq<Tok>, rules: seq<Rule>): (u: seq<Tok>)
    requires Usable(rules)
    ensures |u| == |t|
    ensures forall i :: 0 <= i < |t| ==> u[i] == if t[i].Put? then Put(Sequential(t[i].text, rules)) else t[i]
  {
    seq(|t|, i requires 0 <= i < |t| => if t[i].Put? then Put(Sequential(t[i].text, rules)) else t[i])
  }

  lemma RewriteStarts(t: seq<Tok>, rules: seq<Rule>, k: string)
    requires Usable(rules)
    ensures Starts(Rewrite(t, rules), k) <==> Starts(t, k)
  {
  }

  /** One step of `ReplaceIsScan`: inserted text at the front is rewritten apart from the rest. */
  lemma PutFront(t: seq<Tok>, r: Rule)
    requires r.key != "" && Clear(t, r.key) && t != [] && t[0].Put?
    ensures ReplaceAll(Flat(t), r.key, r.text) == ReplaceAll(t[0].text, r.key, r.text) + ReplaceAll(Flat(t[1..]), r.key, r.text)
    ensures Flat(Scan(Rewrite(t, [r]), [r])) == ReplaceAll(t[0].text, r.key, r.text) + Flat(Scan(Rewrite(t[1..], [r]), [r]))
  {
    var x, u := t[0].text, Rewrite(t, [r]);
    EndsInside(x, Flat(t[1..]), r.key);
    assert StaysIn(x, Flat(t[1..]), r.key);
    ReplaceSplit(x, Flat(t[1..]), r.key, r.text);
    OneRule(x, r);
    assert u[1..] == Rewrite(t[1..], [r]);
    assert !Starts(u, r.key);
    assert Scan(u, [r]) == [u[0]] + Scan(u[1..], [r]);
  }

  lemma OneRule(x: string, r: Rule)
    requires r.key != ""
    ensures Sequential(x, [r]) == ReplaceAll(x, r.key, r.text)
  {
    assert [r][1..] == [];
  }

  /** A key at the front is replaced. */
  lemma KeyFront(t: seq<Tok>, r: Rule)
    requires r.key != "" && Clear(t, r.key) && t != [] && t[0].Raw? && r.key <= Flat(t)
    ensures Starts(t, r.key)
    ensures ReplaceAll(Flat(t), r.key, r.text) == r.text + ReplaceAll(Flat(t[|r.key|..]), r.key, r.text)
    ensures Flat(Scan(Rewrite(t, [r]), [r])) == r.text + Flat(Scan(Rewrite(t[|r.key|..], [r]), [r]))
  {
    hide Sequential, Crosses, Scan;
    var k := r.key;
    assert "" + k == k;
    FlatStart(t, k, "");
    StartFlat(t, k);
    assert Flat(t)[|k|..] == Flat(t[|k|..]);
    KeyScanned(t, r);
  }

  lemma KeyScanned(t: seq<Tok>, r: Rule)
    requires r.key != "" && Starts(t, r.key)
    ensures Flat(Scan(Rewrite(t, [r]), [r])) == r.text + Flat(Scan(Rewrite(t[|r.key|..], [r]), [r]))
  {
    hide Sequential;
    var k, u := r.key, Rewrite(t, [r]);
    RewriteStarts(t, [r], k);
    assert u[|k|..] == Rewrite(t[|k|..], [r]);
    assert Scan(u, [r]) == [Put(r.text)] + Scan(u[|k|..], [r]);
  }

  /** Any other character is copied. */
  lemma CharFront(t: seq<Tok>, r: Rule)
    requires r.key != "" && t != [] && t[0].Raw? && !(r.key <= Flat(t))
    ensures ReplaceAll(Flat(t), r.key, r.text) == [t[0].c] + ReplaceAll(Flat(t[1..]), r.key, r.text)
    ensures Flat(Scan(Rewrite(t, [r]), [r])) == [t[0].c] + Flat(Scan(Rewrite(t[1..], [r]), [r]))
  {
    var u := Rewrite(t, [r]);
    if Starts(t, r.key) { StartFlat(t, r.key); assert false; }
    RewriteStarts(t, [r], r.key);
    assert u[1..] == Rewrite(t[1..], [r]);
    assert Scan(u, [r]) == [u[0]] + Scan(u[1..], [r]);
    assert Flat(t)[1..] == Flat(t[1..]);
  }

  /** Replacing in the flat line is rewriting the inserted text and scanning the marked line. */
  lemma {:induction false} ReplaceIsScan(t: seq<Tok>, r: Rule)
    requires r.key != "" && Clear(t, r.key)
    ensures ReplaceAll(Flat(t), r.key, r.text) == Flat(Scan(Rewrite(t, [r]), [r]))
    decreases |t|
  {
    if t != [] {
      var n := if t[0].Raw? && r.key <= Flat(t) then |r.key| else 1;
      if t[0].Put? {
        PutFront(t, r);
      } else if r.key <= Flat(t) {
        KeyFront(t, r);
      } else {
        CharFront(t, r);
      }
      ReplaceIsScan(t[n..], r);
    }
  }

  /** Every mark of the scanned line is an old one or carries `r.text`. */
  lemma {:induction false} ScanMarks(t: seq<Tok>, r: Rule, i: nat)
    requires r.key != "" && i < |Scan(t, [r])| && Scan(t, [r])[i].Put?
    ensures Scan(t, [r])[i].text == r.text || Scan(t, [r])[i] in t
    decreases |t|
  {
    if i > 0 {
      var n := if Starts(t, r.key) then |r.key| else 1;
      assert Scan(t, [r])[1..] == Scan(t[n..], [r]);
      assert Scan(t, [r])[i] == Scan(t[n..], [r])[i - 1];
      ScanMarks(t[n..], r, i - 1);
    }
  }

  /** Rewriting inserted text after scanning is scanning with the rewritten text. */
  lemma {:induction false} ScanRewrites(t: seq<Tok>, r: Rule, rest: seq<Rule>)
    requires r.key != "" && Usable(rest)
    ensures Rewrite(Scan(t, [r]), rest) == Scan(Rewrite(t, rest), [r.(text := Sequential(r.text, rest))])
    decreases |t|
  {
    hide Sequential, Starts;
    if t != [] {
      var r', u := r.(text := Sequential(r.text, rest)), Rewrite(t, rest);
      RewriteStarts(t, rest, r.key);
      ScanStep(t, r);
      ScanStep(u, r');
      hide Scan;
      var n := if Starts(t, r.key) then |r.key| else 1;
      ScanRewrites(t[n..], r, rest);
      assert u[n..] == Rewrite(t[n..], rest);
      var first := if Starts(t, r.key) then Put(r.text) else t[0];
      RewriteCons(first, Scan(t[n..], [r]), rest);
    }
  }

  lemma RewriteCons(first: Tok, t: seq<Tok>, rest: seq<Rule>)
    requires Usable(rest)
    ensures Rewrite([first] + t, rest) == [if first.Put? then Put(Sequential(first.text, rest)) else first] + Rewrite(t, rest)
  {
    hide Sequential;
  }

  lemma RewriteTwice(t: seq<Tok>, r: Rule, rest: seq<Rule>)
    requires r.key != "" && Usable(rest) && Usable([r] + rest)
    ensures Rewrite(Rewrite(t, [r]), rest) == Rewrite(t, [r] + rest)
  {
    assert ([r] + rest)[1..] == rest;
    forall i | 0 <= i < |t| && t[i].Put? ensures Rewrite(Rewrite(t, [r]), rest)[i] == Rewrite(t, [r] + rest)[i] {
      OneRule(t[i].text, r);
    }
  }

  /** No rule reaches over an edge of the inserted text of a marked line. */
  ghost predicate MarksFree(t: seq<Tok>, rules: seq<Rule>)
    requires Usable(rules)
  {
    forall i :: 0 <= i < |t| && t[i].Put? ==> EdgeFree(t[i].text, rules)
  }

  lemma MarksStayFree(t: seq<Tok>, r: Rule, rest: seq<Rule>)
    requires r.key != "" && Usable(rest) && Usable([r] + rest)
    requires MarksFree(t, [r] + rest) && EdgeFree(r.text, rest)
    ensures Clear(t, r.key) && MarksFree(Scan(Rewrite(t, [r]), [r]), rest)
  {
    assert ([r] + rest)[0] == r && ([r] + rest)[1..] == rest;
    var u := Rewrite(t, [r]);
    forall i | 0 <= i < |t| && t[i].Put? ensures !Crosses(t[i].text, r.key) && EdgeFree(u[i].text, rest) {
      assert EdgeFree(t[i].text, [r] + rest);
      OneRule(t[i].text, r);
    }
    var once := Scan(u, [r]);
    forall i | 0 <= i < |once| && once[i].Put? ensures EdgeFree(once[i].text, rest) {
      ScanMarks(u, r, i);
    }
  }

  /** The tail of a tame table. */
  lemma TameTail(rules: seq<Rule>)
    requires Tame(rules) && rules != []
    ensures Tame(rules[1..]) && EdgeFree(rules[0].text, rules[1..])
  {
    hide EdgeFree, RunsInto, ReplaceAll;
    var rest := rules[1..];
    forall i, j | 0 <= i < j < |rest| ensures !RunsInto(rest[j].key, rest[i].key) && |rest[i].key| >= |rest[j].key| {
      assert rest[i] == rules[i + 1] && rest[j] == rules[j + 1];
    }
  }

  /** Other texts make no difference to the keys. */
  lemma KeysStay(rules: seq<Rule>, r': Rule, rest': seq<Rule>)
    requires Tame(rules) && rules != [] && r'.key == rules[0].key && |rest'| == |rules| - 1
    requires forall j :: 0 <= j < |rest'| ==> rest'[j].key == rules[j + 1].key
    ensures Usable([r'] + rest') && LongestFirst([r'] + rest')
    ensures forall j :: 0 <= j < |rest'| ==> !RunsInto(rest'[j].key, r'.key)
  {
    hide EdgesFree, RunsInto, ReplaceAll;
    var all := [r'] + rest';
    forall i | 0 <= i < |all| ensures all[i].key == rules[i].key {
    }
  }

  lemma {:induction false} SequentialIsScan(t: seq<Tok>, rules: seq<Rule>)
    requires Tame(rules) && MarksFree(t, rules)
    ensures Sequential(Flat(t), rules) == Flat(Scan(Rewrite(t, rules), Closed(rules)))
    decreases |rules|
  {
    if rules == [] {
      ScanNothing(Rewrite(t, []));
      assert Rewrite(t, []) == t;
    } else {
      var r, rest := rules[0], rules[1..];
      var r' := r.(text := Sequential(r.text, rest));
      assert [r] + rest == rules;
      TameTail(rules);
      KeysStay(rules, r', Closed(rest));
      MarksStayFree(t, r, rest);
      ReplaceIsScan(t, r);
      SequentialIsScan(Scan(Rewrite(t, [r]), [r]), rest);
      ScanRewrites(Rewrite(t, [r]), r, rest);
      RewriteTwice(t, r, rest);
      Peel(Rewrite(t, rules), r', Closed(rest));
    }
  }

  lemma {:induction false} ScanIsOnePass(s: string, rules: seq<Rule>)
    requires Usable(rules)
    ensures Flat(Scan(Lift(s), rules)) == OnePass(s, rules)
    decreases |s|
  {
    if s != "" {
      var t := Lift(s);
      forall j | 0 <= j < |rules| ensures Starts(t, rules[j].key) <==> rules[j].key <= s {
        if Starts(t, rules[j].key) {
          assert forall p :: 0 <= p < |rules[j].key| ==> t[p] == Raw(s[p]);
        }
      }
      var i := FirstMatch(s, rules);
      assert FirstStart(t, rules) == i;
      var n := if i < |rules| then |rules[i].key| else 1;
      assert t[n..] == Lift(s[n..]);
      assert Scan(t, rules)[1..] == Scan(t[n..], rules);
      ScanIsOnePass(s[n..], rules);
    }
  }

  lemma {:induction false} FlatLift(s: string)
    ensures Flat(Lift(s)) == s
  {
    if s != "" {
      FlatLift(s[1..]);
      assert Lift(s)[1..] == Lift(s[1..]);
      assert s == [s[0]] + s[1..];
    }
  }

  /** For a tame table, on every line: rule by rule is a single leftmost-longest pass with each text as the later rules leave it. */
  lemma SequentialIsClosedPass(line: string, rules: seq<Rule>)
    requires Tame(rules)
    ensures Sequential(line, rules) == OnePass(line, Closed(rules))
  {
    FlatLift(line);
    assert Rewrite(Lift(line), rules) == Lift(line);
    SequentialIsScan(Lift(line), rules);
    ScanIsOnePass(line, Closed(rules));
  }

  // ------------------------------------------------------- safe tables are closed

  lemma OccursClashes(d: string, k: string)
    requires k != "" && Occurs(k, d)
    ensures Clashes(d, k)
  {
    OccursSomewhere(k, d);
    var i :| 0 <= i <= |d| && k <= d[i..];
    forall p | 0 <= p < |d| && 0 <= p - i < |k| ensures d[p] == k[p - i] {
      assert d[i..][p - i] == d[p];
    }
    assert Agrees(d, k, i);
  }

  lemma ClashFree(d: string, k: string)
    requires k != "" && !Clashes(d, k)
    ensures !Crosses(d, k) && !Occurs(k, d)
  {
    hide Occurs;
    if Occurs(k, d) { OccursClashes(d, k); }
  }

  lemma {:induction false} UntouchedText(d: string, rules: seq<Rule>)
    requires Usable(rules) && forall j :: 0 <= j < |rules| ==> !Clashes(d, rules[j].key)
    ensures EdgeFree(d, rules) && Sequential(d, rules) == d
    decreases |rules|
  {
    if rules != [] {
      ClashFree(d, rules[0].key);
      ReplaceAbsent(d, rules[0].key, rules[0].text);
      UntouchedText(d, rules[1..]);
    }
  }

  lemma {:induction false} SafeEdges(rules: seq<Rule>)
    requires Safe(rules)
    ensures EdgesFree(rules) && Closed(rules) == rules
    decreases |rules|
  {
    if rules != [] {
      var rest := rules[1..];
      forall j | 0 <= j < |rest| ensures !Clashes(rules[0].text, rest[j].key) {
        assert rest[j] == rules[j + 1];
      }
      UntouchedText(rules[0].text, rest);
      forall i, j | 0 <= i < j < |rest| ensures !Clashes(rest[i].text, rest[j].key) && !RunsInto(rest[j].key, rest[i].key) {
        assert !Clashes(rules[i + 1].text, rules[j + 1].key) && !RunsInto(rules[j + 1].key, rules[i + 1].key);
      }
      SafeEdges(rest);
    }
  }

  /** For a safe table, on every line: rule by rule is the single leftmost-longest pass. */
  lemma SequentialIsOnePass(line: string, rules: seq<Rule>)
    requires Safe(rules)
    ensures Sequential(line, rules) == OnePass(line, rules)
  {
    SafeEdges(rules);
    SequentialIsClosedPass(line, rules);
  }

  // ------------------------------------------- when the others are right on a line

  /** The rules that the single pass applies to a line. */
  ghost function Applied(s: string, rules: seq<Rule>): (r: set<nat>)
    requires Usable(rules)
    ensures forall i :: i in r ==> i < |rules|
    decreases |s|
  {
    if s == "" then {}
    else
      var i := FirstMatch(s, rules);
      if i < |rules| then {i} + Applied(s[|rules[i].key|..], rules) else Applied(s[1..], rules)
  }

  /** Later rules leave every text as it is or make it longer. */
  predicate Grows(rules: seq<Rule>)
    requires Usable(rules)
  {
    forall i :: 0 <= i < |rules| ==> Closed(rules)[i].text == rules[i].text || |Closed(rules)[i].text| > |rules[i].text|
  }

  lemma {:induction false} SameMatch(s: string, a: seq<Rule>, b: seq<Rule>)
    requires |a| == |b| && forall i :: 0 <= i < |a| ==> a[i].key == b[i].key
    ensures FirstMatch(s, a) == FirstMatch(s, b)
  {
    if a != [] { SameMatch(s, a[1..], b[1..]); }
  }

  /** With longer texts the pass gives the same line, or a longer one as soon as such a text goes in. */
  lemma {:induction false} LongerTexts(s: string, a: seq<Rule>, b: seq<Rule>)
    requires Usable(a) && Usable(b) && |a| == |b| && forall i :: 0 <= i < |a| ==> a[i].key == b[i].key
    requires forall i :: 0 <= i < |a| ==> a[i].text == b[i].text || |a[i].text| < |b[i].text|
    ensures |OnePass(s, a)| <= |OnePass(s, b)|
    ensures (forall i :: i in Applied(s, a) ==> a[i].text == b[i].text) ==> OnePass(s, a) == OnePass(s, b)
    ensures (exists i :: i in Applied(s, a) && a[i].text != b[i].text) ==> |OnePass(s, a)| < |OnePass(s, b)|
    decreases |s|
  {
    if s != "" {
      SameMatch(s, a, b);
      var i := FirstMatch(s, a);
      var n := if i < |a| then |a[i].key| else 1;
      LongerTexts(s[n..], a, b);
      assert Applied(s, a) == (if i < |a| then {i} else {}) + Applied(s[n..], a);
    }
  }

  /** Later rules leave what this one puts in alone. */
  ghost predicate Settled(rules: seq<Rule>, i: nat)
    requires Usable(rules) && i < |rules|
  {
    Sequential(rules[i].text, rules[i + 1..]) == rules[i].text
  }

  /** Rule by rule is right on a line iff the single pass applies to it only rules that are settled. */
  lemma AgreesIff(line: string, rules: seq<Rule>)
    requires Tame(rules) && Grows(rules)
    ensures Sequential(line, rules) == OnePass(line, rules) <==> forall i :: i in Applied(line, rules) ==> Settled(rules, i)
  {
    assert Usable(rules);
    hide Tame, OnePass, Applied, Sequential, Settled, Closed;
    SequentialIsClosedPass(line, rules);
    LongerTexts(line, rules, Closed(rules));
    SettledTexts(rules);
  }

  lemma SettledTexts(rules: seq<Rule>)
    requires Usable(rules)
    ensures forall i :: 0 <= i < |rules| ==> (Settled(rules, i) <==> rules[i].text == Closed(rules)[i].text)
  {
    hide Sequential, Closed;
    forall i | 0 <= i < |rules| ensures Settled(rules, i) <==> rules[i].text == Closed(rules)[i].text {
      ClosedAt(rules, i);
    }
  }

  lemma {:induction false} ClosedAt(rules: seq<Rule>, i: nat)
    requires Usable(rules) && i < |rules|
    ensures Closed(rules)[i].text == Sequential(rules[i].text, rules[i + 1..])
    decreases i
  {
    if i > 0 {
      ClosedAt(rules[1..], i - 1);
      assert rules[1..][i..] == rules[i + 1..];
    }
  }

  lemma StartRuns(s: string, k: string, left: string, i: nat)
    requires 0 < i < |left| <= |k| && left <= s && k <= s[i..]
    ensures RunsInto(left, k)
  {
    forall p | 0 <= p < |left[i..]| ensures left[i..][p] == k[p] {
      assert s[i..][p] == s[i + p];
    }
    assert left[i..] <= k;
  }

  /** What starts inside a match that cannot run into `k` is found after it. */
  lemma OccursLater(s: string, k: string, left: string)
    requires 0 < |left| <= |k| && left <= s && !(k <= s) && !RunsInto(left, k)
    ensures Occurs(k, s) <==> Occurs(k, s[|left|..])
  {
    OccursSomewhere(k, s);
    OccursSomewhere(k, s[|left|..]);
    forall i | 0 < i < |left| ensures !(k <= s[i..]) {
      if k <= s[i..] { StartRuns(s, k, left, i); }
    }
    if Occurs(k, s) {
      var i :| 0 <= i <= |s| && k <= s[i..];
      assert i >= |left| by { assert s[0..] == s; }
      assert s[|left|..][i - |left|..] == s[i..];
    }
    if Occurs(k, s[|left|..]) {
      var i :| 0 <= i <= |s[|left|..]| && k <= s[|left|..][i..];
      assert s[|left|..][i..] == s[|left| + i..];
    }
  }

  /** The longest rule is applied iff its key occurs, when no key runs into it. */
  lemma {:induction false} FirstApplied(s: string, rules: seq<Rule>)
    requires Usable(rules) && LongestFirst(rules) && rules != []
    requires forall j :: 0 <= j < |rules| ==> !RunsInto(rules[j].key, rules[0].key)
    ensures 0 in Applied(s, rules) <==> Occurs(rules[0].key, s)
    decreases |s|
  {
    if s != "" && !(rules[0].key <= s) {
      var i := FirstMatch(s, rules);
      assert i != 0;
      if i < |rules| {
        OccursLater(s, rules[0].key, rules[i].key);
        FirstApplied(s[|rules[i].key|..], rules);
      } else {
        FirstApplied(s[1..], rules);
      }
    }
  }
}
