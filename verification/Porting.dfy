/**
 The whole-text side of the source-porting script: line splitting, the lines that are
 skipped, the loops of `transform_text`, the order of the rule table, and what the
 project's own path rules do.
 */
module Porting {
  import opened Rewriter

  // ------------------------------------------------------------- lines and blanks

  /** The characters at which `str.splitlines` breaks. */
  predicate IsLineBreak(c: char) {
    var n := c as int;
    0x0a <= n <= 0x0d || 0x1c <= n <= 0x1e || n == 0x85 || n == 0x2028 || n == 0x2029
  }

  /** The characters removed by `str.lstrip`. */
  predicate IsBlank(c: char) {
    var n := c as int;
    || 0x09 <= n <= 0x0d || 0x1c <= n <= 0x20 || n == 0x85 || n == 0xa0 || n == 0x1680
    || 0x2000 <= n <= 0x200a || n == 0x2028 || n == 0x2029 || n == 0x202f || n == 0x205f || n == 0x3000
  }

  /** Length of the first line, its line end included; "\r\n" is one line end. */
  function FirstLine(text: string): (n: nat)
    requires text != ""
    ensures 0 < n <= |text|
    ensures n < |text| ==> IsLineBreak(text[n - 1])
  {
    if text[0] == '\r' && |text| > 1 && text[1] == '\n' then 2
    else if IsLineBreak(text[0]) || |text| == 1 then 1
    else 1 + FirstLine(text[1..])
  }

  /** `text.splitlines(True)` */
  function SplitLines(text: string): seq<string>
    decreases |text|
  {
    if text == "" then [] else [text[..FirstLine(text)]] + SplitLines(text[FirstLine(text)..])
  }

  function Concat(lines: seq<string>): string {
    if lines == [] then "" else lines[0] + Concat(lines[1..])
  }

  lemma {:induction false} ConcatAppend(a: seq<string>, b: seq<string>)
    ensures Concat(a + b) == Concat(a) + Concat(b)
  {
    if a == [] {
      assert a + b == b;
    } else {
      ConcatAppend(a[1..], b);
      assert (a + b)[1..] == a[1..] + b;
      Assoc(a[0], Concat(a[1..]), Concat(b));
    }
  }

  /** Splitting loses nothing. */
  lemma {:induction false} ConcatSplitLines(text: string)
    ensures Concat(SplitLines(text)) == text
    decreases |text|
  {
    if text != "" {
      ConcatSplitLines(text[FirstLine(text)..]);
    }
  }

  /** `a` ends at a line end of `a + b`. */
  predicate EndsLine(a: string, b: string) {
    a == "" || (IsLineBreak(a[|a| - 1]) && !(a[|a| - 1] == '\r' && b != "" && b[0] == '\n'))
  }

  lemma {:induction false} FirstLineAppend(a: string, b: string)
    requires a != "" && EndsLine(a, b)
    ensures FirstLine(a + b) == FirstLine(a)
  {
    assert forall i :: 0 <= i < |a| ==> (a + b)[i] == a[i];
    if |a| == 1 {
    } else if a[0] == '\r' && a[1] == '\n' {
    } else if !IsLineBreak(a[0]) {
      assert (a + b)[1..] == a[1..] + b;
      FirstLineAppend(a[1..], b);
    }
  }

  lemma {:induction false} SplitLinesAppend(a: string, b: string)
    requires EndsLine(a, b)
    ensures SplitLines(a + b) == SplitLines(a) + SplitLines(b)
    decreases |a|
  {
    if a == "" {
      assert a + b == b;
    } else {
      var n := FirstLine(a);
      FirstLineAppend(a, b);
      assert (a + b)[..n] == a[..n];
      assert (a + b)[n..] == a[n..] + b;
      SplitLinesAppend(a[n..], b);
    }
  }

  function LStrip(s: string): string {
    if s != "" && IsBlank(s[0]) then LStrip(s[1..]) else s
  }

  predicate ShouldSkipMapping(line: string) {
    var stripped := LStrip(line);
    "//" <= stripped || "/*" <= stripped || "*" <= stripped
  }

  /** Stripping takes off blanks only, and all of them that are in front. */
  lemma {:induction false} LStripIs(blanks: string, code: string)
    requires (forall i :: 0 <= i < |blanks| ==> IsBlank(blanks[i])) && (code == "" || !IsBlank(code[0]))
    ensures LStrip(blanks + code) == code
  {
    if blanks == "" {
      assert blanks + code == code;
    } else {
      LStripIs(blanks[1..], code);
      assert (blanks + code)[1..] == blanks[1..] + code;
    }
  }

  /** Blanks, and then one of the three marks. */
  ghost predicate IsComment(line: string) {
    exists b :: 0 <= b <= |line| && (forall i :: 0 <= i < b ==> IsBlank(line[i])) && ("//" <= line[b..] || "/*" <= line[b..] || "*" <= line[b..])
  }

  lemma {:induction false} LStripAt(line: string) returns (b: nat)
    ensures b <= |line| && (forall i :: 0 <= i < b ==> IsBlank(line[i])) && LStrip(line) == line[b..]
  {
    b := 0;
    if line != "" && IsBlank(line[0]) {
      var c := LStripAt(line[1..]);
      b := c + 1;
      assert line[1..][c..] == line[b..];
      assert forall i :: 0 < i < b ==> line[i] == line[1..][i - 1];
    }
  }

  /** The lines that are skipped. */
  lemma SkipMeans(line: string)
    ensures ShouldSkipMapping(line) <==> IsComment(line)
  {
    var b := LStripAt(line);
    if b' :| 0 <= b' <= |line| && (forall i :: 0 <= i < b' ==> IsBlank(line[i])) && ("//" <= line[b'..] || "/*" <= line[b'..] || "*" <= line[b'..]) {
      assert line == line[..b'] + line[b'..];
      LStripIs(line[..b'], line[b'..]);
    }
  }

  // ------------------------------------------------------------------ the transform

  function TransformLine(line: string, rules: seq<Rule>): string
    requires Usable(rules)
  {
    if ShouldSkipMapping(line) || Occurs("cub/", line) then line else Sequential(line, rules)
  }

  function TransformLines(lines: seq<string>, rules: seq<Rule>): seq<string>
    requires Usable(rules)
  {
    seq(|lines|, i requires 0 <= i < |lines| => TransformLine(lines[i], rules))
  }

  function Transform(text: string, rules: seq<Rule>): string
    requires Usable(rules)
  {
    Concat(TransformLines(SplitLines(text), rules))
  }

  lemma TransformIs(text: string, rules: seq<Rule>)
    requires Usable(rules)
    ensures var lines := SplitLines(text);
            Transform(text, rules) == Concat(seq(|lines|, i requires 0 <= i < |lines| =>
                     if IsComment(lines[i]) || Occurs("cub/", lines[i]) then lines[i] else Sequential(lines[i], rules)))
  {
    var lines := SplitLines(text);
    forall i | 0 <= i < |lines| ensures ShouldSkipMapping(lines[i]) <==> IsComment(lines[i]) {
      SkipMeans(lines[i]);
    }
    assert TransformLines(lines, rules) == seq(|lines|, i requires 0 <= i < |lines| =>
                     if IsComment(lines[i]) || Occurs("cub/", lines[i]) then lines[i] else Sequential(lines[i], rules));
  }

  /** `transform_text`, loop for loop. */
  method TransformText(text: string, rules: seq<Rule>) returns (out: string)
    requires Usable(rules)
    ensures out == Transform(text, rules)
    ensures var lines := SplitLines(text);
            out == Concat(seq(|lines|, i requires 0 <= i < |lines| =>
                     if IsComment(lines[i]) || Occurs("cub/", lines[i]) then lines[i] else Sequential(lines[i], rules)))
  {
    TransformIs(text, rules);
    var lines := SplitLines(text);
    var outLines: seq<string> := [];
    for n := 0 to |lines|
      invariant outLines == TransformLines(lines, rules)[..n]
    {
      var line := lines[n];
      if ShouldSkipMapping(line) {
        outLines := outLines + [line];
      } else {
        if !Occurs("cub/", line) {
          for i := 0 to |rules|
            invariant Sequential(line, rules[i..]) == Sequential(lines[n], rules)
          {
            assert rules[i..][0] == rules[i] && rules[i..][1..] == rules[i + 1..];
            if Occurs(rules[i].key, line) {
              line := ReplaceAll(line, rules[i].key, rules[i].text);
            } else {
              ReplaceAbsent(line, rules[i].key, rules[i].text);
            }
          }
        }
        outLines := outLines + [line];
      }
      assert TransformLines(lines, rules)[..n + 1] == TransformLines(lines, rules)[..n] + [TransformLine(lines[n], rules)];
    }
    assert outLines == TransformLines(lines, rules);
    out := Concat(outLines);
  }

  /** The transform works line by line: it distributes over concatenation at a line end. */
  lemma TransformAppend(a: string, b: string, rules: seq<Rule>)
    requires Usable(rules) && EndsLine(a, b)
    ensures Transform(a + b, rules) == Transform(a, rules) + Transform(b, rules)
  {
    SplitLinesAppend(a, b);
    var la, lb := SplitLines(a), SplitLines(b);
    assert TransformLines(la + lb, rules) == TransformLines(la, rules) + TransformLines(lb, rules);
    ConcatAppend(TransformLines(la, rules), TransformLines(lb, rules));
  }

  /** A text made only of comment lines, `cub/` lines and lines without any key comes out as it went in. */
  lemma TransformUntouched(text: string, rules: seq<Rule>)
    requires Usable(rules)
    requires forall line <- SplitLines(text) ::
               IsComment(line) || Occurs("cub/", line)
               || forall i :: 0 <= i < |rules| ==> !Occurs(rules[i].key, line)
    ensures Transform(text, rules) == text
  {
    var lines := SplitLines(text);
    forall n | 0 <= n < |lines| ensures TransformLine(lines[n], rules) == lines[n] {
      assert lines[n] in lines;
      SkipMeans(lines[n]);
      if !ShouldSkipMapping(lines[n]) && !Occurs("cub/", lines[n]) {
        SequentialAbsent(lines[n], rules);
      }
    }
    assert TransformLines(lines, rules) == lines;
    ConcatSplitLines(text);
  }

  lemma {:induction false} SequentialAbsent(line: string, rules: seq<Rule>)
    requires Usable(rules) && forall i :: 0 <= i < |rules| ==> !Occurs(rules[i].key, line)
    ensures Sequential(line, rules) == line
    decreases |rules|
  {
    if rules != [] {
      ReplaceAbsent(line, rules[0].key, rules[0].text);
      forall i | 0 <= i < |rules[1..]| ensures !Occurs(rules[1..][i].key, line) {
        assert rules[1..][i] == rules[i + 1];
      }
      SequentialAbsent(line, rules[1..]);
    }
  }

  // ------------------------------------------- what lines are, and which are left alone

  /** The ten characters that end a line, by their code points. */
  lemma LineBreakChars(c: char)
    ensures IsLineBreak(c) <==> c as int in {10, 11, 12, 13, 28, 29, 30, 133, 8232, 8233}
  {
  }

  /** The characters that count as blank, by their code points. */
  lemma BlankChars(c: char)
    ensures IsBlank(c) <==>
            || c as int in {9, 10, 11, 12, 13, 28, 29, 30, 31, 32, 133, 160, 5760, 8232, 8233, 8239, 8287, 12288}
            || 8192 <= c as int <= 8202
  {
  }

  /** A line: a line break is in it only as its end, "\r\n" counting as one end. */
  predicate OneLine(line: string) {
    && line != ""
    && (forall i :: 0 <= i < |line| - 1 && IsLineBreak(line[i]) ==> i == |line| - 2 && line[i] == '\r' && line[i + 1] == '\n')
  }

  /** The lines of a text: all but the last end at a line break, and no "\r\n" is cut in two. */
  predicate AreLines(lines: seq<string>) {
    && (forall i :: 0 <= i < |lines| ==> OneLine(lines[i]))
    && (forall i :: 0 <= i < |lines| - 1 ==> Ends(lines[i], lines[i + 1]))
  }

  predicate Ends(line: string, next: string) {
    && line != "" && next != "" && IsLineBreak(line[|line| - 1])
    && !(line[|line| - 1] == '\r' && next[0] == '\n')
  }

  lemma {:induction false} FirstLineIsLine(text: string)
    requires text != ""
    ensures var n := FirstLine(text); OneLine(text[..n]) && (n < |text| ==> Ends(text[..n], text[n..]))
    decreases |text|
  {
    var n := FirstLine(text);
    if text[0] == '\r' && |text| > 1 && text[1] == '\n' {
    } else if IsLineBreak(text[0]) || |text| == 1 {
    } else {
      FirstLineIsLine(text[1..]);
      assert text[..n] == [text[0]] + text[1..][..n - 1];
      assert text[1..][n - 1..] == text[n..];
    }
  }

  lemma {:induction false} OneLineFirst(line: string)
    requires OneLine(line)
    ensures FirstLine(line) == |line|
    decreases |line|
  {
    if |line| > 1 && !(line[0] == '\r' && line[1] == '\n') {
      assert !IsLineBreak(line[0]);
      assert forall i :: 0 <= i < |line[1..]| ==> line[1..][i] == line[i + 1];
      OneLineFirst(line[1..]);
    }
  }

  /** Splitting gives the lines of the text ... */
  lemma {:induction false} SplitGivesLines(text: string)
    ensures AreLines(SplitLines(text)) && Concat(SplitLines(text)) == text
    decreases |text|
  {
    ConcatSplitLines(text);
    if text != "" {
      var n := FirstLine(text);
      FirstLineIsLine(text);
      SplitGivesLines(text[n..]);
      if n < |text| {
        assert SplitLines(text[n..])[0] == text[n..][..FirstLine(text[n..])];
      }
    }
  }

  /** ... and there is no other way to cut it into lines. */
  lemma {:induction false} LinesUnique(lines: seq<string>)
    requires AreLines(lines)
    ensures SplitLines(Concat(lines)) == lines
    decreases |lines|
  {
    if lines != [] {
      var rest := lines[1..];
      assert AreLines(rest) by {
        assert forall i :: 0 <= i < |rest| ==> rest[i] == lines[i + 1];
      }
      LinesUnique(rest);
      var a, b := lines[0], Concat(rest);
      OneLineFirst(a);
      if rest == [] {
        assert a + b == a && a[..|a|] == a;
      } else {
        assert Ends(lines[0], lines[1]) && b[0] == lines[1][0];
        FirstLineAppend(a, b);
        assert (a + b)[..|a|] == a && (a + b)[|a|..] == b;
      }
    }
  }

  /** A comment line comes out as it went in, for every table. */
  lemma CommentUnchanged(blanks: string, mark: string, rest: string, rules: seq<Rule>)
    requires Usable(rules) && OneLine(blanks + mark + rest)
    requires forall i :: 0 <= i < |blanks| ==> IsBlank(blanks[i])
    requires mark == "//" || mark == "/*" || mark == "*"
    ensures Transform(blanks + mark + rest, rules) == blanks + mark + rest
  {
    var line := blanks + mark + rest;
    assert line == blanks + (mark + rest);
    LStripIs(blanks, mark + rest);
    OneLineAlone(line, rules);
  }

  /** So does a line with the path `cub/` in it. */
  lemma CubUnchanged(before: string, after: string, rules: seq<Rule>)
    requires Usable(rules) && OneLine(before + "cub/" + after)
    ensures Transform(before + "cub/" + after, rules) == before + "cub/" + after
  {
    var line := before + "cub/" + after;
    assert "cub/" <= line[|before|..];
    OccursSomewhere("cub/", line);
    OneLineAlone(line, rules);
  }

  /** Any other line is rewritten, rule after rule. */
  lemma CodeRewritten(blanks: string, code: string, rules: seq<Rule>)
    requires Usable(rules) && OneLine(blanks + code)
    requires forall i :: 0 <= i < |blanks| ==> IsBlank(blanks[i])
    requires code == "" || !IsBlank(code[0])
    requires !("//" <= code) && !("/*" <= code) && !("*" <= code)
    requires forall i :: 0 <= i <= |blanks + code| ==> !("cub/" <= (blanks + code)[i..])
    ensures Transform(blanks + code, rules) == Sequential(blanks + code, rules)
  {
    LStripIs(blanks, code);
    OccursSomewhere("cub/", blanks + code);
    OneLineAlone(blanks + code, rules);
  }

  lemma OneLineAlone(line: string, rules: seq<Rule>)
    requires Usable(rules) && OneLine(line)
    ensures Transform(line, rules) == TransformLine(line, rules)
  {
    assert Concat([line]) == line + Concat([]) == line;
    LinesUnique([line]);
    var out := TransformLine(line, rules);
    assert TransformLines([line], rules) == [out];
    assert Concat([out]) == out + Concat([]) == out;
  }

  /** A text comes out line by line, each line as it would alone. */
  lemma LineByLine(lines: seq<string>, rules: seq<Rule>)
    requires Usable(rules) && AreLines(lines)
    ensures Transform(Concat(lines), rules) == Concat(seq(|lines|, i requires 0 <= i < |lines| => Transform(lines[i], rules)))
  {
    LinesUnique(lines);
    var alone := seq(|lines|, i requires 0 <= i < |lines| => Transform(lines[i], rules));
    forall i | 0 <= i < |lines| ensures alone[i] == TransformLine(lines[i], rules) {
      OneLineAlone(lines[i], rules);
    }
    assert alone == TransformLines(lines, rules);
  }

  /** What the script is for: with a safe table every mapped line of the text is rewritten in one pass. */
  ghost function OnePassText(text: string, rules: seq<Rule>): string
    requires Usable(rules)
  {
    var lines := SplitLines(text);
    Concat(seq(|lines|, i requires 0 <= i < |lines| =>
             if IsComment(lines[i]) || Occurs("cub/", lines[i]) then lines[i] else OnePass(lines[i], rules)))
  }

  lemma SafeTransform(text: string, rules: seq<Rule>)
    requires Safe(rules)
    ensures Transform(text, rules) == OnePassText(text, rules)
  {
    var lines := SplitLines(text);
    forall n | 0 <= n < |lines| ensures Sequential(lines[n], rules) == OnePass(lines[n], rules) {
      SequentialIsOnePass(lines[n], rules);
    }
    TransformIs(text, rules);
    assert seq(|lines|, i requires 0 <= i < |lines| =>
             if IsComment(lines[i]) || Occurs("cub/", lines[i]) then lines[i] else Sequential(lines[i], rules))
        == seq(|lines|, i requires 0 <= i < |lines| =>
             if IsComment(lines[i]) || Occurs("cub/", lines[i]) then lines[i] else OnePass(lines[i], rules));
  }

  // ------------------------------------------------------------------- the rule table

  const KEY_SUBSTRINGS: seq<string> := [
    "cuda", "CUDA", "cublas", "CUBLAS", "cusolver", "CUSOLVER",
    "curand", "CURAND", "cudnn", "CUDNN", "driver_types", "vector_types",
    "library_types", "__nv", "NV", "CU", "cvcuda/cuda_tools", "cuda_tools/"]

  /** The filter that a mapping key has to pass. */
  predicate Kept(key: string) {
    || (exists i :: 0 <= i < |KEY_SUBSTRINGS| && Occurs(KEY_SUBSTRINGS[i], key))
    || "#include" <= key || "." <= key || ", " <= key
  }

  /** The filter keeps the empty key out, so every table built by the script can be applied. */
  lemma KeptTableIsUsable(rules: seq<Rule>)
    requires forall i :: 0 <= i < |rules| ==> Kept(rules[i].key)
    ensures Usable(rules)
  {
    forall i | 0 <= i < |rules| ensures rules[i].key != "" {
      assert Kept(rules[i].key);
      assert forall k | k in KEY_SUBSTRINGS :: k != "";
    }
  }

  /** A stable insertion by decreasing key length, after all keys that are not shorter. */
  function InsertByLength(rules: seq<Rule>, r: Rule): seq<Rule> {
    if rules == [] || |rules[0].key| < |r.key| then [r] + rules
    else [rules[0]] + InsertByLength(rules[1..], r)
  }

  /** `sorted(rules, key=len, reverse=True)` */
  function SortByLength(rules: seq<Rule>): seq<Rule> {
    if rules == [] then [] else InsertByLength(SortByLength(rules[..|rules| - 1]), rules[|rules| - 1])
  }

  lemma {:induction false} InsertMultiset(rules: seq<Rule>, r: Rule)
    ensures multiset(InsertByLength(rules, r)) == multiset(rules) + multiset{r}
  {
    if rules == [] || |rules[0].key| < |r.key| {
    } else {
      InsertMultiset(rules[1..], r);
      assert rules == [rules[0]] + rules[1..];
    }
  }

  lemma {:induction false} InsertSorted(rules: seq<Rule>, r: Rule, bound: nat)
    requires LongestFirst(rules)
    requires |r.key| <= bound && forall i :: 0 <= i < |rules| ==> |rules[i].key| <= bound
    ensures LongestFirst(InsertByLength(rules, r))
    ensures forall i :: 0 <= i < |InsertByLength(rules, r)| ==> |InsertByLength(rules, r)[i].key| <= bound
  {
    if rules == [] || |rules[0].key| < |r.key| {
    } else {
      InsertSorted(rules[1..], r, |rules[0].key|);
    }
  }

  function LongestKey(rules: seq<Rule>): (n: nat)
    ensures forall i :: 0 <= i < |rules| ==> |rules[i].key| <= n
  {
    if rules == [] then 0
    else
      var n := LongestKey(rules[1..]);
      if |rules[0].key| > n then |rules[0].key| else n
  }

  lemma InsertIntoSorted(rules: seq<Rule>, r: Rule)
    requires LongestFirst(rules)
    ensures LongestFirst(InsertByLength(rules, r))
  {
    var n := LongestKey(rules);
    InsertSorted(rules, r, if n < |r.key| then |r.key| else n);
  }

  /** The rules whose key has `n` characters, in their order. */
  ghost function OfLength(rules: seq<Rule>, n: nat): seq<Rule> {
    if rules == [] then []
    else (if |rules[0].key| == n then [rules[0]] else []) + OfLength(rules[1..], n)
  }

  lemma {:induction false} NoneOfLength(rules: seq<Rule>, n: nat)
    requires forall i :: 0 <= i < |rules| ==> |rules[i].key| != n
    ensures OfLength(rules, n) == []
  {
    if rules != [] {
      NoneOfLength(rules[1..], n);
    }
  }

  lemma {:induction false} OfLengthAppend(rules: seq<Rule>, r: Rule, n: nat)
    ensures OfLength(rules + [r], n) == OfLength(rules, n) + OfLength([r], n)
  {
    if rules == [] {
      assert [] + [r] == [r];
    } else {
      OfLengthAppend(rules[1..], r, n);
      assert (rules + [r])[1..] == rules[1..] + [r];
    }
  }

  lemma {:induction false} InsertStable(rules: seq<Rule>, r: Rule, n: nat)
    requires LongestFirst(rules)
    ensures OfLength(InsertByLength(rules, r), n) == OfLength(rules, n) + OfLength([r], n)
  {
    if rules == [] {
    } else if |rules[0].key| < |r.key| {
      assert ([r] + rules)[1..] == rules;
      if |r.key| == n {
        NoneOfLength(rules, n);
      }
    } else {
      InsertStable(rules[1..], r, n);
      assert ([rules[0]] + InsertByLength(rules[1..], r))[1..] == InsertByLength(rules[1..], r);
    }
  }

  /** The sorted table holds the same rules, longest key first; among keys of one length the order stays. */
  lemma {:induction false} SortedTable(rules: seq<Rule>)
    ensures LongestFirst(SortByLength(rules))
    ensures multiset(SortByLength(rules)) == multiset(rules)
    ensures forall n: nat :: OfLength(SortByLength(rules), n) == OfLength(rules, n)
  {
    if rules != [] {
      var init, last := rules[..|rules| - 1], rules[|rules| - 1];
      hide InsertByLength, LongestFirst, OfLength;
      SortedTable(init);
      InsertMultiset(SortByLength(init), last);
      InsertIntoSorted(SortByLength(init), last);
      assert rules == init + [last];
      forall n: nat ensures OfLength(SortByLength(rules), n) == OfLength(rules, n) {
        InsertStable(SortByLength(init), last, n);
        OfLengthAppend(init, last, n);
      }
    }
  }

  // --------------------------------------------------- the project's own path rules

  const FOLDER_SLASH := Rule("cvcuda/cuda_tools/", "cvcuda/cuda_tools_musa/")
  const FOLDER := Rule("cvcuda/cuda_tools", "cvcuda/cuda_tools_musa")
  const TOOLS_SLASH := Rule("cuda_tools/", "cuda_tools_musa/")

  lemma FolderOnce()
    ensures ReplaceAll(FOLDER_SLASH.text, FOLDER.key, FOLDER.text) == "cvcuda/cuda_tools_musa_musa/"
  {
    var k, d := FOLDER.key, FOLDER_SLASH.text;
    assert k <= d && d[|k|..] == "_musa/";
    assert ReplaceAll("_musa/", k, FOLDER.text) == "_musa/";
    assert FOLDER.text + "_musa/" == "cvcuda/cuda_tools_musa_musa/";
  }

  /** The shown table interferes with itself: the folder rule fires again on the text the longer rule put in. */
  lemma FolderRulesInterfere()
    ensures OnePass(FOLDER_SLASH.key, [FOLDER_SLASH, FOLDER]) == "cvcuda/cuda_tools_musa/"
    ensures Sequential(FOLDER_SLASH.key, [FOLDER_SLASH, FOLDER]) == "cvcuda/cuda_tools_musa_musa/"
    ensures !Safe([FOLDER_SLASH, FOLDER])
  {
    hide ReplaceAll;
    var rules, line := [FOLDER_SLASH, FOLDER], FOLDER_SLASH.key;
    FolderOnce();
    KeyAlone(FOLDER_SLASH);
    assert rules[1..] == [FOLDER];
    OneRule(FOLDER_SLASH.text, FOLDER);
    assert FirstMatch(line, rules) == 0 && line[|line|..] == "";
    assert OnePass(line, rules) == FOLDER_SLASH.text + OnePass("", rules);
    assert |FOLDER_SLASH.text| != |"cvcuda/cuda_tools_musa_musa/"|;
    if Safe(rules) {
      SequentialIsOnePass(line, rules);
      assert false;
    }
  }

  lemma KeyAlone(r: Rule)
    requires r.key != ""
    ensures ReplaceAll(r.key, r.key, r.text) == r.text
  {
    assert r.key[|r.key|..] == "";
  }

  /** Where the three keys and the two new texts have a 'c'; what follows it is 'v' only at the front. */
  predicate CAt(s: string) {
    && |s| > 2 && s[0] == 'c'
    && (forall i :: 0 < i < |s| && s[i] == 'c' ==> i + 1 < |s| && s[i + 1] == 'u')
  }

  lemma CAtAppend(s: string, tail: string)
    requires CAt(s) && forall i :: 0 <= i < |tail| ==> tail[i] != 'c'
    ensures CAt(s + tail)
  {
  }

  lemma ShortKeys()
    ensures CAt(FOLDER.key) && CAt(TOOLS_SLASH.key)
  {
  }

  lemma KeysAndTexts()
    ensures CAt(FOLDER_SLASH.key) && CAt(FOLDER.key) && CAt(TOOLS_SLASH.key) && CAt(FOLDER_SLASH.text)
  {
    ShortKeys();
    hide CAt;
    CAtAppend(FOLDER.key, "/");
    assert FOLDER.key + "/" == FOLDER_SLASH.key;
    CAtAppend(FOLDER.key, "_musa/");
    assert FOLDER.key + "_musa/" == FOLDER_SLASH.text;
  }

  /** No key of the path rules starts with the end of a shorter one or of itself. */
  lemma NoRunIn(left: string, right: string)
    requires CAt(left) && |right| > 1 && right[0] == 'c' && right[1] == 'v'
    ensures !RunsInto(left, right)
  {
    forall o | 0 < o < |left| ensures !(left[o..] <= right) {
      assert left[o..][0] == left[o] && (o + 1 < |left| ==> left[o..][1] == left[o + 1]);
    }
  }

  /** A key that starts with "cv" is in such a text only at its front, and over no edge of it when it fits. */
  lemma FolderEdges(d: string, k: string)
    requires CAt(d) && CAt(k) && |k| <= |d| && d[1] == k[1] == 'v'
    ensures !Crosses(d, k)
  {
    forall o | -|k| < o < |d| && (o < 0 || o + |k| > |d|) ensures !Agrees(d, k, o) {
      if o < 0 {
        assert d[0] == k[0 - o] ==> d[1] != k[1 - o];
      } else {
        assert d[o] == k[0] ==> d[o + 1] != k[o + 1 - o];
      }
    }
  }

  /** The third rule's key is nowhere in what the first two put in, not even over an edge. */
  lemma ToolsEdges(d: string)
    requires "cvcuda/cuda_tools_" <= d && forall o :: 7 < o < |d| ==> d[o] != 'c'
    ensures !Clashes(d, TOOLS_SLASH.key)
  {
    var k := TOOLS_SLASH.key;
    assert forall p :: 0 < p < |k| ==> k[p] != 'c';
    forall o | -|k| < o < |d| ensures !Agrees(d, k, o) {
      if o < 0 {
        assert d[0] != k[0 - o];
      } else if o == 0 {
        assert d[1] != k[1 - o];
      } else if o == 2 {
        assert d[6] != k[6 - o];
      } else if o == 7 {
        assert d[17] != k[17 - o];
      } else {
        assert d[o] != k[o - o];
      }
    }
  }

  /** The folder rules with and without the third. */
  predicate FolderTable(rules: seq<Rule>) {
    rules == [FOLDER_SLASH, FOLDER] || rules == [FOLDER_SLASH, FOLDER, TOOLS_SLASH]
  }

  lemma FolderTexts()
    ensures EdgeFree(TOOLS_SLASH.text, []) && EdgeFree(FOLDER.text, []) && EdgeFree(FOLDER.text, [TOOLS_SLASH]) && Sequential(FOLDER.text, [TOOLS_SLASH]) == FOLDER.text
    ensures EdgeFree(FOLDER_SLASH.text, [FOLDER]) && EdgeFree(FOLDER_SLASH.text, [FOLDER, TOOLS_SLASH])
    ensures Sequential(FOLDER_SLASH.text, [FOLDER]) == "cvcuda/cuda_tools_musa_musa/"
    ensures Sequential(FOLDER_SLASH.text, [FOLDER, TOOLS_SLASH]) == "cvcuda/cuda_tools_musa_musa/"
  {
    hide ReplaceAll, Crosses, Clashes;
    FolderOnce();
    KeysAndTexts();
    FolderEdges(FOLDER_SLASH.text, FOLDER.key);
    ToolsEdges(FOLDER.text);
    ToolsEdges("cvcuda/cuda_tools_musa_musa/");
    UntouchedText(FOLDER.text, [TOOLS_SLASH]);
    UntouchedText("cvcuda/cuda_tools_musa_musa/", [TOOLS_SLASH]);
    assert [FOLDER][1..] == [] && [FOLDER, TOOLS_SLASH][1..] == [TOOLS_SLASH];
  }

  lemma FolderTails(rules: seq<Rule>)
    requires FolderTable(rules)
    ensures rules[0] == FOLDER_SLASH && rules[1] == FOLDER && (|rules| == 3 ==> rules[2] == TOOLS_SLASH && rules[3..] == [])
    ensures rules[1..] == if |rules| == 2 then [FOLDER] else [FOLDER, TOOLS_SLASH]
    ensures rules[2..] == rules[1..][1..] == if |rules| == 2 then [] else [TOOLS_SLASH]
    ensures |rules| == 3 ==> rules[1..][1..][1..] == []
  {
  }

  lemma FolderTableTame(rules: seq<Rule>)
    requires FolderTable(rules)
    ensures Tame(rules)
    ensures forall i :: 0 <= i < |rules| ==> !RunsInto(rules[i].key, rules[0].key)
  {
    hide ReplaceAll, Crosses, RunsInto, EdgeFree, Sequential;
    FolderTexts();
    FolderTails(rules);
    KeysAndTexts();
    forall i, j | 0 <= i < |rules| && 0 <= j < 2 ensures !RunsInto(rules[i].key, rules[j].key) {
      NoRunIn(rules[i].key, rules[j].key);
    }
    hide FolderTable;
    assert EdgesFree(rules[1..][1..]) && EdgesFree(rules[1..]);
  }

  /** Only the first text is changed by later rules, to a longer one. */
  lemma FolderTableGrows(rules: seq<Rule>)
    requires FolderTable(rules) && Usable(rules)
    ensures Grows(rules)
    ensures forall i :: 0 <= i < |rules| ==> (Settled(rules, i) <==> i != 0)
  {
    hide ReplaceAll, EdgeFree, FolderTable;
    FolderTexts();
    FolderTails(rules);
    assert |"cvcuda/cuda_tools_musa_musa/"| > |FOLDER_SLASH.text|;
    forall i | 0 <= i < |rules| ensures Closed(rules)[i].text == Sequential(rules[i].text, rules[i + 1..]) {
      ClosedAt(rules, i);
    }
  }

  /** With the shown rules, and with the third beside them, a line is rewritten as intended iff the longest key is not in it. */
  lemma FolderRulesRightIff(line: string, rules: seq<Rule>)
    requires FolderTable(rules)
    ensures Usable(rules) && (Sequential(line, rules) == OnePass(line, rules) <==> !Occurs(FOLDER_SLASH.key, line))
  {
    FolderTableTame(rules);
    FolderTableGrows(rules);
    AgreesIff(line, rules);
    FirstApplied(line, rules);
    assert rules[0] == FOLDER_SLASH;
    hide Tame, Grows, Sequential, OnePass, Applied, Occurs, RunsInto, Settled;
  }

  /** The table's order puts the longer of the two first. */
  lemma FolderRulesOrder()
    ensures SortByLength([FOLDER, FOLDER_SLASH]) == [FOLDER_SLASH, FOLDER] == SortByLength([FOLDER_SLASH, FOLDER])
  {
    assert [FOLDER, FOLDER_SLASH][..1] == [FOLDER] && [FOLDER][..0] == [];
    assert [FOLDER_SLASH, FOLDER][..1] == [FOLDER_SLASH] && [FOLDER_SLASH][..0] == [];
    assert SortByLength([FOLDER_SLASH]) == [FOLDER_SLASH] && SortByLength([FOLDER]) == [FOLDER];
    assert [FOLDER_SLASH][1..] == [];
    assert InsertByLength([FOLDER_SLASH], FOLDER) == [FOLDER_SLASH] + InsertByLength([], FOLDER);
  }

  /** Without the folder rule that has no slash, the path rules are safe on every line. */
  lemma SlashRulesAreSafe()
    ensures Safe([FOLDER_SLASH, TOOLS_SLASH])
  {
    var rules := [FOLDER_SLASH, TOOLS_SLASH];
    var d, k := FOLDER_SLASH.text, TOOLS_SLASH.key;
    forall o | -|k| < o < |d| ensures !Agrees(d, k, o) {
      if o < 0 {
        assert d[0] != k[0 - o];
      } else if o == 0 {
        assert d[1] != k[1 - o];
      } else if o == 2 {
        assert d[6] != k[6 - o];
      } else if o == 7 {
        assert d[17] != k[17 - o];
      } else {
        assert d[o] != k[o - o];
      }
    }
    assert !Clashes(rules[0].text, rules[1].key);
    forall o | 0 < o < |k| ensures !(k[o..] <= FOLDER_SLASH.key) {
      assert k[o..][0] != FOLDER_SLASH.key[0];
    }
    assert !RunsInto(rules[1].key, rules[0].key);
  }
}
