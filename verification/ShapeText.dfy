/** `GetShape`: reading an N-tuple from delimiter-separated text through `find`, `stoi` and `erase`. */
module ShapeText {
  import opened Text

  datatype Error = InvalidArgument | OutOfRange

  const INT_MAX := 0x7fff_ffff
  const INT_MIN := -0x8000_0000

  // ------------------------------------------------------------------------ std::stoi

  predicate IsSpace(c: char) {
    c == ' ' || 9 <= c as int <= 13
  }

  function SkipSpace(s: string): string {
    if s != "" && IsSpace(s[0]) then SkipSpace(s[1..]) else s
  }

  function LeadingDigits(s: string): (d: string)
    ensures AllDigits(d) && d <= s
    ensures |d| < |s| ==> !IsDigit(s[|d|])
  {
    if s != "" && IsDigit(s[0]) then [s[0]] + LeadingDigits(s[1..]) else ""
  }

  function Stoi(s: string): Result<int, Error> {
    var t := SkipSpace(s);
    var negative := t != "" && t[0] == '-';
    var d := LeadingDigits(if t != "" && (t[0] == '-' || t[0] == '+') then t[1..] else t);
    if d == "" then Err(InvalidArgument)
    else
      var n: int := if negative then 0 - NumberOf(d) else NumberOf(d);
      if INT_MIN <= n <= INT_MAX then Ok(n) else Err(OutOfRange)
  }

  lemma {:induction false} LeadingDigitsAll(s: string)
    requires AllDigits(s)
    ensures LeadingDigits(s) == s
  {
    if s != "" { LeadingDigitsAll(s[1..]); }
  }

  /** `stoi` undoes printing, for the numbers an `int` can hold. */
  lemma StoiDecimal(n: nat)
    ensures Stoi(Decimal(n)) == if n <= INT_MAX then Ok(n) else Err(OutOfRange)
  {
    hide LeadingDigits, NumberOf, Digits;
    LeadingDigitsAll(Digits(n));
    NumberOfDigits(n);
    assert IsDigit(Digits(n)[0]);
  }

  lemma {:induction false} SkipsBlanks(blanks: string, t: string)
    requires (forall i :: 0 <= i < |blanks| ==> IsSpace(blanks[i])) && (t == "" || !IsSpace(t[0]))
    ensures SkipSpace(blanks + t) == t
  {
    if blanks == "" {
      assert blanks + t == t;
    } else {
      SkipsBlanks(blanks[1..], t);
      assert (blanks + t)[1..] == blanks[1..] + t;
    }
  }

  lemma {:induction false} LeadingDigitsStop(digits: string, rest: string)
    requires AllDigits(digits) && (rest == "" || !IsDigit(rest[0]))
    ensures LeadingDigits(digits + rest) == digits
  {
    if digits == "" {
      assert digits + rest == rest;
    } else {
      LeadingDigitsStop(digits[1..], rest);
      assert (digits + rest)[1..] == digits[1..] + rest;
    }
  }

  /** Blanks in front do not matter. */
  lemma StoiBlanks(blanks: string, t: string)
    requires forall i :: 0 <= i < |blanks| ==> blanks[i] as int in {9, 10, 11, 12, 13, 32}
    requires t == "" || t[0] as int !in {9, 10, 11, 12, 13, 32}
    ensures Stoi(blanks + t) == Stoi(t)
  {
    assert t == "" + t;
    SkipsBlanks(blanks, t);
    SkipsBlanks("", t);
    hide SkipSpace, LeadingDigits, NumberOf;
  }

  /** Digits, and then anything: the number, if an `int` can hold it; without digits it is refused. */
  lemma StoiUnsigned(digits: string, rest: string)
    requires AllDigits(digits) && (rest == "" || !IsDigit(rest[0]))
    requires digits == "" && rest != "" ==> rest[0] as int !in {9, 10, 11, 12, 13, 32, 43, 45}
    ensures Stoi(digits + rest) == if digits == "" then Err(InvalidArgument)
                                   else if NumberOf(digits) <= 2147483647 then Ok(NumberOf(digits)) else Err(OutOfRange)
  {
    LeadingDigitsStop(digits, rest);
    var t := digits + rest;
    assert t != "" ==> t[0] as int !in {9, 10, 11, 12, 13, 32, 43, 45} by { assert t != "" && digits != "" ==> IsDigit(t[0]); }
    hide LeadingDigits, NumberOf;
  }

  /** The same after a sign; the range reaches one further down. */
  lemma StoiSigned(t: string, digits: string, rest: string)
    requires t != "" && (t[0] == '-' || t[0] == '+') && t[1..] == digits + rest
    requires AllDigits(digits) && (rest == "" || !IsDigit(rest[0]))
    ensures var n: int := if t[0] == '-' then 0 - NumberOf(digits) else NumberOf(digits);
            Stoi(t) == if digits == "" then Err(InvalidArgument) else if -2147483648 <= n <= 2147483647 then Ok(n) else Err(OutOfRange)
  {
    LeadingDigitsStop(digits, rest);
    StoiAfterSign(t, t[0]);
    hide *;
  }

  lemma StoiAfterSign(t: string, sign: char)
    requires t != "" && t[0] == sign && (sign == '-' || sign == '+')
    ensures var d := LeadingDigits(t[1..]);
            var n: int := if sign == '-' then 0 - NumberOf(d) else NumberOf(d);
            Stoi(t) == if d == "" then Err(InvalidArgument) else if -2147483648 <= n <= 2147483647 then Ok(n) else Err(OutOfRange)
  {
    hide LeadingDigits, NumberOf;
  }

  // ------------------------------------------------------------------------ find

  /** `s.find(d)`: the first place where `d` starts. */
  function Find(s: string, d: string): (pos: Option<nat>)
    ensures pos.Some? ==> pos.value + |d| <= |s| && d <= s[pos.value..]
    ensures pos.Some? ==> forall i :: 0 <= i < pos.value ==> !(d <= s[i..])
    ensures pos.None? ==> forall i :: 0 <= i <= |s| ==> !(d <= s[i..])
  {
    if d <= s then
      assert s[0..] == s;
      Some(0)
    else if s == "" then None
    else
      assert forall i :: 0 < i <= |s| ==> s[1..][i - 1..] == s[i..];
      assert s[0..] == s;
      match Find(s[1..], d)
      case None => None
      case Some(p) => Some(p + 1)
  }

  /** The parts of `s` between delimiters, taken from the left. */
  function Parts(s: string, d: string): (parts: seq<string>)
    requires d != ""
    ensures parts != []
    decreases |s|
  {
    match Find(s, d)
    case None => [s]
    case Some(p) => [s[..p]] + Parts(s[p + |d|..], d)
  }

  /** The parts read as numbers in order; the first part that is none decides the error. */
  function ParseAll(parts: seq<string>): Result<seq<int>, Error> {
    if parts == [] then Ok([])
    else
      match ParseAll(parts[..|parts| - 1])
      case Err(e) => Err(e)
      case Ok(numbers) =>
        match Stoi(parts[|parts| - 1])
        case Err(e) => Err(e)
        case Ok(n) => Ok(numbers + [n])
  }

  /** When reading succeeds, every part is a number and is returned at its place. */
  lemma {:induction false} ParsedElement(parts: seq<string>, i: nat)
    requires ParseAll(parts).Ok? && i < |parts|
    ensures |ParseAll(parts).value| == |parts|
    ensures Stoi(parts[i]) == Ok(ParseAll(parts).value[i])
  {
    hide Stoi;
    var init := parts[..|parts| - 1];
    if i < |init| {
      ParsedElement(init, i);
    } else if init != [] {
      ParsedElement(init, 0);
    }
  }

  /** When reading fails, it is because of the first part that is no number. */
  lemma {:induction false} ParseFailure(parts: seq<string>) returns (i: nat)
    requires ParseAll(parts).Err?
    ensures i < |parts| && ParseAll(parts[..i]).Ok?
    ensures Stoi(parts[i]).Err? && ParseAll(parts).error == Stoi(parts[i]).error
  {
    hide Stoi;
    i := |parts| - 1;
    var init := parts[..i];
    if ParseAll(init).Err? {
      i := ParseFailure(init);
      assert parts[..i] == init[..i];
    }
  }

  lemma {:induction false} ParseStops(parts: seq<string>, i: nat)
    requires i <= |parts| && ParseAll(parts[..i]).Err?
    ensures ParseAll(parts) == ParseAll(parts[..i])
  {
    if i < |parts| {
      assert parts[..|parts| - 1][..i] == parts[..i];
      ParseStops(parts[..|parts| - 1], i);
    } else {
      assert parts[..i] == parts;
    }
  }

  /** `str.erase(0, pos + delimiter.length())`; "not found" plus a length wraps around to one less than the length. */
  function Erase(str: string, pos: Option<nat>, d: string): string
    requires d != "" && (pos.Some? ==> pos.value + |d| <= |str|)
  {
    var n := if pos.None? then |d| - 1 else pos.value + |d|;
    if n <= |str| then str[n..] else ""
  }

  /** What one `find` sees: part `i`, whether it is the last one, and the parts left after `erase`. */
  lemma NextPart(str: string, d: string, parts: seq<string>, i: nat)
    requires d != "" && i < |parts| && Parts(str, d) == parts[i..]
    ensures var pos := Find(str, d);
            && parts[i] == (if pos.None? then str else str[..pos.value])
            && (pos.None? <==> i == |parts| - 1)
            && (pos.Some? ==> Parts(Erase(str, pos, d), d) == parts[i + 1..])
  {
    hide Find;
    assert parts[i..][0] == parts[i] && parts[i..][1..] == parts[i + 1..];
  }

  /** One turn of the loop: check the delimiter, read a number, erase. */
  method ReadPart(str: string, d: string, last: bool, shape: seq<int>, ghost parts: seq<string>, ghost i: nat)
      returns (r: Result<seq<int>, Error>, rest: string)
    requires d != "" && i < |parts| && Parts(str, d) == parts[i..] && ParseAll(parts[..i]) == Ok(shape)
    ensures last == (i == |parts| - 1) ==> r == ParseAll(parts[..i + 1])
    ensures last != (i == |parts| - 1) ==> r.Err?
    ensures i + 1 < |parts| ==> Parts(rest, d) == parts[i + 1..]
  {
    var pos := Find(str, d);
    NextPart(str, d, parts, i);
    rest := Erase(str, pos, d);
    if (pos.None? && !last) || (pos.Some? && last) {
      r := Err(InvalidArgument);
    } else {
      var number := Stoi(if pos.None? then str else str[..pos.value]);
      assert parts[..i + 1][..i] == parts[..i];
      r := if number.Err? then Err(number.error) else Ok(shape + [number.value]);
    }
  }

  /** `GetShape<N>`: reads the parts in order when there are exactly N of them, and is refused otherwise. */
  method GetShape(n: nat, shapeStr: string, d: string) returns (r: Result<seq<int>, Error>)
    requires n > 0 && d != ""
    ensures |Parts(shapeStr, d)| == n ==> r == ParseAll(Parts(shapeStr, d))
    ensures |Parts(shapeStr, d)| != n ==> r.Err?
  {
    ghost var parts := Parts(shapeStr, d);
    var str := shapeStr;
    var shape: seq<int> := [];
    for i := 0 to n
      invariant i <= |parts| && ParseAll(parts[..i]) == Ok(shape)
      invariant i < n ==> i < |parts| && Parts(str, d) == parts[i..]
      invariant i == n ==> |parts| == n
    {
      r, str := ReadPart(str, d, i == n - 1, shape, parts, i);
      if r.Err? {
        if (i == n - 1) == (i == |parts| - 1) { ParseStops(parts, i + 1); }
        return;
      }
      shape := r.value;
    }
    assert parts[..n] == parts;
    r := Ok(shape);
  }

  // ------------------------------------------------------------------------ printing

  function Print(shape: seq<nat>, d: string): string {
    if shape == [] then "" else if |shape| == 1 then Decimal(shape[0]) else Decimal(shape[0]) + d + Print(shape[1..], d)
  }

  function PrintedParts(shape: seq<nat>): seq<string> {
    seq(|shape|, i requires 0 <= i < |shape| => Decimal(shape[i]))
  }

  /** Digits hide no delimiter that starts with something else. */
  lemma FindAfterDigits(a: string, d: string, rest: string)
    requires AllDigits(a) && d != "" && !IsDigit(d[0])
    ensures Find(a, d) == None
    ensures Find(a + d + rest, d) == Some(|a|)
  {
    var s := a + d + rest;
    assert d <= s[|a|..];
    forall i | 0 <= i < |a| ensures !(d <= a[i..]) && !(d <= s[i..]) {
      assert a[i..][0] == a[i] == s[i..][0] != d[0];
    }
  }

  lemma {:induction false} PartsOfPrint(shape: seq<nat>, d: string)
    requires shape != [] && d != "" && !IsDigit(d[0])
    ensures Parts(Print(shape, d), d) == PrintedParts(shape)
  {
    hide Find, Digits, Parts, PrintedParts;
    var a := Decimal(shape[0]);
    PrintedCons(shape);
    if |shape| == 1 {
      assert shape[1..] == [];
      PartsCons(a, d, "");
    } else {
      PartsCons(a, d, Print(shape[1..], d));
      PartsOfPrint(shape[1..], d);
    }
  }

  lemma PartsCons(a: string, d: string, rest: string)
    requires AllDigits(a) && d != "" && !IsDigit(d[0])
    ensures Parts(a, d) == [a] && Parts(a + d + rest, d) == [a] + Parts(rest, d)
  {
    hide Find;
    FindAfterDigits(a, d, rest);
    assert (a + d + rest)[..|a|] == a && (a + d + rest)[|a| + |d|..] == rest;
  }

  lemma PrintedCons(shape: seq<nat>)
    requires shape != []
    ensures PrintedParts(shape) == [Decimal(shape[0])] + PrintedParts(shape[1..]) && PrintedParts([]) == []
  {
    hide Decimal;
  }

  /** Parsing undoes printing: for every tuple of `int`-sized numbers and every delimiter that starts with a non-digit. */
  lemma ParsePrint(shape: seq<nat>, d: string)
    requires shape != [] && d != "" && !IsDigit(d[0])
    requires forall i :: 0 <= i < |shape| ==> shape[i] <= INT_MAX
    ensures |Parts(Print(shape, d), d)| == |shape|
    ensures ParseAll(Parts(Print(shape, d), d)) == Ok(shape)
  {
    PartsOfPrint(shape, d);
    ParsePrinted(shape);
  }

  lemma {:induction false} ParsePrinted(shape: seq<nat>)
    requires forall i :: 0 <= i < |shape| ==> shape[i] <= INT_MAX
    ensures ParseAll(PrintedParts(shape)) == Ok(shape)
  {
    if shape != [] {
      var init := shape[..|shape| - 1];
      assert PrintedParts(shape)[..|shape| - 1] == PrintedParts(init);
      ParsePrinted(init);
      StoiDecimal(shape[|shape| - 1]);
      assert init + [shape[|shape| - 1]] == shape;
    }
  }

  /** How many delimiters the find/erase loop meets. */
  function DelimiterCount(s: string, d: string): nat
    requires d != ""
    decreases |s|
  {
    match Find(s, d)
    case None => 0
    case Some(p) => 1 + DelimiterCount(s[p + |d|..], d)
  }

  /** The number of parts is the number of delimiters plus one: any other rank is refused. */
  lemma {:induction false} PartsCount(s: string, d: string)
    requires d != ""
    ensures |Parts(s, d)| == DelimiterCount(s, d) + 1
    decreases |s|
  {
    hide Find;
    match Find(s, d)
    case None =>
    case Some(p) => PartsCount(s[p + |d|..], d);
  }
}
