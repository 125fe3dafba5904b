/** Text primitives the server builds on: trimming, splitting, ASCII folding and decimal numbers. */
module Text {
  datatype Option<+T> = None | Some(value: T)

  // ---------------------------------------------------------------- trimming

  // The cut set of `TrimWhitespaces`: space, CR, LF, VT, TAB, FF.
  predicate Blank(c: char) {
    c == ' ' || c == '\r' || c == '\n' || c == '\U{0B}' || c == '\t' || c == '\U{0C}'
  }

  predicate AllBlank(s: string) {
    forall i :: 0 <= i < |s| ==> Blank(s[i])
  }

  predicate CleanEdges(s: string) {
    s != "" ==> !Blank(s[0]) && !Blank(s[|s| - 1])
  }

  function TrimLeft(s: string): string {
    if s != "" && Blank(s[0]) then TrimLeft(s[1..]) else s
  }

  function TrimRight(s: string): string {
    if s != "" && Blank(s[|s| - 1]) then TrimRight(s[..|s| - 1]) else s
  }

  function TrimWhitespaces(s: string): string {
    TrimRight(TrimLeft(s))
  }

  lemma {:induction false} TrimLeftPad(pad: string, s: string)
    requires AllBlank(pad)
    ensures TrimLeft(pad + s) == TrimLeft(s)
  {
    if pad == "" {
      assert pad + s == s;
    } else {
      assert (pad + s)[1..] == pad[1..] + s;
      TrimLeftPad(pad[1..], s);
    }
  }

  lemma {:induction false} TrimRightPad(s: string, pad: string)
    requires AllBlank(pad)
    ensures TrimRight(s + pad) == TrimRight(s)
  {
    if pad == "" {
      assert s + pad == s;
    } else {
      assert (s + pad)[..|s + pad| - 1] == s + pad[..|pad| - 1];
      TrimRightPad(s, pad[..|pad| - 1]);
    }
  }

  // Whatever blank padding surrounds a text with clean edges, trimming removes exactly the padding;
  // with empty padding this is idempotence.
  lemma TrimRecovers(left: string, s: string, right: string)
    requires AllBlank(left) && AllBlank(right) && CleanEdges(s)
    ensures TrimWhitespaces(left + s + right) == s
  {
    assert left + s + right == left + (s + right);
    TrimLeftPad(left, s + right);
    if s == "" {
      assert s + right == right;
      TrimLeftPad(right, "");
      assert right + "" == right;
    } else {
      TrimRightPad(s, right);
    }
  }

  lemma {:induction false} TrimLeftSplits(s: string) returns (pad: string)
    ensures AllBlank(pad) && s == pad + TrimLeft(s)
    ensures TrimLeft(s) != "" ==> !Blank(TrimLeft(s)[0])
  {
    if s != "" && Blank(s[0]) {
      var p := TrimLeftSplits(s[1..]);
      pad := [s[0]] + p;
    } else {
      pad := "";
    }
  }

  lemma {:induction false} TrimRightSplits(s: string) returns (pad: string)
    ensures AllBlank(pad) && s == TrimRight(s) + pad
    ensures TrimRight(s) != "" ==> !Blank(TrimRight(s)[|TrimRight(s)| - 1])
  {
    if s != "" && Blank(s[|s| - 1]) {
      var p := TrimRightSplits(s[..|s| - 1]);
      pad := p + [s[|s| - 1]];
      assert s == s[..|s| - 1] + [s[|s| - 1]];
    } else {
      pad := "";
    }
  }

  // Trimming only ever takes blanks off the two ends, and leaves clean edges.
  lemma TrimSplits(s: string) returns (left: string, right: string)
    ensures AllBlank(left) && AllBlank(right) && s == left + TrimWhitespaces(s) + right
    ensures CleanEdges(TrimWhitespaces(s))
  {
    left := TrimLeftSplits(s);
    right := TrimRightSplits(TrimLeft(s));
    assert TrimWhitespaces(s) != "" ==> TrimWhitespaces(s)[0] == TrimLeft(s)[0];
  }

  // ------------------------------------------------------- splitting, joining

  function Split(s: string, sep: char): (words: seq<string>)
    ensures |words| >= 1
  {
    if s == "" then [""]
    else
      var rest := Split(s[1..], sep);
      if s[0] == sep then [""] + rest else [[s[0]] + rest[0]] + rest[1..]
  }

  function Join(words: seq<string>, sep: char): string
    requires |words| >= 1
  {
    if |words| == 1 then words[0] else words[0] + [sep] + Join(words[1..], sep)
  }

  predicate Free(words: seq<string>, sep: char) {
    forall i :: 0 <= i < |words| ==> sep !in words[i]
  }

  lemma {:induction false} JoinSplit(s: string, sep: char)
    ensures Join(Split(s, sep), sep) == s
    ensures Free(Split(s, sep), sep)
  {
    if s != "" {
      JoinSplit(s[1..], sep);
      var rest := Split(s[1..], sep);
      if s[0] == sep {
        assert ([""] + rest)[1..] == rest;
      } else {
        var words := [[s[0]] + rest[0]] + rest[1..];
        assert words[1..] == rest[1..];
        assert s == [s[0]] + s[1..];
      }
    }
  }

  lemma {:induction false} SplitWord(w: string, sep: char)
    requires sep !in w
    ensures Split(w, sep) == [w]
  {
    if w != "" {
      SplitWord(w[1..], sep);
      assert [w[0]] + w[1..] == w;
    }
  }

  lemma {:induction false} SplitCons(w: string, tail: string, sep: char)
    requires sep !in w
    ensures Split(w + [sep] + tail, sep) == [w] + Split(tail, sep)
  {
    var s := w + [sep] + tail;
    if w == "" {
      assert s[1..] == tail;
    } else {
      assert s[1..] == w[1..] + [sep] + tail;
      SplitCons(w[1..], tail, sep);
      assert [w[0]] + w[1..] == w;
    }
  }

  lemma {:induction false} SplitJoin(words: seq<string>, sep: char)
    requires |words| >= 1 && Free(words, sep)
    ensures Split(Join(words, sep), sep) == words
  {
    if |words| == 1 {
      SplitWord(words[0], sep);
    } else {
      SplitJoin(words[1..], sep);
      SplitCons(words[0], Join(words[1..], sep), sep);
    }
  }

  // ---------------------------------------------------------- ASCII case folding

  function Lower(c: char): char {
    if 'A' <= c <= 'Z' then (c as int + 32) as char else c
  }

  function ToLower(s: string): (r: string)
    ensures |r| == |s|
    ensures forall i :: 0 <= i < |s| ==> r[i] == Lower(s[i])
  {
    seq(|s|, i requires 0 <= i < |s| => Lower(s[i]))
  }

  predicate EqualFold(a: string, b: string) {
    ToLower(a) == ToLower(b)
  }

  // Folding compares character by character, and lets a letter stand for itself in the other case only.
  lemma FoldExactly(a: string, b: string)
    ensures EqualFold(a, b) <==>
      |a| == |b| && forall i :: 0 <= i < |a| ==>
        || a[i] == b[i]
        || ('A' <= a[i] <= 'Z' && b[i] as int == a[i] as int + 32)
        || ('A' <= b[i] <= 'Z' && a[i] as int == b[i] as int + 32)
  {
    if EqualFold(a, b) {
      assert |a| == |b|;
      forall i | 0 <= i < |a| ensures Lower(a[i]) == Lower(b[i]) {
        assert ToLower(a)[i] == ToLower(b)[i];
      }
    }
  }

  // ------------------------------------------------------------- decimal numbers

  const TWO63: int := 0x8000_0000_0000_0000
  const TWO64: int := 0x1_0000_0000_0000_0000

  predicate InInt64(n: int) {
    -TWO63 <= n < TWO63
  }

  predicate IsDigit(c: char) {
    '0' <= c <= '9'
  }

  predicate AllDigits(s: string) {
    forall i :: 0 <= i < |s| ==> IsDigit(s[i])
  }

  datatype Scan = Value(n: nat) | Syntax | Range

  // The digit loop of the library's unsigned parser: it stops at the first character that is no digit
  // and at the first digit that takes the value past 64 bits, whichever comes first.
  function ScanDigits(s: string, n: nat): Scan {
    if s == "" then Value(n)
    else if !IsDigit(s[0]) then Syntax
    else
      var m := 10 * n + (s[0] as int - '0' as int);
      if m >= TWO64 then Range else ScanDigits(s[1..], m)
  }

  datatype Number = Number(value: int, ok: bool)

  // `strconv.Atoi`: on a syntax error the value is 0, on a range error the nearest end of int64.
  function Atoi(s: string): Number {
    if s == "" then Number(0, false)
    else
      var neg := s[0] == '-';
      var body := if neg || s[0] == '+' then s[1..] else s;
      if body == "" then Number(0, false)
      else
        match ScanDigits(body, 0)
        case Syntax => Number(0, false)
        case Range => Number(if neg then -TWO63 else TWO63 - 1, false)
        case Value(n) =>
          if !neg && n >= TWO63 then Number(TWO63 - 1, false)
          else if neg && n > TWO63 then Number(-TWO63, false)
          else Number(if neg then -(n as int) else n as int, true)
  }

  // Positional value, least significant digit last: the reference the scanner is measured against.
  function Eval(digits: string): nat
    requires AllDigits(digits)
  {
    if digits == "" then 0
    else 10 * Eval(digits[..|digits| - 1]) + (digits[|digits| - 1] as int - '0' as int)
  }

  function Unsigned(s: string): string {
    if s != "" && (s[0] == '-' || s[0] == '+') then s[1..] else s
  }

  // An optional sign and at least one digit.
  predicate IsNumeral(s: string) {
    Unsigned(s) != "" && AllDigits(Unsigned(s))
  }

  function NumeralValue(s: string): int
    requires IsNumeral(s)
  {
    if s[0] == '-' then -(Eval(Unsigned(s)) as int) else Eval(Unsigned(s)) as int
  }

  lemma {:induction false} EvalSnoc(a: string, c: char)
    requires AllDigits(a) && IsDigit(c)
    ensures AllDigits(a + [c]) && Eval(a + [c]) == 10 * Eval(a) + (c as int - '0' as int)
  {
    assert (a + [c])[..|a|] == a;
  }

  lemma {:induction false} EvalGrows(a: string, b: string)
    requires AllDigits(a) && AllDigits(b)
    ensures AllDigits(a + b) && Eval(a) <= Eval(a + b)
  {
    if b == "" {
      assert a + b == a;
    } else {
      EvalGrows(a, b[..|b| - 1]);
      assert a + b == (a + b[..|b| - 1]) + [b[|b| - 1]];
      EvalSnoc(a + b[..|b| - 1], b[|b| - 1]);
    }
  }

  lemma {:induction false} ScanDigitsMeaning(seen: string, s: string)
    requires AllDigits(seen) && Eval(seen) < TWO64
    ensures AllDigits(s) && Eval(seen + s) < TWO64 ==> ScanDigits(s, Eval(seen)) == Value(Eval(seen + s))
    ensures AllDigits(s) && Eval(seen + s) >= TWO64 ==> ScanDigits(s, Eval(seen)) == Range
    ensures !AllDigits(s) ==> !ScanDigits(s, Eval(seen)).Value?
    decreases s
  {
    if s == "" {
      assert seen + s == seen;
    } else if IsDigit(s[0]) {
      var next := seen + [s[0]];
      assert seen + s == next + s[1..];
      AllDigitsTail(s);
      EvalSnoc(seen, s[0]);
      if Eval(next) < TWO64 {
        ScanDigitsMeaning(next, s[1..]);
      } else if AllDigits(s[1..]) {
        EvalGrows(next, s[1..]);
      }
    }
  }

  lemma AllDigitsTail(s: string)
    requires s != "" && IsDigit(s[0])
    ensures AllDigits(s) <==> AllDigits(s[1..])
  {
    assert s == [s[0]] + s[1..];
  }

  // Atoi accepts exactly the signed numerals whose value fits 64 bits, and returns that value;
  // everything it rejects comes back as 0 or as one of the two ends of the range.
  lemma AtoiExact(s: string)
    ensures Atoi(s).ok <==> IsNumeral(s) && InInt64(NumeralValue(s))
    ensures Atoi(s).ok ==> Atoi(s).value == NumeralValue(s)
    ensures !Atoi(s).ok ==> Atoi(s).value in {0, TWO63 - 1, -TWO63}
  {
    if s != "" && Unsigned(s) != "" {
      assert "" + Unsigned(s) == Unsigned(s);
      ScanDigitsMeaning("", Unsigned(s));
    }
  }

  function Decimal(n: nat): string {
    if n < 10 then [('0' as int + n) as char]
    else Decimal(n / 10) + [('0' as int + n % 10) as char]
  }

  lemma {:induction false} DecimalMeaning(n: nat)
    ensures Decimal(n) != "" && AllDigits(Decimal(n)) && Eval(Decimal(n)) == n
  {
    if n >= 10 {
      DecimalMeaning(n / 10);
      EvalSnoc(Decimal(n / 10), ('0' as int + n % 10) as char);
    } else {
      EvalSnoc("", ('0' as int + n) as char);
      assert "" + Decimal(n) == Decimal(n);
    }
  }

  // Printing then parsing is the identity on the non-negative half of int64.
  lemma {:induction false} AtoiDecimal(n: nat)
    requires n < TWO63
    ensures Atoi(Decimal(n)) == Number(n, true)
  {
    DecimalMeaning(n);
    AtoiExact(Decimal(n));
  }
}
