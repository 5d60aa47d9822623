/** Strings as Python has them: whitespace, line breaks, and integers in decimal. */
module Text {

  // ---------------------------------------------------------------- whitespace

  predicate IsSpace(c: char) {
    var n := c as int;
    || 0x09 <= n <= 0x0d || 0x1c <= n <= 0x20
    || n in {0x85, 0xa0, 0x1680, 0x2028, 0x2029, 0x202f, 0x205f, 0x3000}
    || 0x2000 <= n <= 0x200a
  }

  predicate IsBreak(c: char) {
    var n := c as int;
    0x0a <= n <= 0x0d || 0x1c <= n <= 0x1e || n in {0x85, 0x2028, 0x2029}
  }

  /** In ASCII: blanks, tabs, the line breaks and the four information separators, the last of which breaks no line. */
  lemma AsciiWhitespace(c: char)
    requires c < '\U{80}'
    ensures IsBreak(c) <==> c in "\n\r\U{b}\U{c}\U{1c}\U{1d}\U{1e}"
    ensures IsSpace(c) <==> IsBreak(c) || c in " \t\U{1f}"
  {
  }

  function StripLeft(s: string): string {
    if s != [] && IsSpace(s[0]) then StripLeft(s[1..]) else s
  }

  function StripRight(s: string): string {
    if s != [] && IsSpace(s[|s| - 1]) then StripRight(s[..|s| - 1]) else s
  }

  function Strip(s: string): string {
    StripRight(StripLeft(s))
  }

  /** What is left when all whitespace is taken out. */
  function Visible(s: string): string {
    if s == [] then []
    else (if IsSpace(s[0]) then [] else [s[0]]) + Visible(s[1..])
  }

  lemma {:induction false} VisibleOfSum(a: string, b: string)
    ensures Visible(a + b) == Visible(a) + Visible(b)
    decreases |a|
  {
    if a == [] {
      assert a + b == b;
    } else {
      assert (a + b)[1..] == a[1..] + b;
      VisibleOfSum(a[1..], b);
    }
  }

  lemma {:induction false} VisibleFits(s: string)
    ensures |Visible(s)| <= |s|
    decreases |s|
  {
    if s != [] {
      VisibleFits(s[1..]);
    }
  }

  lemma {:induction false} StripLeftKeeps(s: string)
    ensures |StripLeft(s)| <= |s| && Visible(StripLeft(s)) == Visible(s)
    ensures StripLeft(s) != [] ==> !IsSpace(StripLeft(s)[0])
    ensures forall c :: c in StripLeft(s) ==> c in s
    decreases |s|
  {
    if s != [] && IsSpace(s[0]) {
      StripLeftKeeps(s[1..]);
    }
  }

  lemma {:induction false} StripRightKeeps(s: string)
    ensures StripRight(s) <= s && Visible(StripRight(s)) == Visible(s)
    ensures StripRight(s) != [] ==> !IsSpace(StripRight(s)[|StripRight(s)| - 1])
    decreases |s|
  {
    if s != [] && IsSpace(s[|s| - 1]) {
      var most := s[..|s| - 1];
      StripRightKeeps(most);
      VisibleOfSum(most, [s[|s| - 1]]);
      assert s == most + [s[|s| - 1]];
    }
  }

  /** Stripping takes away whitespace at the ends and nothing else. */
  lemma StripKeeps(s: string)
    ensures |Strip(s)| <= |s| && Visible(Strip(s)) == Visible(s)
    ensures Strip(s) != [] ==> !IsSpace(Strip(s)[0]) && !IsSpace(Strip(s)[|Strip(s)| - 1])
    ensures Strip(s) == [] <==> Visible(s) == []
    ensures forall c :: c in Strip(s) ==> c in s
  {
    StripLeftKeeps(s);
    StripRightKeeps(StripLeft(s));
  }

  lemma StripOfTight(s: string)
    requires s != [] && !IsSpace(s[0]) && !IsSpace(s[|s| - 1])
    ensures Strip(s) == s
  {
  }

  predicate Blank(s: string) {
    forall i :: 0 <= i < |s| ==> IsSpace(s[i])
  }

  lemma {:induction false} BlankIsInvisible(s: string)
    ensures Blank(s) <==> Visible(s) == []
    decreases |s|
  {
    if s != [] {
      BlankIsInvisible(s[1..]);
      assert Blank(s) <==> IsSpace(s[0]) && Blank(s[1..]) by {
        assert forall i :: 0 <= i < |s| - 1 ==> s[1..][i] == s[i + 1];
      }
    }
  }

  lemma {:induction false} StripLeftCuts(s: string) returns (i: nat)
    ensures i <= |s| && StripLeft(s) == s[i..] && Blank(s[..i])
    decreases |s|
  {
    if s != [] && IsSpace(s[0]) {
      var j := StripLeftCuts(s[1..]);
      i := j + 1;
      assert s[..i] == [s[0]] + s[1..][..j];
    } else {
      i := 0;
    }
  }

  lemma {:induction false} StripRightCuts(s: string) returns (j: nat)
    ensures j <= |s| && StripRight(s) == s[..j] && Blank(s[j..])
    decreases |s|
  {
    if s != [] && IsSpace(s[|s| - 1]) {
      var most := s[..|s| - 1];
      j := StripRightCuts(most);
      assert most[..j] == s[..j];
      assert s[j..] == most[j..] + [s[|s| - 1]];
    } else {
      j := |s|;
    }
  }

  /** What is stripped is a piece of the text with nothing but whitespace around it. */
  lemma StripCuts(s: string) returns (i: nat, j: nat)
    ensures i <= j <= |s| && Strip(s) == s[i..j] && Blank(s[..i]) && Blank(s[j..])
  {
    i := StripLeftCuts(s);
    var n := StripRightCuts(s[i..]);
    j := i + n;
    assert s[i..][n..] == s[j..];
  }

  // ---------------------------------------------------------------- lines

  function FirstBreak(s: string): (k: nat)
    ensures k <= |s|
    ensures forall i :: 0 <= i < k ==> !IsBreak(s[i])
    ensures k < |s| ==> IsBreak(s[k])
  {
    if s == [] || IsBreak(s[0]) then 0 else 1 + FirstBreak(s[1..])
  }

  /** A carriage return and the line feed after it are one break. */
  function BreakLength(s: string, k: nat): (n: nat)
    requires k < |s| && IsBreak(s[k])
    ensures k + 1 <= k + n <= |s| && forall i :: k <= i < k + n ==> IsBreak(s[i])
  {
    if s[k] == '\r' && k + 1 < |s| && s[k + 1] == '\n' then 2 else 1
  }

  function SplitLines(s: string): seq<string>
    decreases |s|
  {
    var k := FirstBreak(s);
    if s == [] then []
    else if k == |s| then [s]
    else [s[..k]] + SplitLines(s[k + BreakLength(s, k)..])
  }

  // ---------------------------------------------------------------- decimals

  predicate IsDigit(c: char) {
    '0' <= c <= '9'
  }

  predicate AllDigits(s: string) {
    forall i :: 0 <= i < |s| ==> IsDigit(s[i])
  }

  function Digits(n: nat): (s: string)
    ensures s != [] && AllDigits(s)
    ensures |s| > 1 ==> s[0] != '0'
  {
    var last := [(n % 10 + 48) as char];
    if n < 10 then last else Digits(n / 10) + last
  }

  function Decimal(n: int): string {
    if n < 0 then "-" + Digits(-n) else Digits(n)
  }

  function Value(s: string): nat
    requires AllDigits(s)
  {
    if s == [] then 0 else 10 * Value(s[..|s| - 1]) + s[|s| - 1] as int - 48
  }

  /** What a decimal numeral looks like: no sign but a minus, no leading zero, no minus zero. */
  predicate IsNumeral(s: string) {
    var body := if s != [] && s[0] == '-' then s[1..] else s;
    && body != []
    && AllDigits(body)
    && (|body| > 1 ==> body[0] != '0')
    && (s[0] == '-' ==> body != "0")
  }

  lemma {:induction false} ValueOfDigits(n: nat)
    ensures Value(Digits(n)) == n
  {
    if n >= 10 {
      ValueOfDigits(n / 10);
      assert Digits(n)[..|Digits(n)| - 1] == Digits(n / 10);
    }
  }

  lemma {:induction false} DigitsOfValue(s: string)
    requires s != [] && AllDigits(s) && (|s| > 1 ==> s[0] != '0')
    ensures Digits(Value(s)) == s
    ensures s[0] != '0' ==> Value(s) > 0
    decreases |s|
  {
    var most, last := s[..|s| - 1], s[|s| - 1];
    if most != [] {
      DigitsOfValue(most);
      assert Value(s) / 10 == Value(most) && Value(s) % 10 == last as int - 48;
      assert s == most + [last];
    } else {
      assert s == [last];
    }
  }

  /** Numerals are exactly the ways integers are printed. */
  lemma NumeralsAreDecimals(s: string)
    ensures IsNumeral(s) <==> exists n :: Decimal(n) == s
  {
    if IsNumeral(s) {
      if s[0] == '-' {
        DigitsOfValue(s[1..]);
        assert s[1..][0] != '0';
        var n: int := Value(s[1..]);
        assert Decimal(-n) == "-" + s[1..] == s;
      } else {
        DigitsOfValue(s);
        assert Decimal(Value(s)) == s;
      }
    }
    forall n | Decimal(n) == s
      ensures IsNumeral(s)
    {
      DecimalIsNumeral(n);
    }
  }

  lemma DecimalIsNumeral(n: int)
    ensures IsNumeral(Decimal(n))
  {
    if n < 0 {
      assert Decimal(n)[1..] == Digits(-n);
      ValueOfDigits(-n);
    } else {
      assert IsDigit(Digits(n)[0]);
    }
  }

  lemma DecimalsDiffer(m: int, n: int)
    requires Decimal(m) == Decimal(n)
    ensures m == n
  {
    assert IsDigit(Digits(if m < 0 then -m else m)[0]) && IsDigit(Digits(if n < 0 then -n else n)[0]);
    if m < 0 {
      assert Decimal(m)[1..] == Digits(-m) && Decimal(n)[1..] == Digits(-n);
      ValueOfDigits(-m);
      ValueOfDigits(-n);
    } else {
      ValueOfDigits(m);
      ValueOfDigits(n);
    }
  }
}
