/** Words and numbers in control-channel text. */
module Text {
  import opened Prelude

  // ---- white space and words ----

  /** White space as the Go library defines it for characters. */
  predicate IsSpace(c: char) {
    var n := c as int;
    9 <= n <= 13 || n == 0x20 || n == 0x85 || n == 0xA0 || n == 0x1680 || 0x2000 <= n <= 0x200A
    || n == 0x2028 || n == 0x2029 || n == 0x202F || n == 0x205F || n == 0x3000
  }

  /** Among the ASCII characters white space is the blank and the five control characters from
      tab to carriage return. */
  lemma AsciiSpace(c: char)
    requires c as int < 0x80
    ensures IsSpace(c) <==> c == ' ' || '\t' <= c <= '\r'
  {
  }

  predicate Blank(s: string) {
    forall i :: 0 <= i < |s| ==> IsSpace(s[i])
  }

  /** A non-empty piece of text without white space. */
  predicate IsWord(s: string) {
    s != "" && forall i :: 0 <= i < |s| ==> !IsSpace(s[i])
  }

  /** The text is over, or a word cannot continue into it. */
  predicate Breaks(s: string) {
    s == "" || IsSpace(s[0])
  }

  function TrimLeft(s: string): string {
    if s != "" && IsSpace(s[0]) then TrimLeft(s[1..]) else s
  }

  function TrimRight(s: string): string {
    if s != "" && IsSpace(s[|s| - 1]) then TrimRight(s[..|s| - 1]) else s
  }

  function TrimSpace(s: string): string {
    TrimRight(TrimLeft(s))
  }

  function WordLength(s: string): (n: nat)
    ensures n <= |s| && (n < |s| ==> IsSpace(s[n]))
    ensures forall i :: 0 <= i < n ==> !IsSpace(s[i])
  {
    if Breaks(s) then 0 else 1 + WordLength(s[1..])
  }

  /** The maximal runs of non-space characters, in order. */
  function Fields(s: string): seq<string>
    decreases |s|
  {
    if s == "" then []
    else if IsSpace(s[0]) then Fields(s[1..])
    else var n := WordLength(s); [s[..n]] + Fields(s[n..])
  }

  lemma {:induction false} LeadingBlanks(a: string, s: string)
    requires Blank(a)
    ensures Fields(a + s) == Fields(s)
  {
    if a == "" {
      assert a + s == s;
    } else {
      assert (a + s)[1..] == a[1..] + s;
      LeadingBlanks(a[1..], s);
    }
  }

  /** White space, a word and what follows it read as that word and the rest. */
  lemma FirstField(a: string, w: string, t: string)
    requires Blank(a) && IsWord(w) && Breaks(t)
    ensures Fields(a + w + t) == [w] + Fields(t)
  {
    assert a + w + t == a + (w + t);
    LeadingBlanks(a, w + t);
    WordLengthOf(w, t);
    assert (w + t)[..|w|] == w && (w + t)[|w|..] == t && (w + t)[0] == w[0];
  }

  lemma {:induction false} WordLengthOf(w: string, t: string)
    requires (forall i :: 0 <= i < |w| ==> !IsSpace(w[i])) && Breaks(t)
    ensures WordLength(w + t) == |w|
  {
    if w == "" {
      assert w + t == t;
    } else {
      assert (w + t)[1..] == w[1..] + t;
      WordLengthOf(w[1..], t);
    }
  }

  lemma {:induction false} BlankHasNoFields(s: string)
    ensures Fields(s) == [] <==> Blank(s)
  {
    if s != "" && IsSpace(s[0]) {
      BlankHasNoFields(s[1..]);
      assert s == [s[0]] + s[1..];
    }
  }

  /** A text that starts with a word is that word and a text holding the other fields. */
  lemma CutWord(s: string) returns (w: string, t: string)
    requires s != "" && !IsSpace(s[0])
    ensures s == w + t && IsWord(w) && Breaks(t) && Fields(s) == [w] + Fields(t)
  {
    var n := WordLength(s);
    w, t := s[..n], s[n..];
  }

  /** Every text with a field is white space, that field, and a text holding the others. */
  lemma {:induction false} CutField(s: string) returns (a: string, w: string, t: string)
    requires Fields(s) != []
    ensures s == a + w + t && Blank(a) && IsWord(w) && Breaks(t)
    ensures Fields(s) == [w] + Fields(t)
    ensures a == "" ==> !IsSpace(s[0])
  {
    if IsSpace(s[0]) {
      var b;
      b, w, t := CutField(s[1..]);
      a := [s[0]] + b;
      PutBack(s[0], b, w, t);
      assert s == [s[0]] + s[1..];
    } else {
      w, t := CutWord(s);
      a := "";
      assert a + w == w;
    }
  }

  lemma PutBack(c: char, b: string, w: string, t: string)
    ensures [c] + b + w + t == [c] + (b + w + t)
  {
  }

  lemma {:induction false} FieldsAreWords(s: string)
    ensures forall f | f in Fields(s) :: IsWord(f)
    decreases |s|
  {
    if Fields(s) != [] {
      var a, w, t := CutField(s);
      FieldsAreWords(t);
    }
  }

  lemma {:induction false} TrailingBlank(s: string, c: char)
    requires IsSpace(c)
    ensures Fields(s + [c]) == Fields(s)
    decreases |s|
  {
    if Fields(s) == [] {
      BlankHasNoFields(s);
      BlankHasNoFields(s + [c]);
    } else {
      var a, w, t := CutField(s);
      assert s + [c] == a + w + (t + [c]);
      FirstField(a, w, t + [c]);
      TrailingBlank(t, c);
    }
  }

  lemma {:induction false} FieldsTrimRight(s: string)
    ensures Fields(TrimRight(s)) == Fields(s)
  {
    if s != "" && IsSpace(s[|s| - 1]) {
      var front := s[..|s| - 1];
      FieldsTrimRight(front);
      TrailingBlank(front, s[|s| - 1]);
      assert s == front + [s[|s| - 1]];
    }
  }

  lemma {:induction false} FieldsTrimLeft(s: string)
    ensures Fields(TrimLeft(s)) == Fields(s)
  {
    if s != "" && IsSpace(s[0]) {
      FieldsTrimLeft(s[1..]);
    }
  }

  /** Trimming first changes nothing. */
  lemma FieldsTrim(s: string)
    ensures Fields(TrimSpace(s)) == Fields(s)
  {
    FieldsTrimLeft(s);
    FieldsTrimRight(TrimLeft(s));
  }

  /** Trimming takes white space off both ends and nothing else. */
  lemma {:induction false} LeftPart(s: string) returns (a: string)
    ensures s == a + TrimLeft(s) && Blank(a)
  {
    if s != "" && IsSpace(s[0]) {
      var rest := LeftPart(s[1..]);
      a := [s[0]] + rest;
      assert s == [s[0]] + s[1..];
      assert a + TrimLeft(s) == [s[0]] + (rest + TrimLeft(s));
    } else {
      a := "";
      assert a + s == s;
    }
  }

  lemma {:induction false} RightPart(s: string) returns (b: string)
    ensures s == TrimRight(s) + b && Blank(b)
  {
    if s != "" && IsSpace(s[|s| - 1]) {
      var front, last := s[..|s| - 1], s[|s| - 1];
      var rest := RightPart(front);
      b := rest + [last];
      assert s == front + [last];
      assert TrimRight(s) + b == (TrimRight(s) + rest) + [last];
    } else {
      b := "";
      assert s + b == s;
    }
  }

  lemma TrimParts(s: string) returns (a: string, b: string)
    ensures s == a + TrimSpace(s) + b && Blank(a) && Blank(b)
  {
    a := LeftPart(s);
    b := RightPart(TrimLeft(s));
    assert a + (TrimSpace(s) + b) == a + TrimSpace(s) + b;
  }

  /** A word between white space is what trimming leaves. */
  lemma {:induction false} TrimToWord(a: string, w: string, b: string)
    requires Blank(a) && IsWord(w) && Blank(b)
    ensures TrimSpace(a + w + b) == w
    decreases |a| + |b|
  {
    if a != "" {
      assert (a + w + b)[1..] == a[1..] + w + b;
      TrimToWord(a[1..], w, b);
    } else {
      assert a + w + b == w + b;
      assert TrimLeft(w + b) == w + b;
      if b != "" {
        assert (w + b)[..|w + b| - 1] == a + w + b[..|b| - 1];
        TrimToWord(a, w, b[..|b| - 1]);
        assert a + w + b[..|b| - 1] == w + b[..|b| - 1];
        assert TrimLeft(w + b[..|b| - 1]) == w + b[..|b| - 1];
      } else {
        assert w + b == w;
      }
    }
  }

  /** Words each preceded by one space. */
  function Spaced(words: seq<string>): string {
    if words == [] then "" else " " + words[0] + Spaced(words[1..])
  }

  lemma {:induction false} FieldsOfSpaced(words: seq<string>)
    requires forall w | w in words :: IsWord(w)
    ensures Fields(Spaced(words) + "\n") == words
    ensures '\n' !in Spaced(words)
  {
    if words == [] {
      assert Spaced(words) + "\n" == "\n";
      BlankHasNoFields("\n");
    } else {
      var t := Spaced(words[1..]);
      FieldsOfSpaced(words[1..]);
      assert Spaced(words) + "\n" == " " + words[0] + (t + "\n");
      assert t != "" ==> t[0] == ' ';
      FirstField(" ", words[0], t + "\n");
      assert words == [words[0]] + words[1..];
      assert '\n' !in words[0];
    }
  }

  /** A first word without white space in front of it, and more words behind it. */
  lemma WordsOfText(w: string, rest: seq<string>)
    requires IsWord(w) && forall v | v in rest :: IsWord(v)
    ensures Fields(w + (Spaced(rest) + "\n")) == [w] + rest
  {
    FieldsOfSpaced(rest);
    SpacedBreaks(rest);
    FirstWord(w, Spaced(rest) + "\n");
  }

  lemma SpacedBreaks(rest: seq<string>)
    ensures Breaks(Spaced(rest) + "\n")
  {
  }

  lemma FirstWord(w: string, t: string)
    requires IsWord(w) && Breaks(t)
    ensures Fields(w + t) == [w] + Fields(t)
  {
    FirstField("", w, t);
    assert w + t == "" + w + t;
  }

  // ---- numbers ----

  function DigitChar(d: nat): char
    requires d < 16
  {
    if d < 10 then '0' + (d as char) else 'a' + ((d - 10) as char)
  }

  /** The value of a digit in the given base; None for any other character. */
  function DigitValue(base: nat, c: char): Option<nat> {
    var d := if '0' <= c <= '9' then (c - '0') as int
             else if 'a' <= c <= 'f' then 10 + (c - 'a') as int
             else if 'A' <= c <= 'F' then 10 + (c - 'A') as int
             else 16;
    if d < base && d < 16 then Some(d) else None
  }

  /** The characters that stand for a digit: decimal digits, and letters of either case. */
  lemma DigitLanguage(base: nat, c: char, v: nat)
    requires 2 <= base <= 16
    ensures DigitValue(base, c) == Some(v) <==>
              && v < base
              && (v < 10 ==> c as int == '0' as int + v)
              && (v >= 10 ==> c as int == 'a' as int + v - 10 || c as int == 'A' as int + v - 10)
  {
  }

  predicate IsNumeral(base: nat, s: string) {
    s != "" && forall i :: 0 <= i < |s| ==> DigitValue(base, s[i]).Some?
  }

  function Value(base: nat, s: string): nat
    requires forall i :: 0 <= i < |s| ==> DigitValue(base, s[i]).Some?
  {
    if s == "" then 0
    else Shifted(base, Value(base, s[..|s| - 1]), DigitValue(base, s[|s| - 1]).value)
  }

  function Shifted(base: nat, v: nat, d: nat): nat { v * base + d }

  function Numeral(base: nat, n: nat): string
    requires 2 <= base <= 16
  {
    if n < base then [DigitChar(n)] else Numeral(base, n / base) + [DigitChar(n % base)]
  }

  lemma DigitRoundTrip(base: nat, d: nat)
    requires 2 <= base <= 16 && d < base
    ensures DigitValue(base, DigitChar(d)) == Some(d) && !IsSpace(DigitChar(d))
  {
  }

  /** A numeral with one more digit. */
  lemma MoreDigits(base: nat, front: string, q: nat, d: nat)
    requires 2 <= base <= 16 && d < base
    requires if front == "" then q == 0 else IsNumeral(base, front) && IsWord(front) && Value(base, front) == q
    ensures var s := front + [DigitChar(d)];
            IsNumeral(base, s) && IsWord(s) && Value(base, s) == q * base + d
  {
    DigitRoundTrip(base, d);
    var s := front + [DigitChar(d)];
    assert s[..|s| - 1] == front;
  }

  lemma DivMod(n: nat, base: nat)
    requires 2 <= base <= n
    ensures n / base * base + n % base == n && 0 < n / base < n && n % base < base
  {
  }

  /** Printing then reading a number gives it back, in every base. */
  lemma {:induction false} NumeralRoundTrip(base: nat, n: nat)
    requires 2 <= base <= 16
    ensures IsNumeral(base, Numeral(base, n)) && IsWord(Numeral(base, n))
    ensures Value(base, Numeral(base, n)) == n
  {
    if n < base {
      MoreDigits(base, "", 0, n);
      assert "" + [DigitChar(n)] == [DigitChar(n)];
    } else {
      DivMod(n, base);
      NumeralRoundTrip(base, n / base);
      MoreDigits(base, Numeral(base, n / base), n / base, n % base);
    }
  }

  lemma DigitIsPlain(d: nat)
    requires d < 16
    ensures '0' <= DigitChar(d) <= '9' || 'a' <= DigitChar(d) <= 'f'
    ensures DigitChar(d) == '0' <==> d == 0
  {
  }

  /** Printed numbers have no leading zero, no sign, and small letters. */
  lemma {:induction false} NumeralIsPlain(base: nat, n: nat)
    requires 2 <= base <= 16
    ensures var s := Numeral(base, n);
            && s != "" && (s[0] == '0' <==> n == 0) && (n == 0 ==> |s| == 1)
            && forall i :: 0 <= i < |s| ==> '0' <= s[i] <= '9' || 'a' <= s[i] <= 'f'
  {
    if n < base {
      DigitIsPlain(n);
    } else {
      DivMod(n, base);
      var q, d := n / base, n % base;
      NumeralIsPlain(base, q);
      DigitIsPlain(d);
      assert Numeral(base, n) == Numeral(base, q) + [DigitChar(d)];
    }
  }

  /** A port that is not negative is printed as digits only. */
  lemma DecimalIsPlain(i: int)
    ensures i >= 0 ==> IsNumeral(10, Decimal(i)) && (Decimal(i)[0] == '0' <==> i == 0)
    ensures i < 0 ==> Decimal(i) == "-" + Decimal(-i)
  {
    if i >= 0 {
      NumeralRoundTrip(10, i);
      NumeralIsPlain(10, i);
    }
  }

  lemma NumeralsAreWords(base: nat, s: string)
    requires IsNumeral(base, s)
    ensures IsWord(s) && '\n' !in s && ' ' !in s
  {
    forall i | 0 <= i < |s| ensures !IsSpace(s[i]) && s[i] != '\n' && s[i] != ' ' {
      assert DigitValue(base, s[i]).Some?;
    }
  }

  /** A signed decimal as `%d` prints it. */
  function Decimal(i: int): string {
    if i < 0 then "-" + Numeral(10, -i) else Numeral(10, i)
  }

  /** Optional sign, digits, and a value that fits a 64-bit integer. */
  function Atoi(s: string): Option<int> {
    var negative := s != "" && s[0] == '-';
    var digits := if s != "" && (s[0] == '-' || s[0] == '+') then s[1..] else s;
    if !IsNumeral(10, digits) then None
    else
      var v: int := Value(10, digits);
      var n := if negative then -v else v;
      if -TWO63 <= n < TWO63 then Some(n) else None
  }

  /** What a port field may look like: a sign or none, digits, a value of 64 bits. */
  lemma AtoiLanguage(s: string, n: int)
    ensures Atoi(s) == Some(n) <==>
              -TWO63 <= n < TWO63 && exists sign: string, digits: string ::
                && s == sign + digits && (sign == "" || sign == "+" || sign == "-") && IsNumeral(10, digits)
                && n == (if sign == "-" then -1 else 1) * Value(10, digits)
  {
    var signed := s != "" && (s[0] == '-' || s[0] == '+');
    if Atoi(s) == Some(n) {
      var sign, digits := if signed then s[..1] else "", if signed then s[1..] else s;
      assert s == sign + digits;
      assert sign == "" || sign == "+" || sign == "-";
    }
    forall sign: string, digits: string |
      s == sign + digits && (sign == "" || sign == "+" || sign == "-") && IsNumeral(10, digits)
      ensures digits == (if signed then s[1..] else s) && (sign == "-" <==> s[0] == '-')
    {
      SignIsFirst(s, sign, digits);
    }
  }

  lemma SignIsFirst(s: string, sign: string, digits: string)
    requires s == sign + digits && (sign == "" || sign == "+" || sign == "-") && IsNumeral(10, digits)
    ensures s != "" && (sign == "-" <==> s[0] == '-') && (sign == "+" <==> s[0] == '+')
    ensures digits == if s[0] == '-' || s[0] == '+' then s[1..] else s
  {
    assert DigitValue(10, digits[0]).Some?;
    if sign == "" {
      assert s == digits;
    } else {
      assert s[1..] == digits && s[0] == sign[0];
    }
  }

  lemma DecimalRoundTrip(i: int)
    requires -TWO63 <= i < TWO63
    ensures Atoi(Decimal(i)) == Some(i) && IsWord(Decimal(i))
  {
    var digits := Numeral(10, if i < 0 then -i else i);
    NumeralRoundTrip(10, if i < 0 then -i else i);
    if i < 0 {
      assert Decimal(i)[1..] == digits;
    } else {
      assert DigitValue(10, digits[0]).Some?;
      assert digits[0] != '-' && digits[0] != '+';
    }
  }

  /** What the length parser computes: the decimal value, wrapped to 64 bits. */
  function IntDecimal(s: string): Option<int> {
    if IsNumeral(10, s) then Some(Wrap64(Value(10, s))) else None
  }

  /** Wrapping at every digit is the same as wrapping once at the end. */
  lemma WrapStep(n: int, d: int)
    ensures Wrap64(Wrap64(n) * 10 + d) == Wrap64(n * 10 + d)
  {
    var q := (n + TWO63) / TWO64;
    assert Wrap64(n) == n - q * TWO64;
    assert (n * 10 + d + TWO63) - 10 * q * TWO64 == Wrap64(n) * 10 + d + TWO63;
    WrapShift(n * 10 + d, -10 * q);
  }

  lemma WrapShift(n: int, k: int)
    ensures Wrap64(n + k * TWO64) == Wrap64(n)
  {
  }

  lemma WrapIsModular(n: nat, m: nat)
    requires m < TWO63
    ensures Wrap64(n) == m <==> n % TWO64 == m
  {
    WrapShift(n % TWO64, n / TWO64);
  }

  method ParseIntDecimal(s: string) returns (n: Option<int>)
    ensures n == IntDecimal(s)
  {
    if s == "" {
      return None;
    }
    var acc := 0;
    for i := 0 to |s|
      invariant forall j :: 0 <= j < i ==> DigitValue(10, s[..i][j]).Some?
      invariant acc == Wrap64(Value(10, s[..i]))
    {
      if !('0' <= s[i] <= '9') {
        assert DigitValue(10, s[i]).None?;
        return None;
      }
      assert s[..i + 1][..i] == s[..i];
      WrapStep(Value(10, s[..i]), (s[i] - '0') as int);
      acc := Wrap64(acc * 10 + (s[i] - '0') as int);
    }
    assert s[..|s|] == s;
    n := Some(acc);
  }
}
