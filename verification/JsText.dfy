/** Text as the runtime reads it: white space, trimming, and string-to-integer conversion. */
module JsText {
  import opened Wrappers
  import opened Decimal

  predicate IsSpace(c: char) {
    var n := c as int;
    || 0x09 <= n <= 0x0d || n == 0x20 || n == 0xa0 || n == 0x1680 || 0x2000 <= n <= 0x200a
    || n == 0x2028 || n == 0x2029 || n == 0x202f || n == 0x205f || n == 0x3000 || n == 0xfeff
  }

  /** The runtime's white space: tabs and line breaks, the spaces of Unicode, and the byte-order mark. */
  lemma WhiteSpace(c: char)
    ensures IsSpace(c) <==> c as int in {
      0x09, 0x0a, 0x0b, 0x0c, 0x0d, 0x20, 0xa0, 0x1680, 0x2000, 0x2001, 0x2002, 0x2003, 0x2004, 0x2005, 0x2006,
      0x2007, 0x2008, 0x2009, 0x200a, 0x2028, 0x2029, 0x202f, 0x205f, 0x3000, 0xfeff}
  {
  }

  predicate IsBlank(s: string) {
    forall i :: 0 <= i < |s| ==> IsSpace(s[i])
  }

  function TrimStart(s: string): (r: string)
    ensures r == [] || !IsSpace(r[0])
    ensures r == [] <==> IsBlank(s)
  {
    if s == [] || !IsSpace(s[0]) then s else TrimStart(s[1..])
  }

  function TrimEnd(s: string): (r: string)
    ensures r == [] || !IsSpace(r[|r| - 1])
  {
    if s == [] || !IsSpace(s[|s| - 1]) then s else TrimEnd(s[..|s| - 1])
  }

  function Trim(s: string): string {
    TrimEnd(TrimStart(s))
  }

  function RadixDigit(c: char, radix: nat): Option<nat> {
    var n := c as int;
    var d := if 48 <= n <= 57 then n - 48 else if 97 <= n <= 102 then n - 87 else if 65 <= n <= 70 then n - 55 else 16;
    if d < radix then Some(d) else None
  }

  function RadixValue(s: string, radix: nat): Option<nat> {
    if s == [] then Some(0)
    else
      match (RadixValue(s[..|s| - 1], radix), RadixDigit(s[|s| - 1], radix))
      case (Some(high), Some(low)) => Some(high * radix + low)
      case _ => None
  }

  function Unsigned(s: string): Option<nat> {
    if s != [] && AllDigits(s) then Some(Parse(s)) else None
  }

  function Negated(n: Option<int>): Option<int> {
    if n.Some? then Some(-n.value) else None
  }

  /** The integer a string converts to; None where the conversion throws. */
  function BigIntOf(s: string): Option<int> {
    var t := Trim(s);
    if t == [] then Some(0)
    else if |t| > 2 && t[0] == '0' && t[1] in {'x', 'X'} then RadixValue(t[2..], 16)
    else if |t| > 2 && t[0] == '0' && t[1] in {'o', 'O'} then RadixValue(t[2..], 8)
    else if |t| > 2 && t[0] == '0' && t[1] in {'b', 'B'} then RadixValue(t[2..], 2)
    else if t[0] == '+' then Unsigned(t[1..])
    else if t[0] == '-' then Negated(Unsigned(t[1..]))
    else Unsigned(t)
  }

  lemma {:induction false} TrimStartSkips(blank: string, s: string)
    requires IsBlank(blank)
    ensures TrimStart(blank + s) == TrimStart(s)
    decreases |blank|
  {
    if blank == [] {
      assert blank + s == s;
    } else {
      assert (blank + s)[1..] == blank[1..] + s;
      TrimStartSkips(blank[1..], s);
    }
  }

  lemma {:induction false} TrimStartKeeps(s: string, blank: string)
    requires !IsBlank(s)
    ensures TrimStart(s + blank) == TrimStart(s) + blank
    decreases |s|
  {
    if IsSpace(s[0]) {
      assert (s + blank)[1..] == s[1..] + blank;
      TrimStartKeeps(s[1..], blank);
    }
  }

  lemma {:induction false} TrimEndSkips(s: string, blank: string)
    requires IsBlank(blank)
    ensures TrimEnd(s + blank) == TrimEnd(s)
    decreases |blank|
  {
    if blank == [] {
      assert s + blank == s;
    } else {
      var front := blank[..|blank| - 1];
      assert (s + blank)[..|s + blank| - 1] == s + front;
      TrimEndSkips(s, front);
    }
  }

  /** White space around a text changes nothing of what it converts to, and white space alone converts to zero. */
  lemma BlanksDoNotCount(before: string, s: string, after: string)
    requires IsBlank(before) && IsBlank(after)
    ensures BigIntOf(before + s + after) == BigIntOf(s)
    ensures BigIntOf(before) == Some(0)
  {
    assert before + s + after == before + (s + after);
    TrimStartSkips(before, s + after);
    if IsBlank(s) {
      assert IsBlank(s + after);
    } else {
      TrimStartKeeps(s, after);
      TrimEndSkips(TrimStart(s), after);
    }
  }

  /** A plain numeral converts to the number its decimal reading gives. */
  lemma NumeralsReadDecimally(s: string)
    requires s != [] && AllDigits(s)
    ensures BigIntOf(s) == Some(Parse(s))
  {
    assert IsDigit(s[0]) && IsDigit(s[|s| - 1]);
    assert |s| > 1 ==> IsDigit(s[1]);
    assert Trim(s) == s;
  }

  // ---- Signs and radix prefixes ----

  const LOWER_DIGITS := "0123456789abcdef"
  const UPPER_DIGITS := "0123456789ABCDEF"

  predicate Marks(marker: char, radix: nat) {
    || (marker in {'x', 'X'} && radix == 16)
    || (marker in {'o', 'O'} && radix == 8)
    || (marker in {'b', 'B'} && radix == 2)
  }

  lemma DigitsRead(d: nat, radix: nat, digits: string)
    requires d < radix <= 16 && (digits == LOWER_DIGITS || digits == UPPER_DIGITS)
    ensures RadixDigit(digits[d], radix) == Some(d) && !IsSpace(digits[d])
  {
    assert |LOWER_DIGITS| == 16 && |UPPER_DIGITS| == 16;
    assert digits[d] as int == if d < 10 then 48 + d else if digits == LOWER_DIGITS then 87 + d else 55 + d;
  }

  lemma PrefixedTrims(s: string, marker: char, radix: nat)
    requires Marks(marker, radix) && s != [] && !IsSpace(s[|s| - 1])
    ensures BigIntOf(['0', marker] + s) ==
      if RadixValue(s, radix).Some? then Some(RadixValue(s, radix).value) else None
  {
    var text := ['0', marker] + s;
    assert text[2..] == s && text[|text| - 1] == s[|s| - 1];
    assert Trim(text) == text;
  }

  /** A single digit behind a marker reads as its value. */
  lemma PrefixedDigit(d: nat, marker: char, radix: nat, digits: string)
    requires Marks(marker, radix) && d < radix && (digits == LOWER_DIGITS || digits == UPPER_DIGITS)
    ensures BigIntOf(['0', marker] + [digits[d]]) == Some(d)
  {
    DigitsRead(d, radix, digits);
    PrefixedTrims([digits[d]], marker, radix);
    RadixGrows([], digits[d], radix);
    assert [] + [digits[d]] == [digits[d]];
  }

  /**
    Behind its marker a text reads positionally in base 16, 8 or 2, in either case: one more digit behind a number
    multiplies by the base and adds.
   */
  lemma PrefixedReadsPositionally(s: string, v: nat, d: nat, marker: char, radix: nat, digits: string)
    requires Marks(marker, radix) && d < radix && (digits == LOWER_DIGITS || digits == UPPER_DIGITS)
    requires s != [] && !IsSpace(s[|s| - 1]) && BigIntOf(['0', marker] + s) == Some(v)
    ensures BigIntOf(['0', marker] + (s + [digits[d]])) == Some(v * radix + d)
  {
    DigitsRead(d, radix, digits);
    PrefixedTrims(s, marker, radix);
    assert RadixValue(s, radix) == Some(v);
    RadixGrows(s, digits[d], radix);
    PrefixedMore(s + [digits[d]], marker, radix, v * radix + d);
  }

  lemma PrefixedMore(s: string, marker: char, radix: nat, v: nat)
    requires Marks(marker, radix) && s != [] && !IsSpace(s[|s| - 1]) && RadixValue(s, radix) == Some(v)
    ensures BigIntOf(['0', marker] + s) == Some(v)
  {
    PrefixedTrims(s, marker, radix);
  }

  lemma RadixGrows(s: string, c: char, radix: nat)
    requires RadixValue(s, radix).Some? && RadixDigit(c, radix).Some?
    ensures RadixValue(s + [c], radix) == Some(RadixValue(s, radix).value * radix + RadixDigit(c, radix).value)
  {
    var more := s + [c];
    assert more[..|more| - 1] == s && more[|more| - 1] == c;
  }

  predicate IsRadixDigit(c: char, radix: nat)
    requires radix <= 16
  {
    c in LOWER_DIGITS[..radix] || c in UPPER_DIGITS[..radix]
  }

  lemma DigitIffListed(c: char, radix: nat)
    requires radix <= 16
    ensures RadixDigit(c, radix).Some? <==> IsRadixDigit(c, radix)
  {
    if RadixDigit(c, radix).Some? {
      var d := RadixDigit(c, radix).value;
      assert LOWER_DIGITS[d] == c || UPPER_DIGITS[d] == c;
      assert LOWER_DIGITS[..radix][d] == LOWER_DIGITS[d] && UPPER_DIGITS[..radix][d] == UPPER_DIGITS[d];
    }
    if i :| 0 <= i < radix && LOWER_DIGITS[i] == c {
      DigitsRead(i, radix, LOWER_DIGITS);
    }
    if i :| 0 <= i < radix && UPPER_DIGITS[i] == c {
      DigitsRead(i, radix, UPPER_DIGITS);
    }
  }

  lemma {:induction false} RadixConvertsIff(s: string, radix: nat)
    requires radix <= 16
    ensures RadixValue(s, radix).Some? <==> forall i :: 0 <= i < |s| ==> IsRadixDigit(s[i], radix)
    decreases |s|
  {
    if s != [] {
      RadixConvertsIff(s[..|s| - 1], radix);
      DigitIffListed(s[|s| - 1], radix);
    }
  }

  /** Behind a marker a text converts exactly when all of it is digits of the radix. */
  lemma PrefixedConvertsIff(s: string, marker: char, radix: nat)
    requires Marks(marker, radix) && s != [] && !IsSpace(s[|s| - 1])
    ensures BigIntOf(['0', marker] + s).Some? <==> forall i :: 0 <= i < |s| ==> IsRadixDigit(s[i], radix)
  {
    PrefixedTrims(s, marker, radix);
    RadixConvertsIff(s, radix);
  }

  /** Only a zero makes a marker: behind another digit it is a stray character. */
  lemma MarkersNeedZero(c: char, marker: char, radix: nat, s: string)
    requires Marks(marker, radix) && IsDigit(c) && c != '0' && (s != [] ==> !IsSpace(s[|s| - 1]))
    ensures BigIntOf([c, marker] + s) == None
  {
    var text := [c, marker] + s;
    assert text[0] == c && text[1] == marker && !IsDigit(marker);
    assert text[|text| - 1] == if s == [] then marker else s[|s| - 1];
    assert Trim(text) == text;
  }

  /** One sign may stand before decimal digits, and needs some. */
  lemma SignsCount(n: nat)
    ensures BigIntOf("+" + Print(n)) == Some(n)
    ensures BigIntOf("-" + Print(n)) == Some(0 - n)
    ensures BigIntOf("+") == None && BigIntOf("-") == None
  {
    ParsePrint(n);
    SignedReads('+', Print(n));
    SignedReads('-', Print(n));
    assert ['+'] + Print(n) == "+" + Print(n) && ['-'] + Print(n) == "-" + Print(n);
    SignedReads('+', "");
    SignedReads('-', "");
    assert ['+'] + "" == "+" && ['-'] + "" == "-";
  }

  lemma SignedReads(sign: char, s: string)
    requires (sign == '+' || sign == '-') && AllDigits(s)
    ensures BigIntOf([sign] + s) == if sign == '+' then Unsigned(s) else Negated(Unsigned(s))
  {
    var text := [sign] + s;
    assert text[1..] == s;
    assert s != [] ==> text[|text| - 1] == s[|s| - 1] && IsDigit(s[|s| - 1]);
    assert Trim(text) == text;
  }
}
