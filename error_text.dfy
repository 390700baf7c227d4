/** The text of an OpenGL error report: the symbolic name of a known error
    code, the hexadecimal rendering of any other code, and the line the
    error check writes to the diagnostic stream. */
module ErrorText {
  import opened Gl

  /** The error names, in code order from INVALID_ENUM. */
  const ErrorNames: seq<string> := ["GL_INVALID_ENUM", "GL_INVALID_VALUE",
    "GL_INVALID_OPERATION", "GL_STACK_OVERFLOW", "GL_STACK_UNDERFLOW", "GL_OUT_OF_MEMORY"]

  /** The guard the error check uses before looking a code up by name. */
  function IsKnownError(code: GLenum): (known: bool)
    ensures known <==> INVALID_ENUM <= code <= OUT_OF_MEMORY
    ensures known <==> 0 <= code - INVALID_ENUM < |ErrorNames|
  {
    1279 < code < 1286
  }

  /** GlGetError: the symbolic name of an error code in 0x0500..0x0505; the
      table has six entries, so the code must lie in that range. */
  function ErrorName(code: GLenum): (name: string)
    requires INVALID_ENUM <= code <= OUT_OF_MEMORY
    ensures code == INVALID_ENUM ==> name == "GL_INVALID_ENUM"
    ensures code == INVALID_VALUE ==> name == "GL_INVALID_VALUE"
    ensures code == INVALID_OPERATION ==> name == "GL_INVALID_OPERATION"
    ensures code == STACK_OVERFLOW ==> name == "GL_STACK_OVERFLOW"
    ensures code == STACK_UNDERFLOW ==> name == "GL_STACK_UNDERFLOW"
    ensures code == OUT_OF_MEMORY ==> name == "GL_OUT_OF_MEMORY"
  {
    ErrorNames[code - 1280]
  }

  /** Distinct known codes get distinct names, all starting with "GL_". */
  lemma ErrorNamesDistinct(a: GLenum, b: GLenum)
    requires IsKnownError(a) && IsKnownError(b)
    ensures |ErrorName(a)| > 3 && ErrorName(a)[..3] == "GL_"
    ensures a != b ==> ErrorName(a) != ErrorName(b)
  {
  }

  const Digits := "0123456789abcdef"

  /** The value of one lower-case digit character. */
  function DigitValue(c: char): nat
  {
    if '0' <= c <= '9' then c as int - '0' as int
    else if 'a' <= c <= 'f' then c as int - 'a' as int + 10
    else 0
  }

  /** `n` written in `base` the way an output stream writes an unsigned
      number: lower-case digits, no leading zeros, "0" for zero. */
  function Numeral(n: nat, base: nat): (s: string)
    requires 2 <= base <= 16
    ensures |s| >= 1
    ensures forall i | 0 <= i < |s| :: s[i] in Digits[..base]
    ensures s[0] == '0' <==> n == 0
    decreases n
  {
    if n < base then
      assert Digits[n] == Digits[..base][n];
      assert Digits[n] == '0' <==> n == 0;
      [Digits[n]]
    else
      DivMod(n, base);
      assert n % base < base && Digits[n % base] == Digits[..base][n % base];
      Numeral(n / base, base) + [Digits[n % base]]
  }

  /** The value of a digit string in `base`, the inverse of Numeral. */
  function NumeralValue(s: string, base: nat): nat
  {
    if s == [] then 0 else NumeralValue(s[..|s| - 1], base) * base + DigitValue(s[|s| - 1])
  }

  /** Appending digit `d` to a string of value `v` gives value `v * base + d`. */
  lemma NumeralValueSnoc(s: string, v: nat, d: nat, base: nat)
    requires d < 16 && NumeralValue(s, base) == v
    ensures NumeralValue(s + [Digits[d]], base) == v * base + d
  {
  }

  lemma DivMod(n: nat, base: nat)
    requires 2 <= base
    ensures n == (n / base) * base + n % base
    ensures n >= base ==> n / base < n
  {
  }

  lemma {:induction false} NumeralRoundTrip(n: nat, base: nat)
    requires 2 <= base <= 16
    ensures NumeralValue(Numeral(n, base), base) == n
    decreases n
  {
    if n < base {
      NumeralValueSnoc([], 0, n, base);
      assert [] + [Digits[n]] == Numeral(n, base);
    } else {
      DivMod(n, base);
      var q, r := n / base, n % base;
      var prefix := Numeral(q, base);
      assert Numeral(n, base) == prefix + [Digits[r]];
      NumeralRoundTrip(q, base);
      NumeralValueSnoc(prefix, q, r, base);
    }
  }

  lemma NumeralInjective(m: nat, n: nat, base: nat)
    requires 2 <= base <= 16
    ensures Numeral(m, base) == Numeral(n, base) ==> m == n
  {
    NumeralRoundTrip(m, base);
    NumeralRoundTrip(n, base);
  }

  /** A numeral is digit characters only, so it never starts with a sign. */
  lemma NumeralDigits(n: nat, base: nat)
    requires 2 <= base <= 16
    ensures var s := Numeral(n, base);
      && s[0] != '-'
      && forall i | 0 <= i < |s| :: s[i] in Digits
  {
    var s := Numeral(n, base);
    forall i | 0 <= i < |s|
      ensures s[i] in Digits
    {
      assert s[i] in Digits[..base];
    }
    assert s[0] in Digits;
  }

  /** What the error check writes between the braces: the name of a known
      code, otherwise "0x" and the code in hexadecimal. */
  function ErrorLabel(code: GLenum): (shown: string)
    ensures IsKnownError(code) ==> shown == ErrorName(code)
    ensures |shown| >= 3
    ensures IsKnownError(code) <==> shown[..3] == "GL_"
    ensures !IsKnownError(code) ==> shown[..2] == "0x" && NumeralValue(shown[2..], 16) == code
  {
    if IsKnownError(code) then
      ErrorNamesDistinct(code, code);
      ErrorName(code)
    else
      NumeralRoundTrip(code, 16);
      assert ("0x" + Numeral(code, 16))[2..] == Numeral(code, 16);
      assert ("0x" + Numeral(code, 16))[0] == '0';
      "0x" + Numeral(code, 16)
  }

  /** The label of an unknown code is "0x" followed by hexadecimal digits
      only, with a leading '0' only for the code zero. */
  lemma ErrorLabelDigits(code: GLenum)
    requires !IsKnownError(code)
    ensures var shown := ErrorLabel(code);
      && |shown| > 2
      && (forall i | 2 <= i < |shown| :: shown[i] in Digits)
      && (shown[2] == '0' <==> code == 0)
  {
    var hex := Numeral(code, 16);
    NumeralDigits(code, 16);
    assert ErrorLabel(code) == "0x" + hex;
    assert forall i | 2 <= i < |hex| + 2 :: ("0x" + hex)[i] == hex[i - 2];
  }

  /** A report names its error unambiguously: distinct codes get distinct labels. */
  lemma ErrorLabelInjective(a: GLenum, b: GLenum)
    requires a != b
    ensures ErrorLabel(a) != ErrorLabel(b)
  {
  }

  /** A signed 32-bit number as the stream writes it: in base 10 with a
      minus sign, or in base 16 as its unsigned 32-bit pattern. */
  function LineNumeral(line: GLint, hex: bool): (s: string)
    ensures |s| >= 1
    ensures hex && line >= 0 ==> NumeralValue(s, 16) == line
    ensures hex && line < 0 ==> NumeralValue(s, 16) == line + 0x1_0000_0000
    ensures !hex && line >= 0 ==> NumeralValue(s, 10) == line
    ensures !hex && line < 0 ==> s[0] == '-' && NumeralValue(s[1..], 10) == -(line as int)
  {
    if hex then
      var bits := if line < 0 then line + 0x1_0000_0000 else line;
      NumeralRoundTrip(bits, 16);
      Numeral(bits, 16)
    else if line < 0 then
      var magnitude := -(line as int);
      NumeralRoundTrip(magnitude, 10);
      assert ("-" + Numeral(magnitude, 10))[1..] == Numeral(magnitude, 10);
      "-" + Numeral(magnitude, 10)
    else
      NumeralRoundTrip(line, 10);
      Numeral(line, 10)
  }

  /** A line number carries a minus sign exactly when it is negative and
      written in decimal; after the sign come digits only, with a leading
      '0' only for zero. */
  lemma LineNumeralDigits(line: GLint, hex: bool)
    ensures var s := LineNumeral(line, hex);
      var sign := if s[0] == '-' then 1 else 0;
      && (s[0] == '-' <==> !hex && line < 0)
      && |s| > sign
      && (forall i | sign <= i < |s| :: s[i] in Digits)
      && (s[sign] == '0' <==> line == 0)
  {
    if hex {
      var bits := if line < 0 then line + 0x1_0000_0000 else line;
      NumeralDigits(bits, 16);
      assert LineNumeral(line, hex) == Numeral(bits, 16);
    } else if line < 0 {
      var digits := Numeral(-(line as int), 10);
      NumeralDigits(-(line as int), 10);
      assert LineNumeral(line, hex) == "-" + digits;
      assert forall i | 1 <= i < |digits| + 1 :: ("-" + digits)[i] == digits[i - 1];
    } else {
      NumeralDigits(line, 10);
      assert LineNumeral(line, hex) == Numeral(line, 10);
    }
  }

  const ReportHead := "[OpenGL Error] {"

  /** The diagnostic line for an error labelled `tag`, raised by the call
      whose text is `call` at `file`:`line`. */
  function ReportLine(tag: string, call: string, file: string, line: GLint, hex: bool): (r: string)
    ensures var callAt := |ReportHead| + |tag| + 3;
      var fileAt := callAt + |call| + 1;
      && |r| == fileAt + |file| + 1 + |LineNumeral(line, hex)|
      && r[..|ReportHead|] == ReportHead
      && r[|ReportHead|..|ReportHead| + |tag|] == tag
      && r[callAt..callAt + |call|] == call
      && r[fileAt..fileAt + |file|] == file
      && r[fileAt + |file| + 1..] == LineNumeral(line, hex)
  {
    JoinReport(tag, call, file, LineNumeral(line, hex))
  }

  /** A report line around an already written line number `number`. */
  function JoinReport(tag: string, call: string, file: string, number: string): (r: string)
    ensures var callAt := |ReportHead| + |tag| + 3;
      var fileAt := callAt + |call| + 1;
      && |r| == fileAt + |file| + 1 + |number|
      && r[..|ReportHead|] == ReportHead
      && r[|ReportHead|..|ReportHead| + |tag|] == tag
      && r[callAt..callAt + |call|] == call
      && r[fileAt..fileAt + |file|] == file
      && r[fileAt + |file| + 1..] == number
  {
    LinePositions(ReportHead, tag, "}: ", call, " ", file, ":", number);
    ReportHead + tag + "}: " + call + " " + file + ":" + number
  }

  /** Where each variable part of a report line sits, whatever the text of
      the fixed parts `head`, `close`, `space` and `colon`. */
  lemma LinePositions(head: string, tag: string, close: string, call: string,
                      space: string, file: string, colon: string, number: string)
    requires |close| == 3 && |space| == 1 && |colon| == 1
    ensures var r := head + tag + close + call + space + file + colon + number;
      var callAt := |head| + |tag| + 3;
      var fileAt := callAt + |call| + 1;
      && |r| == fileAt + |file| + 1 + |number|
      && r[..|head|] == head
      && r[|head|..|head| + |tag|] == tag
      && r[callAt..callAt + |call|] == call
      && r[fileAt..fileAt + |file|] == file
      && r[fileAt + |file| + 1..] == number
  {
    var p1 := head + tag;
    var p2 := p1 + close + call;
    var p3 := p2 + space + file;
    var r := p3 + colon + number;
    PrefixSlice(p3 + colon, number, 0, |head|);
    PrefixSlice(p3, colon, 0, |head|);
    PrefixSlice(p2 + space, file, 0, |head|);
    PrefixSlice(p2, space, 0, |head|);
    PrefixSlice(p1 + close, call, 0, |head|);
    PrefixSlice(p1, close, 0, |head|);
    PrefixSlice(head, tag, 0, |head|);
    PrefixSlice(p3 + colon, number, |head|, |p1|);
    PrefixSlice(p3, colon, |head|, |p1|);
    PrefixSlice(p2 + space, file, |head|, |p1|);
    PrefixSlice(p2, space, |head|, |p1|);
    PrefixSlice(p1 + close, call, |head|, |p1|);
    PrefixSlice(p1, close, |head|, |p1|);
    PrefixSlice(p3 + colon, number, |p1| + 3, |p2|);
    PrefixSlice(p3, colon, |p1| + 3, |p2|);
    PrefixSlice(p2 + space, file, |p1| + 3, |p2|);
    PrefixSlice(p2, space, |p1| + 3, |p2|);
    PrefixSlice(p3 + colon, number, |p2| + 1, |p3|);
    PrefixSlice(p3, colon, |p2| + 1, |p3|);
  }

  /** The fixed text between the variable parts of a report line: "}: "
      after the label, a space after the call, and a colon before the line
      number. */
  lemma ReportLineSeparators(tag: string, call: string, file: string, line: GLint, hex: bool)
    ensures var r := ReportLine(tag, call, file, line, hex);
      var callAt := |ReportHead| + |tag| + 3;
      var fileAt := callAt + |call| + 1;
      && r[|ReportHead| + |tag|..callAt] == "}: "
      && r[callAt + |call|..fileAt] == " "
      && r[fileAt + |file|..fileAt + |file| + 1] == ":"
  {
    var number := LineNumeral(line, hex);
    LineSeparators(ReportHead, tag, "}: ", call, " ", file, ":", number);
    assert ReportLine(tag, call, file, line, hex) == JoinReport(tag, call, file, number)
      == ReportHead + tag + "}: " + call + " " + file + ":" + number;
  }

  /** Where each fixed separator of a report line sits, whatever the text
      of the variable parts. */
  lemma LineSeparators(head: string, tag: string, close: string, call: string,
                       space: string, file: string, colon: string, number: string)
    requires |close| == 3 && |space| == 1 && |colon| == 1
    ensures var r := head + tag + close + call + space + file + colon + number;
      var callAt := |head| + |tag| + 3;
      var fileAt := callAt + |call| + 1;
      && r[|head| + |tag|..callAt] == close
      && r[callAt + |call|..fileAt] == space
      && r[fileAt + |file|..fileAt + |file| + 1] == colon
  {
    var p1 := head + tag;
    var p2 := p1 + close + call;
    var p3 := p2 + space + file;
    PrefixSlice(p3 + colon, number, |p1|, |p1| + 3);
    PrefixSlice(p3, colon, |p1|, |p1| + 3);
    PrefixSlice(p2 + space, file, |p1|, |p1| + 3);
    PrefixSlice(p2, space, |p1|, |p1| + 3);
    PrefixSlice(p1 + close, call, |p1|, |p1| + 3);
    SuffixSlice(p1, close);
    PrefixSlice(p3 + colon, number, |p2|, |p2| + 1);
    PrefixSlice(p3, colon, |p2|, |p2| + 1);
    PrefixSlice(p2 + space, file, |p2|, |p2| + 1);
    SuffixSlice(p2, space);
    PrefixSlice(p3 + colon, number, |p3|, |p3| + 1);
    SuffixSlice(p3, colon);
  }

  lemma SuffixSlice(a: string, b: string)
    ensures (a + b)[|a|..|a| + |b|] == b
  {
  }

  lemma PrefixSlice(a: string, b: string, i: nat, j: nat)
    requires i <= j <= |a|
    ensures (a + b)[i..j] == a[i..j]
  {
  }
}
