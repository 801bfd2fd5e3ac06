/** The bits of text handling the PLY header code relies on: stripping, splitting on blanks,
    decimal numbers, and cutting a file into lines. */
module PlyText {

  datatype Option<T> = None | Some(value: T)

  /** ASCII white space as Python's rstrip knows it. */
  predicate IsSpace(c: char) {
    9 <= c as int <= 13 || 28 <= c as int <= 32
  }

  predicate IsAscii(s: string) {
    forall c <- s :: c as int < 128
  }

  function RStrip(s: string): string {
    if s != [] && IsSpace(s[|s|-1]) then RStrip(s[..|s|-1]) else s
  }

  /** The parts of a string between single blanks. */
  function Split(s: string): (parts: seq<string>)
    ensures parts != []
  {
    if s == [] then [""]
    else
      var rest := Split(s[1..]);
      if s[0] == ' ' then [""] + rest else [[s[0]] + rest[0]] + rest[1..]
  }

  /** A word can stand between blanks and at the end of a line. */
  predicate IsWord(s: string) {
    s != [] && IsAscii(s) && forall c <- s :: !IsSpace(c)
  }

  lemma {:induction false} SplitWord(w: string)
    requires ' ' !in w
    ensures Split(w) == [w]
  {
    if w != [] {
      SplitWord(w[1..]);
      assert [w[0]] + w[1..] == w;
    }
  }

  lemma {:induction false} SplitOffWord(w: string, rest: string)
    requires ' ' !in w
    ensures Split(w + " " + rest) == [w] + Split(rest)
  {
    var s := w + " " + rest;
    if w == [] {
      assert s[1..] == rest;
    } else {
      assert s[1..] == w[1..] + " " + rest;
      SplitOffWord(w[1..], rest);
      assert [w[0]] + w[1..] == w && Split(s) == [[w[0]] + w[1..]] + Split(rest);
    }
  }

  // ---- Decimal numbers ----

  function Digit(d: nat): char
    requires d < 10
  {
    ['0', '1', '2', '3', '4', '5', '6', '7', '8', '9'][d]
  }

  function DigitValue(c: char): Option<nat> {
    if '0' <= c <= '9' then Some(c as int - '0' as int) else None
  }

  function Decimal(n: nat): (s: string) {
    if n < 10 then [Digit(n)] else Decimal(n / 10) + [Digit(n % 10)]
  }

  /** The value of a non-empty string of digits. */
  function ParseDecimal(s: string): Option<nat> {
    if s == [] then None
    else
      var last := DigitValue(s[|s|-1]);
      if |s| == 1 then last
      else
        var front := ParseDecimal(s[..|s|-1]);
        if last == None || front == None then None else Some(10 * front.value + last.value)
  }

  lemma {:induction false} DecimalRoundTrip(n: nat)
    ensures ParseDecimal(Decimal(n)) == Some(n) && IsWord(Decimal(n))
  {
    var s := Decimal(n);
    if n >= 10 {
      DecimalRoundTrip(n / 10);
      assert s[..|s|-1] == Decimal(n / 10);
    }
  }

  // ---- Lines ----

  /** The length of the first line of a file, its newline included. */
  function LineEnd(file: string): (n: nat)
    ensures n <= |file| && (file != [] ==> n > 0)
  {
    if file == [] then 0 else if file[0] == '\n' then 1 else 1 + LineEnd(file[1..])
  }

  predicate IsLine(line: string) {
    line != [] && line[|line|-1] == '\n' && '\n' !in line[..|line|-1]
  }

  lemma {:induction false} FirstLine(line: string, rest: string)
    requires IsLine(line)
    ensures LineEnd(line + rest) == |line|
  {
    if |line| > 1 {
      assert line[0] in line[..|line|-1];
      assert (line + rest)[1..] == line[1..] + rest;
      assert line[1..][..|line|-2] == line[..|line|-1][1..];
      FirstLine(line[1..], rest);
    }
  }

  function Concat(lines: seq<string>): string {
    if lines == [] then [] else lines[0] + Concat(lines[1..])
  }

  lemma {:induction false} ConcatAppend(lines: seq<string>, line: string)
    ensures Concat(lines + [line]) == Concat(lines) + line
  {
    if lines == [] {
      assert [line][1..] == [] && line + [] == line;
    } else {
      assert (lines + [line])[1..] == lines[1..] + [line];
      ConcatAppend(lines[1..], line);
    }
  }
}
