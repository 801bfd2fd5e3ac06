/** The header of a binary PLY file as the calibration visualiser writes and reads it. */
module PlyHeader {
  import opened PlyText

  datatype Error =
    | EmptyFile | NotAscii | NotPly | UnsupportedFormat | UnsupportedVersion
    | WrongNumberOfWords | NotANumber | UnknownType | PropertyWithoutElement | NoFormat

  datatype Result<T> = Ok(value: T) | Err(error: Error)

  /** A field of the point array: its name and numpy type code. */
  datatype Field = Field(name: string, code: char)

  datatype Property = Scalar(name: string, code: char) | List(name: string, countCode: char, itemCode: char)

  datatype Element = Element(kind: string, count: int, properties: seq<Property>)

  /** What reading a header finds; the length counts bytes in binary files. */
  datatype Header = Header(format: string, elements: seq<Element>, length: nat)

  const LITTLE_ENDIAN := "binary_little_endian"
  const BIG_ENDIAN := "binary_big_endian"
  const ASCII := "ascii"
  const COMMENT := "created with Point Cloud Visualizer"
  const END_HEADER := "end_header"

  // the words lines begin with
  const PLY := "ply"
  const FORMAT := "format"
  const COMMENTED := "comment"
  const ELEMENT := "element"
  const PROPERTY := "property"
  const PROPERTY_LIST := "property list"

  const VERTEX := "vertex"
  const VERSION := "1.0"
  const NEWLINE := "\n"

  // ---- Writing ----

  /** The PLY type the writer uses for a type code, if it knows the code. */
  function TypeName(code: char): Option<string> {
    match code
    case 'c' => Some("char")
    case 'B' => Some("uchar")
    case 'h' => Some("short")
    case 'H' => Some("ushort")
    case 'i' => Some("int")
    case 'I' => Some("uint")
    case 'f' => Some("float")
    case 'd' => Some("double")
    case _ => None
  }

  /** The format for the byte order of the field x: '>', '=' for the machine's own, or any
      other sign for little endian. */
  function FormatFor(byteOrder: char, nativeBig: bool): string {
    if byteOrder == '>' || (byteOrder == '=' && nativeBig) then BIG_ENDIAN else LITTLE_ENDIAN
  }

  predicate KnownTypes(fields: seq<Field>) {
    forall f <- fields :: TypeName(f.code).Some?
  }

  function PropertyBody(typeName: string, name: string): string {
    PROPERTY + " " + (typeName + " " + name)
  }

  function FormatBody(format: string): string {
    FORMAT + " " + (format + " " + VERSION)
  }

  function ElementBody(count: nat): string {
    ELEMENT + " " + (VERTEX + " " + Decimal(count))
  }

  function PropertyLine(f: Field): string
    requires TypeName(f.code).Some?
  {
    PropertyBody(TypeName(f.code).value, f.name) + NEWLINE
  }

  function PropertyLines(fields: seq<Field>): (lines: seq<string>)
    requires KnownTypes(fields)
    ensures |lines| == |fields|
  {
    seq(|fields|, i requires 0 <= i < |fields| && KnownTypes(fields) => assert fields[i] in fields; PropertyLine(fields[i]))
  }

  function OpeningLines(format: string, count: nat): seq<string> {
    [PLY + NEWLINE, FormatBody(format) + NEWLINE, ElementBody(count) + NEWLINE]
  }

  function ClosingLines(): seq<string> {
    [COMMENTED + " " + COMMENT + NEWLINE, END_HEADER + NEWLINE]
  }

  function HeaderLines(format: string, count: nat, fields: seq<Field>): seq<string>
    requires KnownTypes(fields)
  {
    OpeningLines(format, count) + PropertyLines(fields) + ClosingLines()
  }

  /** Builds the header; fails on a type code the writer does not know, and on a name that is
      not ASCII. */
  method WriteHeader(byteOrder: char, nativeBig: bool, count: nat, fields: seq<Field>) returns (header: Result<string>)
    ensures !KnownTypes(fields) ==> header == Err(UnknownType)
    ensures KnownTypes(fields) ==>
              var h := Concat(HeaderLines(FormatFor(byteOrder, nativeBig), count, fields));
              header == if IsAscii(h) then Ok(h) else Err(NotAscii)
  {
    var h := PLY + NEWLINE;
    ghost var lines := [PLY + NEWLINE];
    var format := ChooseFormat(byteOrder, nativeBig);
    h, lines := Append(h, lines, FormatBody(format) + NEWLINE);
    h, lines := Append(h, lines, ElementBody(count) + NEWLINE);
    assert lines == OpeningLines(format, count);
    for i := 0 to |fields|
      invariant KnownTypes(fields[..i])
      invariant lines == OpeningLines(format, count) + PropertyLines(fields[..i]) && h == Concat(lines)
    {
      match TypeName(fields[i].code)
      case None =>
        assert fields[i] in fields;
        return Err(UnknownType);
      case Some(t) =>
        h, lines := Append(h, lines, PropertyBody(t, fields[i].name) + NEWLINE);
        OneMoreProperty(fields, i);
    }
    assert fields[..|fields|] == fields;
    ghost var before := lines;
    h, lines := Append(h, lines, COMMENTED + " " + COMMENT + NEWLINE);
    h, lines := Append(h, lines, END_HEADER + NEWLINE);
    assert lines == before + ClosingLines();
    if !IsAscii(h) {
      return Err(NotAscii);
    }
    return Ok(h);
  }

  method ChooseFormat(byteOrder: char, nativeBig: bool) returns (format: string)
    ensures format == FormatFor(byteOrder, nativeBig)
  {
    if byteOrder != '=' {
      if byteOrder == '>' {
        return BIG_ENDIAN;
      } else {
        return LITTLE_ENDIAN;
      }
    } else {
      return if nativeBig then BIG_ENDIAN else LITTLE_ENDIAN;
    }
  }

  lemma OneMoreProperty(fields: seq<Field>, i: nat)
    requires i < |fields| && KnownTypes(fields[..i]) && TypeName(fields[i].code).Some?
    ensures KnownTypes(fields[..i+1])
    ensures PropertyLines(fields[..i+1]) == PropertyLines(fields[..i]) + [PropertyLine(fields[i])]
  {
    assert fields[..i+1] == fields[..i] + [fields[i]];
  }

  method Append(h: string, ghost lines: seq<string>, line: string) returns (h': string, ghost lines': seq<string>)
    requires h == Concat(lines)
    ensures h' == h + line && lines' == lines + [line] && h' == Concat(lines')
  {
    h', lines' := h + line, lines + [line];
    ConcatAppend(lines, line);
  }

  // ---- Reading ----

  /** The type code the reader finds for a PLY type. */
  function TypeCode(name: string): Option<char> {
    if name in ["char", "int8"] then Some('b')
    else if name in ["uchar", "uint8"] then Some('B')
    else if name in ["int16", "short"] then Some('h')
    else if name in ["uint16", "ushort"] then Some('H')
    else if name in ["int", "int32"] then Some('i')
    else if name in ["uint", "uint32"] then Some('I')
    else if name in ["float", "float32"] then Some('f')
    else if name in ["float64", "double"] then Some('d')
    else if name == "string" then Some('s')
    else None
  }

  /** A decimal number with an optional sign. */
  function ParseInt(s: string): Option<int> {
    if s != [] && (s[0] == '-' || s[0] == '+') then
      match ParseDecimal(s[1..])
      case Some(n) => Some(if s[0] == '-' then -(n as int) else n)
      case None => None
    else
      match ParseDecimal(s)
      case Some(n) => Some(n)
      case None => None
  }

  /** The lines up to the end of the header or of the file. */
  function RawLines(file: string): seq<string>
    decreases |file|
  {
    if file == [] then []
    else
      var n := LineEnd(file);
      if RStrip(file[..n]) == END_HEADER then [file[..n]] else [file[..n]] + RawLines(file[n..])
  }

  function Stripped(raw: seq<string>): (lines: seq<string>)
    ensures |lines| == |raw|
  {
    seq(|raw|, i requires 0 <= i < |raw| => RStrip(raw[i]))
  }

  /** What one line does to the format found so far. */
  function FormatStep(found: Option<string>, line: string): Result<Option<string>> {
    if !(FORMAT <= line) then Ok(found)
    else
      var words := Split(line);
      if |words| != 3 then Err(WrongNumberOfWords)
      else if words[1] !in [LITTLE_ENDIAN, BIG_ENDIAN, ASCII] then Err(UnsupportedFormat)
      else if words[2] != VERSION then Err(UnsupportedVersion)
      else Ok(Some(words[1]))
  }

  function FindFormat(lines: seq<string>): Result<Option<string>> {
    if lines == [] then Ok(None)
    else
      match FindFormat(lines[..|lines|-1])
      case Err(e) => Err(e)
      case Ok(found) => FormatStep(found, lines[|lines|-1])
  }

  function AddProperty(elements: seq<Element>, p: Property): seq<Element>
    requires elements != []
  {
    var last := elements[|elements|-1];
    elements[|elements|-1 := last.(properties := last.properties + [p])]
  }

  datatype Kind = PlyLine | FormatLine | CommentLine | ElementLine | ListLine | ScalarLine | OtherLine

  /** What a line is taken for, by the words it begins with. */
  function KindOf(line: string): Kind {
    if PLY <= line then PlyLine
    else if FORMAT <= line then FormatLine
    else if COMMENTED <= line then CommentLine
    else if ELEMENT <= line then ElementLine
    else if PROPERTY <= line then (if PROPERTY_LIST <= line then ListLine else ScalarLine)
    else OtherLine
  }

  /** What one line does to the elements found so far. */
  function ElementStep(elements: seq<Element>, line: string, format: Option<string>): Result<seq<Element>> {
    var words := Split(line);
    match KindOf(line)
    case ElementLine =>
      if |words| != 3 then Err(WrongNumberOfWords)
      else if ParseInt(words[2]).None? then Err(NotANumber)
      else Ok(elements + [Element(words[1], ParseInt(words[2]).value, [])])
    case ListLine =>
      if |words| != 5 then Err(WrongNumberOfWords)
      else if format.None? then Err(NoFormat)
      else if elements == [] then Err(PropertyWithoutElement)
      else if TypeCode(words[2]).None? || TypeCode(words[3]).None? then Err(UnknownType)
      else Ok(AddProperty(elements, List(words[4], TypeCode(words[2]).value, TypeCode(words[3]).value)))
    case ScalarLine =>
      if |words| != 3 then Err(WrongNumberOfWords)
      else if format.None? then Err(NoFormat)
      else if elements == [] then Err(PropertyWithoutElement)
      else if TypeCode(words[1]).None? then Err(UnknownType)
      else Ok(AddProperty(elements, Scalar(words[2], TypeCode(words[1]).value)))
    case _ => Ok(elements)
  }

  function FindElements(lines: seq<string>, format: Option<string>): Result<seq<Element>> {
    if lines == [] then Ok([])
    else
      match FindElements(lines[..|lines|-1], format)
      case Err(e) => Err(e)
      case Ok(elements) => ElementStep(elements, lines[|lines|-1], format)
  }

  /** Reads the header at the start of a file. */
  function Parse(file: string): Result<Header> {
    var raw := RawLines(file);
    var lines := Stripped(raw);
    if !(forall line <- raw :: IsAscii(line)) then Err(NotAscii)
    else if lines == [] then Err(EmptyFile)
    else if lines[0] != PLY then Err(NotPly)
    else
      match FindFormat(lines)
      case Err(e) => Err(e)
      case Ok(format) =>
        match FindElements(lines, format)
        case Err(e) => Err(e)
        case Ok(elements) =>
          if format.None? then Err(NoFormat)
          else Ok(Header(format.value, elements, if format.value == ASCII then |raw| else |Concat(raw)|))
  }

  /** Reads the header at the start of a file, as the reader does it: first it collects the
      lines, then it looks for the format, then for the elements. */
  method ReadHeader(file: string) returns (header: Result<Header>)
    ensures header == Parse(file)
  {
    var raw, lines := CollectLines(file);
    if exists line <- raw :: !IsAscii(line) {
      return Err(NotAscii);
    }
    if |lines| == 0 {
      return Err(EmptyFile);
    }
    if lines[0] != PLY {
      return Err(NotPly);
    }
    var found := ReadFormat(lines);
    if found.Err? {
      return Err(found.error);
    }
    var format := found.value;
    var elements := ReadElements(lines, format);
    if elements.Err? {
      return Err(elements.error);
    }
    if format.None? {
      return Err(NoFormat);
    }
    return Ok(Header(format.value, elements.value, if format.value == ASCII then |raw| else |Concat(raw)|));
  }

  method ReadFormat(lines: seq<string>) returns (format: Result<Option<string>>)
    ensures format == FindFormat(lines)
  {
    var found := None;
    for i := 0 to |lines|
      invariant FindFormat(lines[..i]) == Ok(found)
    {
      assert lines[..i+1][..i] == lines[..i];
      match FormatStep(found, lines[i])
      case Err(e) =>
        FormatErrorStays(lines, i + 1);
        return Err(e);
      case Ok(f) => found := f;
    }
    assert lines[..|lines|] == lines;
    return Ok(found);
  }

  method ReadElements(lines: seq<string>, format: Option<string>) returns (elements: Result<seq<Element>>)
    ensures elements == FindElements(lines, format)
  {
    var found := [];
    for i := 0 to |lines|
      invariant FindElements(lines[..i], format) == Ok(found)
    {
      assert lines[..i+1][..i] == lines[..i];
      match ElementStep(found, lines[i], format)
      case Err(e) =>
        ElementErrorStays(lines, i + 1, format);
        return Err(e);
      case Ok(es) => found := es;
    }
    assert lines[..|lines|] == lines;
    return Ok(found);
  }

  lemma {:induction false} FormatErrorStays(lines: seq<string>, n: nat)
    requires n <= |lines| && FindFormat(lines[..n]).Err?
    ensures FindFormat(lines) == FindFormat(lines[..n])
    decreases |lines|
  {
    if n < |lines| {
      assert lines[..|lines|-1][..n] == lines[..n];
      FormatErrorStays(lines[..|lines|-1], n);
    } else {
      assert lines[..n] == lines;
    }
  }

  lemma {:induction false} ElementErrorStays(lines: seq<string>, n: nat, format: Option<string>)
    requires n <= |lines| && FindElements(lines[..n], format).Err?
    ensures FindElements(lines, format) == FindElements(lines[..n], format)
    decreases |lines|
  {
    if n < |lines| {
      assert lines[..|lines|-1][..n] == lines[..n];
      ElementErrorStays(lines[..|lines|-1], n, format);
    } else {
      assert lines[..n] == lines;
    }
  }

  /** Collects the lines up to the end of the header, as they are and stripped. */
  method CollectLines(file: string) returns (raw: seq<string>, lines: seq<string>)
    ensures raw == RawLines(file) && lines == Stripped(raw)
  {
    raw, lines := [], [];
    var rest := file;
    while rest != []
      invariant RawLines(file) == raw + RawLines(rest)
      invariant lines == Stripped(raw)
      decreases |rest|
    {
      var n := LineEnd(rest);
      var l, a := rest[..n], RStrip(rest[..n]);
      assert raw + ([l] + RawLines(rest[n..])) == (raw + [l]) + RawLines(rest[n..]);
      assert Stripped(raw + [l]) == Stripped(raw) + [a];
      raw, lines := raw + [l], lines + [a];
      if a == END_HEADER {
        return;
      }
      rest := rest[n..];
    }
  }

  // ---- The round trip ----

  /** A line of the header as the writer makes it. */
  predicate IsHeaderLine(line: string) {
    IsLine(line) && IsAscii(line) && |line| > 1 && !IsSpace(line[|line|-2])
  }

  lemma HeaderLineStrips(line: string)
    requires IsHeaderLine(line)
    ensures RStrip(line) == line[..|line|-1]
  {
    var body := line[..|line|-1];
    assert RStrip(body) == body;
  }

  lemma OneRawLine(first: string, rest: string)
    requires IsHeaderLine(first)
    ensures RawLines(first + rest) == if RStrip(first) == END_HEADER then [first] else [first] + RawLines(rest)
  {
    var file := first + rest;
    FirstLine(first, rest);
    assert file[..|first|] == first && file[|first|..] == rest;
  }

  /** Header lines of which the last one, and no other, ends the header. */
  predicate AreHeader(lines: seq<string>)
    decreases |lines|
  {
    && lines != [] && IsHeaderLine(lines[0])
    && if |lines| == 1 then RStrip(lines[0]) == END_HEADER
       else RStrip(lines[0]) != END_HEADER && AreHeader(lines[1..])
  }

  /** Reading lines back from the text they make up: reading stops at the end of the header
      and does not look at what follows. */
  lemma {:induction false} LinesAreReadBack(lines: seq<string>, payload: string)
    requires AreHeader(lines)
    ensures RawLines(Concat(lines) + payload) == lines
    decreases |lines|
  {
    var first, rest := lines[0], Concat(lines[1..]) + payload;
    assert Concat(lines) + payload == first + rest;
    OneRawLine(first, rest);
    if |lines| > 1 {
      LinesAreReadBack(lines[1..], payload);
    }
  }

  /** The fields whose header can be read back: names are words, and the writer knows the
      type codes. */
  predicate AreWritable(fields: seq<Field>) {
    KnownTypes(fields) && forall f <- fields :: IsWord(f.name)
  }

  /** The property the reader finds for a field the writer wrote. */
  function ReadBack(f: Field): Property
    requires TypeName(f.code).Some?
  {
    Scalar(f.name, if f.code == 'c' then 'b' else f.code)
  }

  function ReadBackAll(fields: seq<Field>): (properties: seq<Property>)
    requires KnownTypes(fields)
    ensures |properties| == |fields|
  {
    seq(|fields|, i requires 0 <= i < |fields| && KnownTypes(fields) => assert fields[i] in fields; ReadBack(fields[i]))
  }

  lemma TypeIsReadBack(code: char)
    requires TypeName(code).Some?
    ensures TypeCode(TypeName(code).value) == Some(if code == 'c' then 'b' else code)
    ensures IsWord(TypeName(code).value)
  {
  }

  // What lines beginning with a word are taken for.

  lemma PropertyKind(typeName: string, name: string)
    requires typeName != [] && typeName[0] != 'l'
    ensures KindOf(PropertyBody(typeName, name)) == ScalarLine && !(FORMAT <= PropertyBody(typeName, name))
  {
    var line := PropertyBody(typeName, name);
    assert line[0] == 'p' && line[1] == 'r' && line[9] == typeName[0];
    assert PLY[1] == 'l' && FORMAT[0] == 'f' && COMMENTED[0] == 'c' && ELEMENT[0] == 'e' && PROPERTY_LIST[9] == 'l';
  }

  lemma FormatKind(format: string)
    ensures KindOf(FormatBody(format)) == FormatLine && FORMAT <= FormatBody(format)
  {
    assert FormatBody(format)[0] == 'f' && PLY[0] == 'p';
  }

  lemma ElementKind(count: nat)
    ensures KindOf(ElementBody(count)) == ElementLine && !(FORMAT <= ElementBody(count))
  {
    assert ElementBody(count)[0] == 'e' && PLY[0] == 'p' && FORMAT[0] == 'f' && COMMENTED[0] == 'c';
  }

  lemma ClosingKinds()
    ensures KindOf(COMMENTED + " " + COMMENT) == CommentLine && !(FORMAT <= COMMENTED + " " + COMMENT)
    ensures KindOf(END_HEADER) == OtherLine && !(FORMAT <= END_HEADER)
    ensures KindOf(PLY) == PlyLine && !(FORMAT <= PLY)
  {
    var comment := COMMENTED + " " + COMMENT;
    assert comment[0] == 'c' && END_HEADER[0] == 'e' && END_HEADER[1] == 'n';
    assert PLY[0] == 'p' && FORMAT[0] == 'f' && COMMENTED[0] == 'c' && ELEMENT[1] == 'l' && PROPERTY[0] == 'p';
  }

  // What their words are.

  lemma SplitThree(a: string, b: string, c: string)
    requires ' ' !in a && ' ' !in b && ' ' !in c
    ensures Split(a + " " + (b + " " + c)) == [a, b, c]
  {
    SplitOffWord(a, b + " " + c);
    SplitOffWord(b, c);
    SplitWord(c);
  }

  /** The text of a header line: ASCII without newline, and nothing to strip at its end. */
  predicate IsBody(body: string) {
    body != [] && IsAscii(body) && '\n' !in body && !IsSpace(body[|body|-1])
  }

  lemma BodyMakesHeaderLine(body: string)
    requires IsBody(body)
    ensures IsHeaderLine(body + NEWLINE) && RStrip(body + NEWLINE) == body
  {
    var line := body + NEWLINE;
    assert line[..|line|-1] == body && line[|line|-2] == body[|body|-1];
    HeaderLineStrips(line);
  }

  lemma ThreeWordsMakeBody(a: string, b: string, c: string)
    requires IsWord(a) && IsWord(b) && IsWord(c)
    ensures IsBody(a + " " + (b + " " + c))
  {
    var body := a + " " + (b + " " + c);
    assert body[|body|-1] == c[|c|-1];
    assert forall x <- body :: x in a || x == ' ' || x in b || x in c;
  }

  lemma KeywordsAreWords()
    ensures IsWord(PROPERTY) && IsWord(FORMAT) && IsWord(ELEMENT) && IsWord(VERTEX) && IsWord(VERSION)
  {
  }

  lemma LittleEndianIsWord()
    ensures IsWord(LITTLE_ENDIAN)
  {
  }

  lemma BigEndianIsWord()
    ensures IsWord(BIG_ENDIAN)
  {
  }

  lemma FixedLinesAreBodies()
    ensures IsBody(PLY) && IsBody(END_HEADER)
  {
  }

  lemma CommentIsAscii()
    ensures IsAscii(COMMENT) && '\n' !in COMMENT
  {
  }

  lemma CommentIsBody()
    ensures IsBody(COMMENTED + " " + COMMENT)
  {
    var body := COMMENTED + " " + COMMENT;
    assert body[|body|-1] == COMMENT[|COMMENT|-1];
    CommentIsAscii();
    assert forall x <- body :: x in COMMENTED || x == ' ' || x in COMMENT;
  }

  // What reading them does.

  lemma PropertyIsReadBack(f: Field, elements: seq<Element>, format: string)
    requires TypeName(f.code).Some? && IsWord(f.name) && elements != []
    ensures var line := RStrip(PropertyLine(f));
            && FormatStep(Some(format), line) == Ok(Some(format))
            && ElementStep(elements, line, Some(format)) == Ok(AddProperty(elements, ReadBack(f)))
    ensures IsHeaderLine(PropertyLine(f)) && RStrip(PropertyLine(f)) != END_HEADER
  {
    var t := TypeName(f.code).value;
    var body := PropertyBody(t, f.name);
    TypeIsReadBack(f.code);
    KeywordsAreWords();
    ThreeWordsMakeBody(PROPERTY, t, f.name);
    BodyMakesHeaderLine(body);
    SplitThree(PROPERTY, t, f.name);
    PropertyKind(t, f.name);
    ClosingKinds();
  }

  lemma FormatIsReadBack(format: string)
    requires format in [LITTLE_ENDIAN, BIG_ENDIAN]
    ensures var line := FormatBody(format);
            && FormatStep(None, line) == Ok(Some(format))
            && ElementStep([], line, Some(format)) == Ok([])
    ensures IsBody(FormatBody(format)) && FormatBody(format) != END_HEADER
  {
    KeywordsAreWords();
    LittleEndianIsWord();
    BigEndianIsWord();
    ThreeWordsMakeBody(FORMAT, format, VERSION);
    SplitThree(FORMAT, format, VERSION);
    FormatKind(format);
    ClosingKinds();
  }

  lemma ElementIsReadBack(count: nat, format: string)
    ensures var line := ElementBody(count);
            && FormatStep(Some(format), line) == Ok(Some(format))
            && ElementStep([], line, Some(format)) == Ok([Element(VERTEX, count, [])])
    ensures IsBody(ElementBody(count)) && ElementBody(count) != END_HEADER
  {
    KeywordsAreWords();
    DecimalRoundTrip(count);
    DecimalHasNoSign(count);
    assert [] + [Element(VERTEX, count, [])] == [Element(VERTEX, count, [])];
    ThreeWordsMakeBody(ELEMENT, VERTEX, Decimal(count));
    SplitThree(ELEMENT, VERTEX, Decimal(count));
    ElementKind(count);
    ClosingKinds();
  }

  lemma {:induction false} DecimalHasNoSign(n: nat)
    ensures var s := Decimal(n); s != [] && s[0] != '-' && s[0] != '+'
  {
    if n >= 10 {
      DecimalHasNoSign(n / 10);
      assert Decimal(n)[0] == Decimal(n / 10)[0];
    } else {
      assert DigitValue(Digit(n)) == Some(n);
    }
  }

  // What lines of other programs do.

  /** A format line is accepted exactly if it names a supported format and version 1.0. */
  lemma FormatsAreChecked(found: Option<string>, format: string, version: string)
    requires ' ' !in format && ' ' !in version
    ensures FormatStep(found, FORMAT + " " + (format + " " + version)) ==
            if format !in {LITTLE_ENDIAN, BIG_ENDIAN, ASCII} then Err(UnsupportedFormat)
            else if version != "1.0" then Err(UnsupportedVersion)
            else Ok(Some(format))
  {
    KeywordsAreWords();
    SplitThree(FORMAT, format, version);
  }

  /** A property line is accepted exactly if there are a format and an element before it and its
      type is known, and it adds the property to the last element. */
  lemma ScalarsAreChecked(elements: seq<Element>, typeName: string, name: string, format: Option<string>)
    requires ' ' !in typeName && ' ' !in name && typeName != [] && typeName[0] != 'l'
    ensures ElementStep(elements, PropertyBody(typeName, name), format) ==
            if format == None then Err(NoFormat)
            else if elements == [] then Err(PropertyWithoutElement)
            else if TypeCode(typeName) == None then Err(UnknownType)
            else Ok(AddProperty(elements, Scalar(name, TypeCode(typeName).value)))
  {
    KeywordsAreWords();
    SplitThree(PROPERTY, typeName, name);
    PropertyKind(typeName, name);
  }

  /** An element line is accepted exactly if its count is a number, and begins a new element. */
  lemma ElementsAreChecked(elements: seq<Element>, kind: string, count: string, format: Option<string>)
    requires ' ' !in kind && ' ' !in count
    ensures ElementStep(elements, ELEMENT + " " + (kind + " " + count), format) ==
            if ParseInt(count) == None then Err(NotANumber)
            else Ok(elements + [Element(kind, ParseInt(count).value, [])])
  {
    KeywordsAreWords();
    SplitThree(ELEMENT, kind, count);
    var line := ELEMENT + " " + (kind + " " + count);
    assert line[0] == 'e' && line[..7] == ELEMENT;
    assert PLY[0] == 'p' && FORMAT[0] == 'f' && COMMENTED[0] == 'c';
  }

  lemma NumbersHaveSigns(n: nat)
    ensures ParseInt(Decimal(n)) == Some(n) && ParseInt("+" + Decimal(n)) == Some(n) && ParseInt("-" + Decimal(n)) == Some(-(n as int))
  {
    DecimalRoundTrip(n);
    DecimalHasNoSign(n);
    assert ("+" + Decimal(n))[1..] == Decimal(n) && ("-" + Decimal(n))[1..] == Decimal(n);
  }

  lemma {:induction false} FoundFormatsAreSupported(lines: seq<string>)
    ensures var found := FindFormat(lines);
            found.Ok? && found.value.Some? ==>
              found.value.value in {LITTLE_ENDIAN, BIG_ENDIAN, ASCII} && exists line <- lines :: FORMAT <= line
  {
    if lines != [] {
      var before, last := lines[..|lines|-1], lines[|lines|-1];
      FoundFormatsAreSupported(before);
      assert last in lines && forall line <- before :: line in lines;
    }
  }

  /** What is not a PLY header is rejected: text that is not ASCII, an empty file, a first line
      other than the magic one; and a header that is accepted names a supported format. */
  lemma HeadersAreChecked(file: string)
    ensures (exists line <- RawLines(file) :: !IsAscii(line)) <==> Parse(file) == Err(NotAscii)
    ensures file == "" ==> Parse(file) == Err(EmptyFile)
    ensures Parse(file).Ok? ==>
              && file != "" && RStrip(file[..LineEnd(file)]) == "ply"
              && Parse(file).value.format in {"binary_little_endian", "binary_big_endian", "ascii"}
              && exists line <- Stripped(RawLines(file)) :: FORMAT <= line
  {
    var lines := Stripped(RawLines(file));
    FoundFormatsAreSupported(lines);
    ErrorsOfLines(lines);
    if file != "" {
      assert RawLines(file)[0] == file[..LineEnd(file)];
    }
  }

  /** The passes over the lines have errors of their own. */
  lemma {:induction false} ErrorsOfLines(lines: seq<string>)
    ensures FindFormat(lines) != Err(NotAscii)
    ensures forall format :: FindElements(lines, format) != Err(NotAscii)
  {
    if lines != [] {
      ErrorsOfLines(lines[..|lines|-1]);
    }
  }

  lemma SplitFive(a: string, b: string, c: string, d: string, e: string)
    requires ' ' !in a && ' ' !in b && ' ' !in c && ' ' !in d && ' ' !in e
    ensures Split(a + " " + (b + " " + (c + " " + (d + " " + e)))) == [a, b, c, d, e]
  {
    var last := c + " " + (d + " " + e);
    SplitThree(c, d, e);
    SplitOffWord(b, last);
    SplitOffWord(a, b + " " + last);
  }

  const LIST := "list"

  function ListBody(countType: string, itemType: string, name: string): string {
    PROPERTY + " " + (LIST + " " + (countType + " " + (itemType + " " + name)))
  }

  lemma ListKind(countType: string, itemType: string, name: string)
    ensures KindOf(ListBody(countType, itemType, name)) == ListLine
  {
    var line := ListBody(countType, itemType, name);
    assert line[..13] == PROPERTY_LIST;
    assert line[0] == 'p' && line[1] == 'r' && PLY[1] == 'l' && FORMAT[0] == 'f' && COMMENTED[0] == 'c' && ELEMENT[0] == 'e';
    assert line[..8] == PROPERTY;
  }

  /** A list line gives the type of the count, the type of the items and the name, in this order. */
  lemma ListsAreRead(elements: seq<Element>, countType: string, itemType: string, name: string, format: string)
    requires elements != [] && ' ' !in countType && ' ' !in itemType && ' ' !in name
    requires TypeCode(countType) != None && TypeCode(itemType) != None
    ensures ElementStep(elements, ListBody(countType, itemType, name), Some(format)) ==
            Ok(AddProperty(elements, List(name, TypeCode(countType).value, TypeCode(itemType).value)))
  {
    KeywordsAreWords();
    assert ' ' !in LIST;
    SplitFive(PROPERTY, LIST, countType, itemType, name);
    ListKind(countType, itemType, name);
  }

  /** A header as it stands in the file. */
  lemma HeaderInFull()
    ensures HeaderLines(LITTLE_ENDIAN, 2, [Field("x", 'f'), Field("red", 'B')]) ==
            ["ply\n", "format binary_little_endian 1.0\n", "element vertex 2\n",
             "property float x\n", "property uchar red\n",
             "comment " + COMMENT + "\n", "end_header\n"]
  {
    OpeningInFull();
    PropertiesInFull();
    ClosingInFull();
  }

  lemma OpeningInFull()
    ensures OpeningLines(LITTLE_ENDIAN, 2) == ["ply\n", "format binary_little_endian 1.0\n", "element vertex 2\n"]
  {
    assert Decimal(2) == "2" by {
      assert Digit(2) == '2';
    }
    assert PLY + NEWLINE == "ply\n";
    assert FormatBody(LITTLE_ENDIAN) + NEWLINE == "format binary_little_endian 1.0\n";
    assert ElementBody(2) + NEWLINE == "element vertex 2\n";
  }

  lemma PropertiesInFull()
    ensures PropertyLines([Field("x", 'f'), Field("red", 'B')]) == ["property float x\n", "property uchar red\n"]
  {
    var fields := [Field("x", 'f'), Field("red", 'B')];
    assert fields[0] in fields && fields[1] in fields;
    assert PropertyLine(fields[0]) == "property float x\n";
    assert PropertyLine(fields[1]) == "property uchar red\n";
  }

  lemma ClosingInFull()
    ensures ClosingLines() == ["comment " + COMMENT + "\n", "end_header\n"]
  {
    assert COMMENTED + " " == "comment ";
    assert END_HEADER + NEWLINE == "end_header\n";
  }

  // The header as a whole.

  /** Reading one more line. */
  lemma OneMoreLine(lines: seq<string>, line: string, format: Option<string>)
    ensures FindFormat(lines).Ok? ==> FindFormat(lines + [line]) == FormatStep(FindFormat(lines).value, line)
    ensures FindElements(lines, format).Ok? ==>
              FindElements(lines + [line], format) == ElementStep(FindElements(lines, format).value, line, format)
  {
    var all := lines + [line];
    assert all[..|all|-1] == lines;
  }

  lemma OpeningIsReadBack(format: string, count: nat)
    requires format in [LITTLE_ENDIAN, BIG_ENDIAN]
    ensures var lines := [PLY, FormatBody(format), ElementBody(count)];
            && FindFormat(lines) == Ok(Some(format))
            && FindElements(lines, Some(format)) == Ok([Element(VERTEX, count, [])])
  {
    ClosingKinds();
    OneMoreLine([], PLY, Some(format));
    FormatIsReadBack(format);
    OneMoreLine([PLY], FormatBody(format), Some(format));
    ElementIsReadBack(count, format);
    OneMoreLine([PLY, FormatBody(format)], ElementBody(count), Some(format));
    assert [] + [PLY] == [PLY];
    assert [PLY] + [FormatBody(format)] == [PLY, FormatBody(format)];
    assert [PLY, FormatBody(format)] + [ElementBody(count)] == [PLY, FormatBody(format), ElementBody(count)];
  }

  lemma PropertyLineIsReadBack(lines: seq<string>, format: string, elements: seq<Element>, f: Field)
    requires TypeName(f.code).Some? && IsWord(f.name) && elements != []
    requires FindFormat(lines) == Ok(Some(format)) && FindElements(lines, Some(format)) == Ok(elements)
    ensures var all := lines + [RStrip(PropertyLine(f))];
            && FindFormat(all) == Ok(Some(format))
            && FindElements(all, Some(format)) == Ok(AddProperty(elements, ReadBack(f)))
  {
    PropertyIsReadBack(f, elements, format);
    OneMoreLine(lines, RStrip(PropertyLine(f)), Some(format));
  }

  /** What the reader has found after the first lines of a written header: the format, and
      the vertex element with the properties so far. */
  lemma {:induction false} FieldsAreReadBack(lines: seq<string>, format: string, count: nat, fields: seq<Field>, k: nat)
    requires format in [LITTLE_ENDIAN, BIG_ENDIAN] && AreWritable(fields) && k <= |fields| && |lines| == 3 + k
    requires lines[0] == PLY && lines[1] == FormatBody(format) && lines[2] == ElementBody(count)
    requires forall i :: 0 <= i < k ==> lines[3 + i] == RStrip(PropertyLine(fields[i]))
    ensures FindFormat(lines) == Ok(Some(format))
    ensures FindElements(lines, Some(format)) == Ok([Element(VERTEX, count, ReadBackAll(fields)[..k])])
  {
    if k == 0 {
      assert lines == [PLY, FormatBody(format), ElementBody(count)];
      assert ReadBackAll(fields)[..0] == [];
      OpeningIsReadBack(format, count);
    } else {
      var before := [Element(VERTEX, count, ReadBackAll(fields)[..k-1])];
      FieldsAreReadBack(lines[..2+k], format, count, fields, k - 1);
      assert fields[k-1] in fields;
      PropertyLineIsReadBack(lines[..2+k], format, before, fields[k-1]);
      assert lines == lines[..2+k] + [lines[2+k]];
      assert ReadBackAll(fields)[..k] == ReadBackAll(fields)[..k-1] + [ReadBack(fields[k-1])];
      assert AddProperty(before, ReadBack(fields[k-1])) == [Element(VERTEX, count, ReadBackAll(fields)[..k])];
    }
  }

  lemma ClosingIsReadBack(lines: seq<string>, format: string, elements: seq<Element>)
    requires FindFormat(lines) == Ok(Some(format)) && FindElements(lines, Some(format)) == Ok(elements)
    ensures var all := lines + [COMMENTED + " " + COMMENT, END_HEADER];
            FindFormat(all) == Ok(Some(format)) && FindElements(all, Some(format)) == Ok(elements)
  {
    var comment := COMMENTED + " " + COMMENT;
    ClosingKinds();
    OneMoreLine(lines, comment, Some(format));
    OneMoreLine(lines + [comment], END_HEADER, Some(format));
    assert lines + [comment] + [END_HEADER] == lines + [comment, END_HEADER];
  }

  /** A line of the writer that does not end the header. */
  predicate IsInnerLine(line: string) {
    IsHeaderLine(line) && RStrip(line) != END_HEADER
  }

  lemma OpeningLinesAreProper(format: string, count: nat)
    requires format in [LITTLE_ENDIAN, BIG_ENDIAN]
    ensures forall line <- OpeningLines(format, count) :: IsInnerLine(line)
    ensures Stripped(OpeningLines(format, count)) == [PLY, FormatBody(format), ElementBody(count)]
  {
    FixedLinesAreBodies();
    ClosingKinds();
    FormatIsReadBack(format);
    ElementIsReadBack(count, format);
    BodyMakesHeaderLine(PLY);
    BodyMakesHeaderLine(FormatBody(format));
    BodyMakesHeaderLine(ElementBody(count));
  }

  lemma ClosingLinesAreProper()
    ensures IsInnerLine(ClosingLines()[0]) && IsHeaderLine(ClosingLines()[1])
    ensures Stripped(ClosingLines()) == [COMMENTED + " " + COMMENT, END_HEADER]
  {
    FixedLinesAreBodies();
    CommentIsBody();
    ClosingKinds();
    BodyMakesHeaderLine(END_HEADER);
    BodyMakesHeaderLine(COMMENTED + " " + COMMENT);
  }

  lemma PropertyLinesAreProper(fields: seq<Field>)
    requires AreWritable(fields)
    ensures forall line <- PropertyLines(fields) :: IsInnerLine(line)
  {
    forall i | 0 <= i < |fields|
      ensures IsInnerLine(PropertyLines(fields)[i])
    {
      assert fields[i] in fields;
      PropertyIsReadBack(fields[i], [Element(VERTEX, 0, [])], LITTLE_ENDIAN);
    }
  }

  /** Every line the writer makes is a proper header line, and only the last one ends the
      header. */
  lemma WrittenLinesAreProper(format: string, count: nat, fields: seq<Field>)
    requires format in [LITTLE_ENDIAN, BIG_ENDIAN] && AreWritable(fields)
    ensures var lines := HeaderLines(format, count, fields);
            (forall line <- lines :: IsHeaderLine(line)) && AreHeader(lines)
  {
    OpeningLinesAreProper(format, count);
    PropertyLinesAreProper(fields);
    ClosingLinesAreProper();
    var lines := HeaderLines(format, count, fields);
    var n := |lines| - 1;
    assert lines[n] == ClosingLines()[1] && lines[n-1] == ClosingLines()[0];
    assert forall i :: 0 <= i < n ==> IsInnerLine(lines[i]);
    InnerLinesBeforeLast(lines);
  }

  lemma {:induction false} InnerLinesBeforeLast(lines: seq<string>)
    requires lines != [] && IsHeaderLine(lines[|lines|-1]) && RStrip(lines[|lines|-1]) == END_HEADER
    requires forall i :: 0 <= i < |lines| - 1 ==> IsInnerLine(lines[i])
    ensures AreHeader(lines)
    decreases |lines|
  {
    if |lines| > 1 {
      InnerLinesBeforeLast(lines[1..]);
    }
  }

  lemma {:induction false} ConcatIsAscii(lines: seq<string>)
    requires forall line <- lines :: IsAscii(line)
    ensures IsAscii(Concat(lines))
  {
    if lines != [] {
      assert lines[0] in lines;
      ConcatIsAscii(lines[1..]);
    }
  }

  lemma StrippedLinesAreReadBack(format: string, count: nat, fields: seq<Field>)
    requires format in [LITTLE_ENDIAN, BIG_ENDIAN] && AreWritable(fields)
    ensures var lines := Stripped(HeaderLines(format, count, fields));
            && FindFormat(lines) == Ok(Some(format))
            && FindElements(lines, Some(format)) == Ok([Element(VERTEX, count, ReadBackAll(fields))])
  {
    OpeningLinesAreProper(format, count);
    ClosingLinesAreProper();
    var lines := Stripped(HeaderLines(format, count, fields));
    var front := lines[..3 + |fields|];
    assert front[..3] == Stripped(OpeningLines(format, count));
    assert lines[3 + |fields|..] == Stripped(ClosingLines());
    FieldsAreReadBack(front, format, count, fields, |fields|);
    assert ReadBackAll(fields)[..|fields|] == ReadBackAll(fields);
    ClosingIsReadBack(front, format, [Element(VERTEX, count, ReadBackAll(fields))]);
    assert lines == front + [COMMENTED + " " + COMMENT, END_HEADER];
  }

  /** What is written is read back: a header is written, and reading it gives the same format,
      the vertex count and the fields in order, and a length of exactly the bytes written,
      whatever follows the header. */
  lemma HeaderRoundTrip(format: string, count: nat, fields: seq<Field>, payload: string)
    requires format in [LITTLE_ENDIAN, BIG_ENDIAN] && AreWritable(fields)
    ensures var header := Concat(HeaderLines(format, count, fields));
            && IsAscii(header)
            && Parse(header + payload) == Ok(Header(format, [Element(VERTEX, count, ReadBackAll(fields))], |header|))
  {
    var raw := HeaderLines(format, count, fields);
    WrittenLinesAreProper(format, count, fields);
    ClosingLinesAreProper();
    assert RStrip(raw[|raw|-1]) == Stripped(ClosingLines())[1];
    LinesAreReadBack(raw, payload);
    StrippedLinesAreReadBack(format, count, fields);
    assert Stripped(raw)[0] == Stripped(OpeningLines(format, count))[0];
    OpeningLinesAreProper(format, count);
    FormatsDiffer();
    ConcatIsAscii(raw);
    ParsedAs(Concat(raw) + payload, raw, format, [Element(VERTEX, count, ReadBackAll(fields))]);
  }

  lemma ParsedAs(file: string, raw: seq<string>, format: string, elements: seq<Element>)
    requires RawLines(file) == raw && raw != [] && Stripped(raw)[0] == PLY && format != ASCII
    requires forall line <- raw :: IsAscii(line)
    requires FindFormat(Stripped(raw)) == Ok(Some(format))
    requires FindElements(Stripped(raw), Some(format)) == Ok(elements)
    ensures Parse(file) == Ok(Header(format, elements, |Concat(raw)|))
  {
  }

  lemma FormatsDiffer()
    ensures LITTLE_ENDIAN != ASCII && BIG_ENDIAN != ASCII
  {
    assert LITTLE_ENDIAN[0] == 'b' && BIG_ENDIAN[0] == 'b' && ASCII[0] == 'a';
  }

  /** The properties that stand for the fields unchanged. */
  function AsProperties(fields: seq<Field>): seq<Property> {
    seq(|fields|, i requires 0 <= i < |fields| => Scalar(fields[i].name, fields[i].code))
  }

  /** The fields come back with the types they were written with exactly when none of them
      is a signed byte under its code 'c': that one comes back as 'b', a code the writer
      does not know. */
  lemma FieldsSurviveExactly(format: string, count: nat, fields: seq<Field>, payload: string)
    requires format in [LITTLE_ENDIAN, BIG_ENDIAN] && AreWritable(fields)
    ensures var header := Concat(HeaderLines(format, count, fields));
            Parse(header + payload) == Ok(Header(format, [Element(VERTEX, count, AsProperties(fields))], |header|))
            <==> forall f <- fields :: f.code != 'c'
  {
    HeaderRoundTrip(format, count, fields, payload);
    if forall f <- fields :: f.code != 'c' {
      assert AsProperties(fields) == ReadBackAll(fields);
    } else {
      var i :| 0 <= i < |fields| && fields[i].code == 'c';
      assert ReadBackAll(fields)[i] != AsProperties(fields)[i];
    }
  }
}
