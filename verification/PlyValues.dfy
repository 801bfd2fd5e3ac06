/** Values behind a PLY header: what the writer lays out in the byte order of its points comes
    back under the byte order and the types the reader takes from the header. */
module PlyValues {
  import opened PlyText
  import opened PlyHeader

  // ---- Byte order ----

  type Byte = b: int | 0 <= b < 256

  /** The bytes of a number, least significant first. */
  function Bytes(n: nat, size: nat): (bytes: seq<Byte>)
    ensures |bytes| == size
  {
    if size == 0 then [] else [n % 256] + Bytes(n / 256, size - 1)
  }

  function Number(bytes: seq<Byte>): nat {
    if bytes == [] then 0 else bytes[0] + 256 * Number(bytes[1..])
  }

  function Reverse(bytes: seq<Byte>): (r: seq<Byte>)
    ensures |r| == |bytes|
  {
    seq(|bytes|, i requires 0 <= i < |bytes| => bytes[|bytes| - 1 - i])
  }

  function Power(size: nat): (p: nat)
    ensures p > 0
  {
    if size == 0 then 1 else 256 * Power(size - 1)
  }

  /** How the points of an array lie in memory and in the file: the most significant byte comes
      first under '>', and under '=' on a big-endian machine. */
  function LayOut(n: nat, size: nat, byteOrder: char, nativeBig: bool): seq<Byte> {
    if byteOrder == '>' || (byteOrder == '=' && nativeBig) then Reverse(Bytes(n, size)) else Bytes(n, size)
  }

  /** The byte order the reader takes from the format. */
  function OrderOf(format: string): Option<char> {
    if format == LITTLE_ENDIAN then Some('<')
    else if format == BIG_ENDIAN then Some('>')
    else None
  }

  function Decode(order: char, bytes: seq<Byte>): nat {
    Number(if order == '>' then Reverse(bytes) else bytes)
  }

  lemma {:induction false} BytesAreReadBack(n: nat, size: nat)
    requires n < Power(size)
    ensures Number(Bytes(n, size)) == n
    decreases size
  {
    if size > 0 {
      assert n / 256 < Power(size - 1);
      BytesAreReadBack(n / 256, size - 1);
      assert Bytes(n, size)[1..] == Bytes(n / 256, size - 1);
    }
  }

  lemma ReverseTwice(bytes: seq<Byte>)
    ensures Reverse(Reverse(bytes)) == bytes
  {
  }

  lemma OrdersAgree(byteOrder: char, nativeBig: bool)
    ensures OrderOf(FormatFor(byteOrder, nativeBig)) ==
            Some(if byteOrder == '>' || (byteOrder == '=' && nativeBig) then '>' else '<')
  {
    assert LITTLE_ENDIAN[7] == 'l' && BIG_ENDIAN[7] == 'b';
  }

  /** Bytes as they stand in the file. */
  function AsText(bytes: seq<Byte>): string {
    seq(|bytes|, i requires 0 <= i < |bytes| => bytes[i] as char)
  }

  function ByteOf(c: char): Byte {
    c as int % 256
  }

  function FromText(text: string): seq<Byte> {
    seq(|text|, i requires 0 <= i < |text| => ByteOf(text[i]))
  }

  lemma TextIsReadBack(bytes: seq<Byte>)
    ensures FromText(AsText(bytes)) == bytes
  {
  }

  /** The number at the start of the points of a file, read as the header says. */
  function FirstNumber(file: string, size: nat): Option<nat> {
    match Parse(file)
    case Err(_) => None
    case Ok(header) =>
      if OrderOf(header.format).None? || header.length + size > |file| then None
      else Some(Decode(OrderOf(header.format).value, FromText(file[header.length..header.length + size])))
  }

  /** A number laid out in the byte order of the points, behind the header the writer makes for
      this byte order, is found again by the reader, whatever the machine and the order are. */
  lemma NumbersAreReadBack(byteOrder: char, nativeBig: bool, count: nat, fields: seq<Field>, n: nat, size: nat, rest: string)
    requires AreWritable(fields) && n < Power(size)
    ensures var header := Concat(HeaderLines(FormatFor(byteOrder, nativeBig), count, fields));
            FirstNumber(header + (AsText(LayOut(n, size, byteOrder, nativeBig)) + rest), size) == Some(n)
  {
    var format := FormatFor(byteOrder, nativeBig);
    var header := Concat(HeaderLines(format, count, fields));
    var bytes := LayOut(n, size, byteOrder, nativeBig);
    var file := header + (AsText(bytes) + rest);
    HeaderRoundTrip(format, count, fields, AsText(bytes) + rest);
    OrdersAgree(byteOrder, nativeBig);
    assert file[|header|..|header| + size] == AsText(bytes);
    TextIsReadBack(bytes);
    LayoutIsReadBack(n, size, byteOrder, nativeBig);
  }

  lemma LayoutIsReadBack(n: nat, size: nat, byteOrder: char, nativeBig: bool)
    requires n < Power(size)
    ensures var order := if byteOrder == '>' || (byteOrder == '=' && nativeBig) then '>' else '<';
            Decode(order, LayOut(n, size, byteOrder, nativeBig)) == n
  {
    ReverseTwice(Bytes(n, size));
    BytesAreReadBack(n, size);
  }

  // ---- Types ----

  /** The width in bytes of a numpy type code. */
  function Size(code: char): nat {
    match code
    case 'c' => 1
    case 'b' => 1
    case 'B' => 1
    case 'h' => 2
    case 'H' => 2
    case 'i' => 4
    case 'I' => 4
    case 'f' => 4
    case 'd' => 8
    case _ => 0
  }

  predicate IsFloat(code: char) {
    code in {'f', 'd'}
  }

  predicate IsUnsigned(code: char) {
    code in {'B', 'H', 'I'}
  }

  /** The PLY type that tells its own width: kind and number of bits. */
  function SizedName(code: char): string {
    (if IsFloat(code) then "float" else if IsUnsigned(code) then "uint" else "int") + Decimal(8 * Size(code))
  }

  predicate IsSized(code: char) {
    TypeName(code).Some? && TypeCode(TypeName(code).value) == TypeCode(SizedName(code)) != None
  }

  lemma IntegersAreSized(code: char)
    requires code in {'c', 'h', 'i'}
    ensures IsSized(code)
  {
    SizesInDecimal();
    assert SizedName(code) == if code == 'c' then "int8" else if code == 'h' then "int16" else "int32";
  }

  lemma UnsignedAreSized(code: char)
    requires IsUnsigned(code)
    ensures IsSized(code)
  {
    SizesInDecimal();
    assert SizedName(code) == if code == 'B' then "uint8" else if code == 'H' then "uint16" else "uint32";
  }

  lemma FloatsAreSized(code: char)
    requires IsFloat(code)
    ensures IsSized(code)
  {
    SizesInDecimal();
    assert SizedName(code) == if code == 'f' then "float32" else "float64";
  }

  /** The type the writer names for a code is, to the reader, the one with the code's own kind
      and width. */
  lemma TypesHaveTheirSize(code: char)
    requires TypeName(code).Some?
    ensures TypeCode(TypeName(code).value) == TypeCode(SizedName(code)) != None
  {
    assert code in {'c', 'h', 'i'} || IsUnsigned(code) || IsFloat(code);
    if IsFloat(code) {
      FloatsAreSized(code);
    } else if IsUnsigned(code) {
      UnsignedAreSized(code);
    } else {
      IntegersAreSized(code);
    }
    assert IsSized(code);
  }

  /** The types of the original PLY format and their widths in bytes. */
  function OriginalWidth(name: string): nat {
    if name in {"char", "uchar"} then 1
    else if name in {"short", "ushort"} then 2
    else if name in {"int", "uint", "float"} then 4
    else if name == "double" then 8
    else 0
  }

  /** To the reader they have these widths, and are unsigned or of floating point as they say. */
  lemma OriginalTypesHaveTheirWidth(name: string)
    requires OriginalWidth(name) > 0
    ensures var code := TypeCode(name);
            && code.Some? && Size(code.value) == OriginalWidth(name)
            && (IsUnsigned(code.value) <==> name in {"uchar", "ushort", "uint"})
            && (IsFloat(code.value) <==> name in {"float", "double"})
  {
    if name == "char" {
    } else if name == "uchar" {
    } else if name == "short" {
    } else if name == "ushort" {
    } else if name == "int" {
    } else if name == "uint" {
    } else if name == "float" {
    }
  }

  lemma SizesInDecimal()
    ensures Decimal(8) == "8" && Decimal(16) == "16" && Decimal(32) == "32" && Decimal(64) == "64"
  {
    assert Digit(1) == '1' && Digit(2) == '2' && Digit(3) == '3' && Digit(4) == '4' && Digit(6) == '6' && Digit(8) == '8';
    assert Decimal(16) == Decimal(1) + [Digit(6)] == "16";
    assert Decimal(32) == Decimal(3) + [Digit(2)] == "32";
    assert Decimal(64) == Decimal(6) + [Digit(4)] == "64";
  }
}
