/**
  `GsplatImporter`, the editor's importer for `.ply` files: it reads the ASCII header line by line
  (counting `property` lines and taking the vertex count from `element vertex N`), then reads one
  binary little-endian record of `propertyCount` floats per splat and copies the fields into the
  asset's arrays, and finally builds the asset's quad mesh.

  Header lines are kept as bytes. The source decodes them as UTF-8 before comparing them with ASCII
  words and splitting them at spaces; a decoded line equals an ASCII word exactly when its bytes
  are that word's bytes, and a space byte never occurs inside a multi-byte UTF-8 sequence, so
  comparing and splitting the bytes gives the same answers.
*/
module Importer {
  import opened Wrappers
  import opened Ints
  import opened Graphics
  import opened QuadMesh
  import opened Sequences

  const LineFeed: byte := 10
  const CarriageReturn: byte := 13
  const Space: byte := 32
  const Zero: byte := 48

  /** Files of 2 GiB and more are refused. */
  const MaxFileLength := 2 * 1024 * 1024 * 1024

  /** `end_header` */
  const EndHeader: seq<byte> := [101, 110, 100, 95, 104, 101, 97, 100, 101, 114]
  /** `element` */
  const Element: seq<byte> := [101, 108, 101, 109, 101, 110, 116]
  /** `vertex` */
  const Vertex: seq<byte> := [118, 101, 114, 116, 101, 120]
  /** `property` */
  const Property: seq<byte> := [112, 114, 111, 112, 101, 114, 116, 121]

  /** A read-only file: its bytes and the current position. */
  class FileStream {
    const data: seq<byte>
    var position: nat

    constructor (data: seq<byte>)
      ensures this.data == data && position == 0
    {
      this.data := data;
      position := 0;
    }

    predicate Valid()
      reads this
    {
      position <= |data|
    }

    /** The next byte, or -1 at the end of the file. */
    method ReadByte() returns (b: int)
      requires Valid()
      modifies this`position
      ensures Valid()
      ensures old(position) < |data| ==> b == data[old(position)] && position == old(position) + 1
      ensures old(position) == |data| ==> b == -1 && position == old(position)
    {
      if position == |data| {
        b := -1;
      } else {
        b := data[position];
        position := position + 1;
      }
    }

    /** Up to `count` bytes: all of them unless the file ends first. */
    method Read(count: nat) returns (bytes: seq<byte>)
      requires Valid()
      modifies this`position
      ensures Valid()
      ensures |bytes| <= count && (|bytes| < count ==> position == |data|)
      ensures position == old(position) + |bytes| && bytes == data[old(position)..position]
    {
      var end := if position + count <= |data| then position + count else |data|;
      bytes := data[position..end];
      position := end;
    }
  }

  /** The first line feed at or after `p`, or the end of the data. */
  function LineEnd(data: seq<byte>, p: nat): (e: nat)
    requires p <= |data|
    ensures p <= e <= |data|
    ensures forall i :: p <= i < e ==> data[i] != LineFeed
    ensures e < |data| ==> data[e] == LineFeed
    decreases |data| - p
  {
    if p == |data| || data[p] == LineFeed then p else LineEnd(data, p + 1)
  }

  /** Drops one carriage return from the end, for files with CRLF line endings. */
  function TrimCarriageReturn(raw: seq<byte>): (line: seq<byte>)
    ensures line == raw || (line + [CarriageReturn] == raw)
    ensures |raw| > 0 && raw[|raw| - 1] == CarriageReturn ==> |line| == |raw| - 1
  {
    if |raw| > 0 && raw[|raw| - 1] == CarriageReturn then raw[..|raw| - 1] else raw
  }

  /**
    The line that starts at `p` and where the next one starts. At the end of the data this is
    the empty line and the position does not move.
  */
  function LineAt(data: seq<byte>, p: nat): (r: (seq<byte>, nat))
    requires p <= |data|
    ensures p <= r.1 <= |data| && (p < |data| ==> p < r.1) && (p == |data| ==> r == ([], p))
    ensures LineFeed !in r.0
  {
    var e := LineEnd(data, p);
    (TrimCarriageReturn(data[p..e]), if e < |data| then e + 1 else e)
  }

  /**
    A line and what it consumed: its bytes, the carriage return that was dropped if any, and the
    line feed unless the data ended first.
  */
  lemma LineRoundTrip(data: seq<byte>, p: nat)
    requires p <= |data|
    ensures var (line, next) := LineAt(data, p);
      var e := LineEnd(data, p);
      data[p..next] == TrimCarriageReturn(data[p..e])
        + (if TrimCarriageReturn(data[p..e]) == data[p..e] then [] else [CarriageReturn])
        + (if e < |data| then [LineFeed] else [])
  {
    var e := LineEnd(data, p);
    if e < |data| {
      assert data[p..e + 1] == data[p..e] + [LineFeed];
    }
  }

  /**
    `ReadLine` as written: bytes up to a line feed or the end of the file, less one trailing
    carriage return. It never reports the end of the file: there it returns the empty line.
  */
  method ReadLine(fs: FileStream) returns (line: seq<byte>)
    requires fs.Valid()
    modifies fs`position
    ensures fs.Valid()
    ensures (line, fs.position) == LineAt(fs.data, old(fs.position))
  {
    ghost var start := fs.position;
    var buffer: seq<byte> := [];
    while true
      invariant fs.Valid() && start <= fs.position
      invariant buffer == fs.data[start..fs.position]
      invariant LineEnd(fs.data, start) == LineEnd(fs.data, fs.position)
      decreases |fs.data| - fs.position
    {
      var b := fs.ReadByte();
      if b == -1 || b == LineFeed {
        break;
      }
      buffer := buffer + [b as byte];
    }
    if |buffer| > 0 && buffer[|buffer| - 1] == CarriageReturn {
      buffer := buffer[..|buffer| - 1];
    }
    line := buffer;
  }

  /**
    `ReadLine` as intended: like `StreamReader.ReadLine`, it reports the end of the file
    (`None`, C#'s `null`) instead of an empty line, so that a header without `end_header` ends.
  */
  method ReadLineOrEnd(fs: FileStream) returns (line: Option<seq<byte>>)
    requires fs.Valid()
    modifies fs`position
    ensures fs.Valid()
    ensures line.None? <==> old(fs.position) == |fs.data|
    ensures line.None? ==> fs.position == old(fs.position)
    ensures line.Some? ==> (line.value, fs.position) == LineAt(fs.data, old(fs.position))
  {
    if fs.position == |fs.data| {
      return None;
    }
    var l := ReadLine(fs);
    line := Some(l);
  }

  /** The first position of `x` in `s`. */
  function IndexOf(s: seq<byte>, x: byte): (i: nat)
    requires x in s
    ensures i < |s| && s[i] == x && x !in s[..i]
  {
    if s[0] == x then 0 else 1 + IndexOf(s[1..], x)
  }

  /** `string.Split(' ')`: every piece between separators, empty pieces included. */
  function Split(s: seq<byte>, sep: byte): (parts: seq<seq<byte>>)
    ensures |parts| >= 1
    ensures forall i :: 0 <= i < |parts| ==> sep !in parts[i]
    decreases |s|
  {
    if sep !in s then [s]
    else
      var i := IndexOf(s, sep);
      [s[..i]] + Split(s[i + 1..], sep)
  }

  /** The pieces put back together with the separator between each two. */
  function Join(parts: seq<seq<byte>>, sep: byte): seq<byte>
    requires |parts| >= 1
  {
    if |parts| == 1 then parts[0] else parts[0] + [sep] + Join(parts[1..], sep)
  }

  /** Splitting loses nothing: joining the pieces gives the line back. */
  lemma {:induction false} JoinSplit(s: seq<byte>, sep: byte)
    ensures Join(Split(s, sep), sep) == s
    decreases |s|
  {
    if sep in s {
      var i := IndexOf(s, sep);
      var parts, tail := Split(s, sep), s[i + 1..];
      assert parts == [s[..i]] + Split(tail, sep);
      assert parts[1..] == Split(tail, sep);
      JoinSplit(tail, sep);
      assert Join(parts, sep) == s[..i] + [sep] + tail;
      assert s == s[..i] + [sep] + tail;
    }
  }

  /** Pieces without the separator come back from a split of their join. */
  lemma {:induction false} SplitJoin(parts: seq<seq<byte>>, sep: byte)
    requires |parts| >= 1 && forall i :: 0 <= i < |parts| ==> sep !in parts[i]
    ensures Split(Join(parts, sep), sep) == parts
    decreases |parts|
  {
    if |parts| > 1 {
      var s, first, rest := Join(parts, sep), parts[0], Join(parts[1..], sep);
      assert s == first + [sep] + rest;
      assert s[|first|] == sep;
      assert s[..|first|] == first;
      assert IndexOf(s, sep) == |first|;
      assert s[|first| + 1..] == rest;
      SplitJoin(parts[1..], sep);
      assert Split(s, sep) == [first] + Split(rest, sep);
      assert parts == [first] + parts[1..];
    }
  }

  predicate IsDigit(b: byte)
  {
    Zero <= b < Zero + 10
  }

  /** The number a string of decimal digits spells. */
  function DecimalValue(digits: seq<byte>): nat
    requires forall i :: 0 <= i < |digits| ==> IsDigit(digits[i])
  {
    if digits == [] then 0
    else
      assert IsDigit(digits[|digits| - 1]);
      DecimalValue(digits[..|digits| - 1]) * 10 + (digits[|digits| - 1] - Zero)
  }

  const Plus: byte := 43
  const Minus: byte := 45
  const Nul: byte := 0

  /** The white space number parsing skips: tab, line feed, vertical tab, form feed, carriage return and space. */
  predicate IsWhite(b: byte)
  {
    b == Space || 9 <= b <= 13
  }

  /** The length of the longest prefix of `s` whose bytes all satisfy `p`. */
  function Span(s: seq<byte>, p: byte -> bool): (n: nat)
    ensures n <= |s| && (forall i :: 0 <= i < n ==> p(s[i])) && (n < |s| ==> !p(s[n]))
  {
    if s == [] || !p(s[0]) then 0 else 1 + Span(s[1..], p)
  }

  /** A prefix of bytes satisfying `p`, followed by one that does not, is exactly the span. */
  lemma {:induction false} SpanOf(a: seq<byte>, b: seq<byte>, p: byte -> bool)
    requires forall i :: 0 <= i < |a| ==> p(a[i])
    requires b != [] ==> !p(b[0])
    ensures Span(a + b, p) == |a|
    decreases |a|
  {
    if a != [] {
      assert (a + b)[1..] == a[1..] + b;
      SpanOf(a[1..], b, p);
    }
  }

  /**
    `uint.Parse` with the integer number style: optional white space, an optional `+` or `-`, one
    or more ASCII digits, optional white space and then only NUL bytes. A minus sign is accepted
    only before a value of zero. `None` stands for the exception thrown on any other token, and on
    values of 2^32 and above.
  */
  function ParseUInt(token: seq<byte>): (r: Option<uint32>)
    ensures r.Some? ==> exists i :: 0 <= i < |token| && IsDigit(token[i])
    ensures r.Some? ==> forall i :: 0 <= i < |token| ==>
      IsWhite(token[i]) || IsDigit(token[i]) || token[i] == Plus || token[i] == Minus || token[i] == Nul
    ensures r.Some? && Minus in token ==> r.value == 0
  {
    var lead := Span(token, IsWhite);
    if lead < |token| && token[lead] == Plus then
      TokenBytes(token, lead + 1, false);
      ParseDigits(token[lead + 1..], false)
    else if lead < |token| && token[lead] == Minus then
      TokenBytes(token, lead + 1, true);
      ParseDigits(token[lead + 1..], true)
    else
      TokenBytes(token, lead, false);
      ParseDigits(token[lead..], false)
  }

  /** White space, then nothing but NUL bytes. */
  predicate WhiteThenNuls(tail: seq<byte>)
  {
    forall i :: Span(tail, IsWhite) <= i < |tail| ==> tail[i] == Nul
  }

  /** The part of `ParseUInt` after the sign; `negative` when the sign was `-`. */
  function ParseDigits(body: seq<byte>, negative: bool): (r: Option<uint32>)
    ensures r.Some? ==> |body| > 0 && IsDigit(body[0])
    ensures r.Some? ==> forall i :: 0 <= i < |body| ==> IsDigit(body[i]) || IsWhite(body[i]) || body[i] == Nul
    ensures r.Some? && negative ==> r.value == 0
  {
    var digits := Span(body, IsDigit);
    var value := DecimalValue(body[..digits]);
    if digits > 0 && value < TwoTo32 && (negative ==> value == 0) && WhiteThenNuls(body[digits..]) then
      DigitsThenPadding(body, digits);
      Some(value)
    else None
  }

  /** Digits followed by white space and NUL bytes hold no other byte. */
  lemma DigitsThenPadding(body: seq<byte>, digits: nat)
    requires digits == Span(body, IsDigit) && WhiteThenNuls(body[digits..])
    ensures forall i :: 0 <= i < |body| ==> IsDigit(body[i]) || IsWhite(body[i]) || body[i] == Nul
  {
    var tail := body[digits..];
    var white := Span(tail, IsWhite);
    forall i | 0 <= i < |body|
      ensures IsDigit(body[i]) || IsWhite(body[i]) || body[i] == Nul
    {
      if i >= digits {
        assert body[i] == tail[i - digits];
        if i - digits >= white {
          assert tail[i - digits] == Nul;
        }
      }
    }
  }

  /**
    The bytes of a token whose digits, from `start` on, parse: white space, the sign `ParseUInt`
    found (a minus only when `negative`), then digits, white space and NUL bytes.
  */
  lemma TokenBytes(token: seq<byte>, start: nat, negative: bool)
    requires var lead := Span(token, IsWhite);
      || (start == lead && !negative && (lead < |token| ==> token[lead] != Plus && token[lead] != Minus))
      || (lead < |token| && start == lead + 1 && (token[lead] == Plus || token[lead] == Minus)
          && (negative <==> token[lead] == Minus))
    ensures start <= |token|
    ensures ParseDigits(token[start..], negative).Some? ==>
      && (exists i :: 0 <= i < |token| && IsDigit(token[i]))
      && (forall i :: 0 <= i < |token| ==> IsWhite(token[i]) || IsDigit(token[i]) || token[i] == Plus || token[i] == Minus || token[i] == Nul)
      && (Minus in token ==> negative)
  {
    var lead := Span(token, IsWhite);
    if ParseDigits(token[start..], negative).Some? {
      var body := token[start..];
      assert IsDigit(token[start]) by { assert body[0] == token[start]; }
      BodyBytes(token, lead, start, negative);
    }
  }

  /** Each byte of such a token is white space before `lead`, the sign at `lead` if any, and a byte of the body after. */
  lemma BodyBytes(token: seq<byte>, lead: nat, start: nat, negative: bool)
    requires lead == Span(token, IsWhite) && lead <= start <= |token| && start <= lead + 1
    requires start == lead ==> !negative && (lead < |token| ==> token[lead] != Plus && token[lead] != Minus)
    requires start == lead + 1 ==> (token[lead] == Plus || token[lead] == Minus) && (negative <==> token[lead] == Minus)
    requires forall k :: 0 <= k < |token| - start ==>
      IsDigit(token[start..][k]) || IsWhite(token[start..][k]) || token[start..][k] == Nul
    ensures forall i :: 0 <= i < |token| ==> IsWhite(token[i]) || IsDigit(token[i]) || token[i] == Plus || token[i] == Minus || token[i] == Nul
    ensures Minus in token ==> negative
  {
    forall i | 0 <= i < |token|
      ensures IsWhite(token[i]) || IsDigit(token[i]) || token[i] == Plus || token[i] == Minus || token[i] == Nul
      ensures token[i] == Minus ==> negative
    {
      if i < lead {
        assert IsWhite(token[i]);
      } else if i >= start {
        BodyByte(token, start, i);
      }
    }
  }

  /** A byte at or after `start` is the body's byte `i - start`. */
  lemma BodyByte(token: seq<byte>, start: nat, i: nat)
    requires start <= i < |token|
    requires forall k :: 0 <= k < |token| - start ==>
      IsDigit(token[start..][k]) || IsWhite(token[start..][k]) || token[start..][k] == Nul
    ensures IsDigit(token[i]) || IsWhite(token[i]) || token[i] == Nul
  {
    assert token[i] == token[start..][i - start];
  }

  /** The decimal digits of `n` without leading zeros. */
  function Decimal(n: nat): (digits: seq<byte>)
    ensures |digits| > 0 && forall i :: 0 <= i < |digits| ==> IsDigit(digits[i])
  {
    if n < 10 then [Zero + n] else Decimal(n / 10) + [Zero + n % 10]
  }

  /** The digits of `n` spell `n`. */
  lemma {:induction false} DecimalOf(n: nat)
    ensures DecimalValue(Decimal(n)) == n
  {
    if n >= 10 {
      DecimalOf(n / 10);
      var d := Decimal(n);
      assert d[..|d| - 1] == Decimal(n / 10);
    }
  }

  /** Digits, white space and NUL bytes after the sign parse to the digits' value. */
  lemma ParseDigitsOf(d: seq<byte>, trail: seq<byte>, nuls: seq<byte>, negative: bool)
    requires |d| > 0 && forall i :: 0 <= i < |d| ==> IsDigit(d[i])
    requires forall i :: 0 <= i < |trail| ==> IsWhite(trail[i])
    requires forall i :: 0 <= i < |nuls| ==> nuls[i] == Nul
    ensures ParseDigits(d + trail + nuls, negative) ==
      var value := DecimalValue(d);
      if value < TwoTo32 && (negative ==> value == 0) then Some(value) else None
  {
    var body := d + (trail + nuls);
    assert d + trail + nuls == body;
    SpanOf(d, trail + nuls, IsDigit);
    assert body[..|d|] == d;
    assert body[|d|..] == trail + nuls;
    SpanOf(trail, nuls, IsWhite);
  }

  /** White space and an optional sign before a byte that is neither: the sign decides, the rest is parsed as digits. */
  lemma ParseSignOf(lead: seq<byte>, sign: seq<byte>, rest: seq<byte>)
    requires forall i :: 0 <= i < |lead| ==> IsWhite(lead[i])
    requires sign == [] || sign == [Plus] || sign == [Minus]
    requires rest != [] && !IsWhite(rest[0]) && rest[0] != Plus && rest[0] != Minus
    ensures ParseUInt(lead + sign + rest) == ParseDigits(rest, sign == [Minus])
  {
    var token := lead + (sign + rest);
    assert lead + sign + rest == token;
    SpanOf(lead, sign + rest, IsWhite);
    if sign == [] {
      assert token[|lead|..] == rest;
      assert token[|lead|] == rest[0];
    } else {
      assert token[|lead|] == sign[0];
      assert token[|lead| + 1..] == rest;
    }
  }

  /**
    Every 32-bit count written in decimal parses back to itself, with any white space before and
    after it, trailing NUL bytes, and a leading `+`; after a `-` only zero parses.
  */
  lemma ParseDecimal(lead: seq<byte>, sign: seq<byte>, n: nat, trail: seq<byte>, nuls: seq<byte>)
    requires forall i :: 0 <= i < |lead| ==> IsWhite(lead[i])
    requires sign == [] || sign == [Plus] || sign == [Minus]
    requires forall i :: 0 <= i < |trail| ==> IsWhite(trail[i])
    requires forall i :: 0 <= i < |nuls| ==> nuls[i] == Nul
    ensures ParseUInt(lead + sign + (Decimal(n) + trail + nuls)) ==
      if n < TwoTo32 && (sign == [Minus] ==> n == 0) then Some(n) else None
  {
    var d := Decimal(n);
    var rest := d + trail + nuls;
    assert rest[0] == d[0];
    ParseSignOf(lead, sign, rest);
    DecimalOf(n);
    ParseDigitsOf(d, trail, nuls, sign == [Minus]);
  }

  /** What a header line declares: the vertex count (if its number parses), a property, or nothing. */
  datatype LineKind = VertexCount(count: Option<uint32>) | PropertyDecl | Other

  /** `element vertex `: the start of a vertex-count line. */
  const VertexPrefix: seq<byte> := Element + [Space] + Vertex + [Space]

  /** `property `: the start of a property line. */
  const PropertyPrefix: seq<byte> := Property + [Space]

  /**
    A line of three space-separated tokens declares the vertex count when it reads
    `element vertex N`, and a property when its first token is `property`.
  */
  function Classify(line: seq<byte>): LineKind
  {
    var tokens := Split(line, Space);
    if |tokens| == 3 && tokens[0] == Element && tokens[1] == Vertex then VertexCount(ParseUInt(tokens[2]))
    else if |tokens| == 3 && tokens[0] == Property then PropertyDecl
    else Other
  }

  /**
    `Classify` on the bytes of the line: a vertex-count line is `element vertex ` and a token with
    no further space, which is the count; a property line is `property ` and the rest with exactly
    one further space; every other line declares nothing.
  */
  lemma ClassifyBytes(line: seq<byte>)
    ensures Classify(line).VertexCount? <==>
      |line| >= |VertexPrefix| && line[..|VertexPrefix|] == VertexPrefix && Space !in line[|VertexPrefix|..]
    ensures Classify(line).VertexCount? ==> Classify(line).count == ParseUInt(line[|VertexPrefix|..])
    ensures Classify(line).PropertyDecl? <==>
      |line| >= |PropertyPrefix| && line[..|PropertyPrefix|] == PropertyPrefix
      && multiset(line[|PropertyPrefix|..])[Space] == 1
  {
    VertexTokens(line);
    PropertyTokens(line);
  }

  /** Three pieces joined by spaces. */
  lemma JoinThree(a: seq<byte>, b: seq<byte>, c: seq<byte>)
    ensures Join([a, b, c], Space) == a + [Space] + (b + [Space] + c)
  {
    assert [a, b, c][1..] == [b, c];
    assert [b, c][1..] == [c];
    assert Join([c], Space) == c;
    assert Join([b, c], Space) == b + [Space] + c;
  }

  /** A line that splits into `a`, `b`, `c` is their join. */
  lemma SplitThree(line: seq<byte>)
    requires |Split(line, Space)| == 3
    ensures var t := Split(line, Space); line == t[0] + [Space] + (t[1] + [Space] + t[2])
  {
    var t := Split(line, Space);
    JoinSplit(line, Space);
    assert t == [t[0], t[1], t[2]];
    JoinThree(t[0], t[1], t[2]);
  }

  /** Three pieces without spaces split back into themselves. */
  lemma ThreeSplit(a: seq<byte>, b: seq<byte>, c: seq<byte>)
    requires Space !in a && Space !in b && Space !in c
    ensures Split(a + [Space] + (b + [Space] + c), Space) == [a, b, c]
  {
    JoinThree(a, b, c);
    SplitJoin([a, b, c], Space);
  }

  /** The keywords hold no space. */
  lemma KeywordsHaveNoSpace()
    ensures Space !in Element && Space !in Vertex && Space !in Property
  {
  }

  /** The vertex-count test of `Classify` on the tokens, stated on the bytes of the line. */
  lemma VertexTokens(line: seq<byte>)
    ensures var t := Split(line, Space);
      (|t| == 3 && t[0] == Element && t[1] == Vertex) <==>
        (|line| >= |VertexPrefix| && line[..|VertexPrefix|] == VertexPrefix && Space !in line[|VertexPrefix|..])
    ensures var t := Split(line, Space);
      |t| == 3 && t[0] == Element && t[1] == Vertex ==> t[2] == line[|VertexPrefix|..]
  {
    var t := Split(line, Space);
    var n := |VertexPrefix|;
    if |t| == 3 && t[0] == Element && t[1] == Vertex {
      VertexLineBytes(line);
    }
    if |line| >= n && line[..n] == VertexPrefix && Space !in line[n..] {
      VertexLineTokens(line);
    }
  }

  /** A line whose tokens are `element`, `vertex` and a third starts with `element vertex ` and ends with that token. */
  lemma VertexLineBytes(line: seq<byte>)
    requires var t := Split(line, Space); |t| == 3 && t[0] == Element && t[1] == Vertex
    ensures |line| >= |VertexPrefix| && line[..|VertexPrefix|] == VertexPrefix
    ensures line[|VertexPrefix|..] == Split(line, Space)[2]
  {
    var t := Split(line, Space);
    SplitThree(line);
    ThreePieces(t[0], t[1], t[2], line);
  }

  /** The bytes of `a b c`: `a`, a space, `b` and a space, then `c`. */
  lemma ThreePieces(a: seq<byte>, b: seq<byte>, c: seq<byte>, line: seq<byte>)
    requires line == a + [Space] + (b + [Space] + c)
    ensures |line| >= |a| + |b| + 2 && line[..|a| + |b| + 2] == a + [Space] + b + [Space]
    ensures line[|a| + |b| + 2..] == c
  {
    AppendAssoc(a + [Space], b + [Space], c);
    AppendAssoc(b, [Space], c);
    assert line == (a + [Space] + b + [Space]) + c;
  }

  /** A line of `element vertex ` and a token without spaces splits into those three tokens. */
  lemma VertexLineTokens(line: seq<byte>)
    requires |line| >= |VertexPrefix| && line[..|VertexPrefix|] == VertexPrefix && Space !in line[|VertexPrefix|..]
    ensures Split(line, Space) == [Element, Vertex, line[|VertexPrefix|..]]
  {
    KeywordsHaveNoSpace();
    TwoWordsThenToken(line, Element, Vertex);
  }

  /** Two words without spaces, each followed by a space, then a token without spaces: three tokens. */
  lemma TwoWordsThenToken(line: seq<byte>, a: seq<byte>, b: seq<byte>)
    requires Space !in a && Space !in b
    requires |line| >= |a| + |b| + 2 && line[..|a| + |b| + 2] == a + [Space] + b + [Space]
    requires Space !in line[|a| + |b| + 2..]
    ensures Split(line, Space) == [a, b, line[|a| + |b| + 2..]]
  {
    var rest := line[|a| + |b| + 2..];
    assert line == a + [Space] + (b + [Space] + rest) by {
      assert line == line[..|a| + |b| + 2] + rest;
      AppendAssoc(a + [Space], b + [Space], rest);
      AppendAssoc(b, [Space], rest);
    }
    ThreeSplit(a, b, rest);
  }

  /** The property test of `Classify` on the tokens, stated on the bytes of the line. */
  lemma PropertyTokens(line: seq<byte>)
    ensures var t := Split(line, Space);
      (|t| == 3 && t[0] == Property) <==>
        (|line| >= |PropertyPrefix| && line[..|PropertyPrefix|] == PropertyPrefix
         && multiset(line[|PropertyPrefix|..])[Space] == 1)
  {
    var t := Split(line, Space);
    var n := |PropertyPrefix|;
    if |t| == 3 && t[0] == Property {
      PropertyLineBytes(line);
    }
    if |line| >= n && line[..n] == PropertyPrefix && multiset(line[n..])[Space] == 1 {
      PropertyLineTokens(line);
    }
  }

  /** A line of three tokens, the first `property`, is `property ` and the rest with one more space. */
  lemma PropertyLineBytes(line: seq<byte>)
    requires var t := Split(line, Space); |t| == 3 && t[0] == Property
    ensures |line| >= |PropertyPrefix| && line[..|PropertyPrefix|] == PropertyPrefix
    ensures multiset(line[|PropertyPrefix|..])[Space] == 1
  {
    var t := Split(line, Space);
    SplitThree(line);
    var rest := t[1] + [Space] + t[2];
    assert line == PropertyPrefix + rest;
    assert line[|PropertyPrefix|..] == rest;
    assert multiset(t[1])[Space] == 0 && multiset(t[2])[Space] == 0;
    assert multiset(rest) == multiset(t[1]) + multiset([Space]) + multiset(t[2]);
  }

  /** `property ` and the rest with exactly one more space splits into three tokens, the first `property`. */
  lemma PropertyLineTokens(line: seq<byte>)
    requires |line| >= |PropertyPrefix| && line[..|PropertyPrefix|] == PropertyPrefix
    requires multiset(line[|PropertyPrefix|..])[Space] == 1
    ensures var t := Split(line, Space); |t| == 3 && t[0] == Property
  {
    var rest := line[|PropertyPrefix|..];
    assert Space in multiset(rest);
    var j := IndexOf(rest, Space);
    var a, b := rest[..j], rest[j + 1..];
    assert rest == a + [Space] + b;
    assert Space !in b by {
      assert multiset(rest) == multiset(a) + multiset([Space]) + multiset(b);
      assert multiset(b)[Space] == 0;
    }
    assert line == Property + [Space] + (a + [Space] + b) by {
      assert line == line[..|PropertyPrefix|] + rest;
    }
    KeywordsHaveNoSpace();
    ThreeSplit(Property, a, b);
  }

  /** The two counts the header yields. */
  datatype Header = Header(vertexCount: uint32, propertyCount: nat)

  /** Why an import fails: each is an exception in the source. */
  datatype ImportError = FileTooLarge | BadVertexCount | NegativeShLength | UnexpectedEnd(vertex: nat)

  /** An `element vertex N` line whose `N` does not parse. */
  predicate BadVertexLine(line: seq<byte>)
  {
    Classify(line) == VertexCount(None)
  }

  /** How many lines declare a property. */
  function CountProperties(lines: seq<seq<byte>>): nat
  {
    if lines == [] then 0
    else CountProperties(lines[..|lines| - 1]) + if Classify(lines[|lines| - 1]).PropertyDecl? then 1 else 0
  }

  /** The count of the last `element vertex N` line, or 0 when there is none. */
  function LastVertexCount(lines: seq<seq<byte>>): uint32
  {
    if lines == [] then 0
    else match Classify(lines[|lines| - 1])
      case VertexCount(Some(n)) => n
      case _ => LastVertexCount(lines[..|lines| - 1])
  }

  /**
    The header the lines describe: an error when any vertex count does not parse, otherwise the
    last vertex count and the number of property lines.
  */
  function HeaderOf(lines: seq<seq<byte>>): Result<Header, ImportError>
  {
    if exists i :: 0 <= i < |lines| && BadVertexLine(lines[i]) then Failure(BadVertexCount)
    else Success(Header(LastVertexCount(lines), CountProperties(lines)))
  }

  /**
    The header lines from `p` up to `end_header` or the end of the data, and where the data
    after the header starts.
  */
  function HeaderScan(data: seq<byte>, p: nat): (r: (seq<seq<byte>>, nat))
    requires p <= |data|
    ensures p <= r.1 <= |data|
    ensures forall i :: 0 <= i < |r.0| ==> r.0[i] != EndHeader
    decreases |data| - p
  {
    if p == |data| then ([], p)
    else
      var (line, next) := LineAt(data, p);
      if line == EndHeader then ([], next)
      else
        var (rest, end) := HeaderScan(data, next);
        ([line] + rest, end)
  }

  /** One turn of the header loop. */
  function Step(h: Header, line: seq<byte>): Result<Header, ImportError>
  {
    match Classify(line)
    case VertexCount(None) => Failure(BadVertexCount)
    case VertexCount(Some(n)) => Success(h.(vertexCount := n))
    case PropertyDecl => Success(h.(propertyCount := h.propertyCount + 1))
    case Other => Success(h)
  }

  /**
    `ReadPlyHeader` as written, run for at most `fuel` turns: `None` while it has not stopped.
    Its only exits are `end_header` and an exception, because `ReadLine` never returns null.
  */
  function HeaderLoopAsWritten(data: seq<byte>, p: nat, h: Header, fuel: nat): (r: Option<Result<Header, ImportError>>)
    requires p <= |data|
    ensures r.Some? ==> r.value == HeaderFrom(data, p, h)
    ensures r.Some? && r.value.Failure? ==> r.value.error == BadVertexCount
    decreases fuel
  {
    if fuel == 0 then None
    else
      var (line, next) := LineAt(data, p);
      if line == EndHeader then Some(Success(h))
      else match Step(h, line)
        case Failure(e) => Some(Failure(e))
        case Success(h') =>
          if p == |data| then EmptyLineChangesNothing(h); HeaderLoopAsWritten(data, next, h', fuel - 1)
          else HeaderLoopAsWritten(data, next, h', fuel - 1)
  }

  /** From `p` on, no line is `end_header` and every vertex count parses. */
  predicate NoEndHeaderFrom(data: seq<byte>, p: nat)
    requires p <= |data|
    decreases |data| - p
  {
    p == |data| ||
    var (line, next) := LineAt(data, p);
    line != EndHeader && !BadVertexLine(line) && NoEndHeaderFrom(data, next)
  }

  /**
    A file whose header lacks `end_header` keeps the loop as written turning for ever: once the
    data is used up, every turn reads the same empty line and changes nothing.
  */
  lemma {:induction false} HeaderAsWrittenNeverStops(data: seq<byte>, p: nat, h: Header, fuel: nat)
    requires p <= |data| && NoEndHeaderFrom(data, p)
    ensures HeaderLoopAsWritten(data, p, h, fuel) == None
    decreases fuel
  {
    if fuel > 0 {
      var next, h' := NeverStopsTurn(data, p, h, fuel);
      HeaderAsWrittenNeverStops(data, next, h', fuel - 1);
    }
  }

  /** One turn of the loop as written without `end_header` ahead: it goes on from where the next line starts. */
  lemma NeverStopsTurn(data: seq<byte>, p: nat, h: Header, fuel: nat) returns (next: nat, h': Header)
    requires p <= |data| && NoEndHeaderFrom(data, p) && fuel > 0
    ensures next <= |data| && NoEndHeaderFrom(data, next)
    ensures HeaderLoopAsWritten(data, p, h, fuel) == HeaderLoopAsWritten(data, next, h', fuel - 1)
  {
    var (line, n) := LineAt(data, p);
    if p == |data| {
      EmptyLineChangesNothing(h);
      next, h' := p, h;
    } else {
      next, h' := n, Step(h, line).value;
    }
    AsWrittenTurn(data, p, h, fuel);
  }

  /** A turn of the loop as written on a line that is not `end_header` and parses. */
  lemma AsWrittenTurn(data: seq<byte>, p: nat, h: Header, fuel: nat)
    requires p <= |data| && fuel > 0
    requires LineAt(data, p).0 != EndHeader && Step(h, LineAt(data, p).0).Success?
    ensures HeaderLoopAsWritten(data, p, h, fuel)
         == HeaderLoopAsWritten(data, LineAt(data, p).1, Step(h, LineAt(data, p).0).value, fuel - 1)
  {
  }

  /** The empty line is not `end_header` and declares nothing. */
  lemma EmptyLineChangesNothing(h: Header)
    ensures [] != EndHeader && Step(h, []) == Success(h)
  {
    assert Split([], Space) == [[]];
  }

  /** The smallest such file: an empty one. */
  lemma EmptyFileNeverStops(fuel: nat)
    ensures HeaderLoopAsWritten([], 0, Header(0, 0), fuel) == None
  {
    HeaderAsWrittenNeverStops([], 0, Header(0, 0), fuel);
  }

  /** A turn of the loop on a line that parses extends the header of the lines before it. */
  lemma Consume(consumed: seq<seq<byte>>, line: seq<byte>)
    requires forall i :: 0 <= i < |consumed| ==> !BadVertexLine(consumed[i])
    ensures BadVertexLine(line) <==> Step(Header(LastVertexCount(consumed), CountProperties(consumed)), line).Failure?
    ensures !BadVertexLine(line) ==>
      && (forall i :: 0 <= i < |consumed + [line]| ==> !BadVertexLine((consumed + [line])[i]))
      && Step(Header(LastVertexCount(consumed), CountProperties(consumed)), line)
         == Success(Header(LastVertexCount(consumed + [line]), CountProperties(consumed + [line])))
  {
    assert (consumed + [line])[..|consumed|] == consumed;
  }

  /** The header from a line that is not `end_header` is that line and the header after it. */
  lemma ScanStep(data: seq<byte>, p: nat)
    requires p < |data| && LineAt(data, p).0 != EndHeader
    ensures var (line, next) := LineAt(data, p);
      HeaderScan(data, p) == ([line] + HeaderScan(data, next).0, HeaderScan(data, next).1)
  {
  }

  /** One vertex count that does not parse makes the whole header an error. */
  lemma BadLineFails(consumed: seq<seq<byte>>, line: seq<byte>, rest: seq<seq<byte>>)
    requires BadVertexLine(line)
    ensures HeaderOf(consumed + ([line] + rest)) == Failure(BadVertexCount)
  {
    assert (consumed + ([line] + rest))[|consumed|] == line;
  }

  /** Lines that all parse give their last vertex count and their number of properties. */
  lemma AllParse(lines: seq<seq<byte>>)
    requires forall i :: 0 <= i < |lines| ==> !BadVertexLine(lines[i])
    ensures HeaderOf(lines) == Success(Header(LastVertexCount(lines), CountProperties(lines)))
  {
  }

  /**
    The corrected header loop as a function: the turns from the line at `p` on, with the
    counts `h` of the lines before.
  */
  function HeaderFrom(data: seq<byte>, p: nat, h: Header): Result<Header, ImportError>
    requires p <= |data|
    decreases |data| - p
  {
    if p == |data| then Success(h)
    else
      var (line, next) := LineAt(data, p);
      if line == EndHeader then Success(h)
      else match Step(h, line)
        case Failure(e) => Failure(e)
        case Success(h') => HeaderFrom(data, next, h')
  }

  /**
    Turn by turn, the loop computes the header its lines describe: the counts of the lines
    already read, extended by the lines still to come.
  */
  lemma {:induction false} HeaderFromDescribes(data: seq<byte>, p: nat, consumed: seq<seq<byte>>)
    requires p <= |data|
    requires forall i :: 0 <= i < |consumed| ==> !BadVertexLine(consumed[i])
    ensures HeaderFrom(data, p, Header(LastVertexCount(consumed), CountProperties(consumed)))
         == HeaderOf(consumed + HeaderScan(data, p).0)
    decreases |data| - p
  {
    if p == |data| || LineAt(data, p).0 == EndHeader {
      DescribesAtEnd(data, p, consumed);
    } else if BadVertexLine(LineAt(data, p).0) {
      DescribesBadLine(data, p, consumed);
    } else {
      var (line, next) := LineAt(data, p);
      var more := consumed + [line];
      Consume(consumed, line);
      HeaderFromDescribes(data, next, more);
      DescribesGoodLine(data, p, consumed);
    }
  }

  lemma DescribesGoodLine(data: seq<byte>, p: nat, consumed: seq<seq<byte>>)
    requires p < |data| && LineAt(data, p).0 != EndHeader && !BadVertexLine(LineAt(data, p).0)
    requires forall i :: 0 <= i < |consumed| ==> !BadVertexLine(consumed[i])
    requires var (line, next) := LineAt(data, p); var more := consumed + [line];
      HeaderFrom(data, next, Header(LastVertexCount(more), CountProperties(more)))
      == HeaderOf(more + HeaderScan(data, next).0)
    ensures HeaderFrom(data, p, Header(LastVertexCount(consumed), CountProperties(consumed)))
         == HeaderOf(consumed + HeaderScan(data, p).0)
  {
    var (line, next) := LineAt(data, p);
    var more := consumed + [line];
    ScanStep(data, p);
    Consume(consumed, line);
    TurnOnGoodLine(data, p, Header(LastVertexCount(consumed), CountProperties(consumed)));
    AppendAssoc(consumed, [line], HeaderScan(data, next).0);
  }


  /** A turn on a line that parses moves on to the next line with the updated counts. */
  lemma TurnOnGoodLine(data: seq<byte>, p: nat, h: Header)
    requires p < |data| && LineAt(data, p).0 != EndHeader && Step(h, LineAt(data, p).0).Success?
    ensures HeaderFrom(data, p, h) == HeaderFrom(data, LineAt(data, p).1, Step(h, LineAt(data, p).0).value)
  {
  }

  lemma DescribesAtEnd(data: seq<byte>, p: nat, consumed: seq<seq<byte>>)
    requires p <= |data| && (p == |data| || LineAt(data, p).0 == EndHeader)
    requires forall i :: 0 <= i < |consumed| ==> !BadVertexLine(consumed[i])
    ensures HeaderFrom(data, p, Header(LastVertexCount(consumed), CountProperties(consumed)))
         == HeaderOf(consumed + HeaderScan(data, p).0)
  {
    assert HeaderScan(data, p).0 == [];
    assert consumed + [] == consumed;
    AllParse(consumed);
  }

  lemma DescribesBadLine(data: seq<byte>, p: nat, consumed: seq<seq<byte>>)
    requires p < |data| && LineAt(data, p).0 != EndHeader && BadVertexLine(LineAt(data, p).0)
    requires forall i :: 0 <= i < |consumed| ==> !BadVertexLine(consumed[i])
    ensures HeaderFrom(data, p, Header(LastVertexCount(consumed), CountProperties(consumed)))
         == HeaderOf(consumed + HeaderScan(data, p).0)
  {
    var (line, next) := LineAt(data, p);
    ScanStep(data, p);
    Consume(consumed, line);
    BadLineFails(consumed, line, HeaderScan(data, next).0);
  }

  /**
    `ReadPlyHeader` with `ReadLineOrEnd`: it stops at `end_header` or at the end of the file, and
    yields the header the lines before describe, leaving the stream after the header.
  */
  method ReadPlyHeader(fs: FileStream) returns (r: Result<Header, ImportError>)
    requires fs.Valid()
    modifies fs`position
    ensures fs.Valid()
    ensures r == HeaderOf(HeaderScan(fs.data, old(fs.position)).0)
    ensures r.Success? ==> fs.position == HeaderScan(fs.data, old(fs.position)).1
  {
    ghost var start := fs.position;
    var header := Header(0, 0);
    ghost var lineStart: nat := fs.position;
    var line := ReadLineOrEnd(fs);
    while line.Some? && line.value != EndHeader
      invariant fs.Valid() && lineStart <= |fs.data|
      invariant line.None? <==> lineStart == |fs.data|
      invariant line.None? ==> fs.position == lineStart
      invariant line.Some? ==> (line.value, fs.position) == LineAt(fs.data, lineStart)
      invariant HeaderFrom(fs.data, start, Header(0, 0)) == HeaderFrom(fs.data, lineStart, header)
      invariant HeaderScan(fs.data, start).1 == HeaderScan(fs.data, lineStart).1
      decreases |fs.data| - fs.position + if line.Some? then 1 else 0
    {
      ScanStep(fs.data, lineStart);
      var next := Step(header, line.value);
      if next.Failure? {
        Describes(fs.data, start);
        return next;
      }
      header := next.value;
      lineStart := fs.position;
      line := ReadLineOrEnd(fs);
    }
    Describes(fs.data, start);
    return Success(header);
  }

  /** From the first header line, the loop's result is the header of all the header lines. */
  lemma Describes(data: seq<byte>, p: nat)
    requires p <= |data|
    ensures HeaderFrom(data, p, Header(0, 0)) == HeaderOf(HeaderScan(data, p).0)
  {
    HeaderFromDescribes(data, p, []);
    assert [] + HeaderScan(data, p).0 == HeaderScan(data, p).0;
  }

  /** A 32-bit float as its four bytes in file order; the importer copies floats and never computes with them. */
  datatype F32 = F32(b0: byte, b1: byte, b2: byte, b3: byte)

  const ZeroF32 := F32(0, 0, 0, 0)

  datatype Vec3 = Vec3(x: F32, y: F32, z: F32)

  datatype Vec4 = Vec4(x: F32, y: F32, z: F32, w: F32)

  const ZeroVec3 := Vec3(ZeroF32, ZeroF32, ZeroF32)
  const ZeroVec4 := Vec4(ZeroF32, ZeroF32, ZeroF32, ZeroF32)

  /** `Reinterpret<float>` of `4 * count` bytes: the bytes taken four at a time. */
  function Floats(bytes: seq<byte>, count: nat): (floats: seq<F32>)
    requires |bytes| == 4 * count
    ensures |floats| == count
  {
    seq(count, i requires 0 <= i < count => F32(bytes[4 * i], bytes[4 * i + 1], bytes[4 * i + 2], bytes[4 * i + 3]))
  }

  /** The bytes of a run of floats. */
  function FloatBytes(floats: seq<F32>): (bytes: seq<byte>)
    ensures |bytes| == 4 * |floats|
  {
    if floats == [] then []
    else
      var f := floats[0];
      [f.b0, f.b1, f.b2, f.b3] + FloatBytes(floats[1..])
  }

  /** Reinterpreting loses nothing: the floats of a run's bytes are the run. */
  lemma {:induction false} FloatsOfBytes(floats: seq<F32>)
    ensures Floats(FloatBytes(floats), |floats|) == floats
  {
    if floats != [] {
      FloatsOfBytes(floats[1..]);
      var b := FloatBytes(floats);
      assert b[4..] == FloatBytes(floats[1..]);
      forall i | 0 <= i < |floats|
        ensures Floats(b, |floats|)[i] == floats[i]
      {
        if i > 0 {
          assert Floats(b, |floats|)[i] == Floats(b[4..], |floats| - 1)[i - 1];
        }
      }
    }
  }

  /** One splat as the asset stores it: position, colour with opacity, SH coefficients, scale, rotation. */
  datatype Splat = Splat(position: Vec3, color: Vec4, sh: seq<Vec3>, scale: Vec3, rotation: Vec4)

  /**
    A record of `propertyCount` floats holds `coeffs` SH coefficients per colour channel and the
    fields the importer reads at fixed places.
  */
  predicate RecordFits(propertyCount: int, coeffs: int)
  {
    propertyCount >= 15 && coeffs >= 0 && 3 * coeffs + 9 <= propertyCount
  }

  /**
    The fields of one record: position from properties 0-2, colour from 6-8 and the opacity
    eight from the end, coefficient `j` of channel `c` from `9 + c * coeffs + j`, scale from
    seven to five from the end and rotation from the last four.
  */
  function DecodeRecord(p: seq<F32>, coeffs: nat): (s: Splat)
    requires RecordFits(|p|, coeffs)
    ensures |s.sh| == coeffs
  {
    var n := |p|;
    Splat(
      Vec3(p[0], p[1], p[2]),
      Vec4(p[6], p[7], p[8], p[n - 8]),
      seq(coeffs, j requires 0 <= j < coeffs => Vec3(p[j + 9], p[j + 9 + coeffs], p[j + 9 + coeffs * 2])),
      Vec3(p[n - 7], p[n - 6], p[n - 5]),
      Vec4(p[n - 4], p[n - 3], p[n - 2], p[n - 1]))
  }

  /** One colour channel of a splat's SH coefficients. */
  function Channel(sh: seq<Vec3>, c: nat): (values: seq<F32>)
    requires c < 3
    ensures |values| == |sh|
  {
    seq(|sh|, j requires 0 <= j < |sh| => if c == 0 then sh[j].x else if c == 1 then sh[j].y else sh[j].z)
  }

  /**
    A splat written as a record of the standard layout: x y z, the normal, the three base colour
    terms, the remaining SH terms channel by channel, opacity, three scales, four rotation terms.
  */
  function EncodeRecord(s: Splat, normal: Vec3): (p: seq<F32>)
    ensures |p| == 17 + 3 * |s.sh|
  {
    [s.position.x, s.position.y, s.position.z, normal.x, normal.y, normal.z, s.color.x, s.color.y, s.color.z]
    + Channel(s.sh, 0) + Channel(s.sh, 1) + Channel(s.sh, 2)
    + [s.color.w, s.scale.x, s.scale.y, s.scale.z, s.rotation.x, s.rotation.y, s.rotation.z, s.rotation.w]
  }

  /**
    The importer reads back every splat written in the standard layout, whatever its normal: the
    property count gives the coefficient count and the fields come from their own places.
  */
  lemma DecodeEncode(s: Splat, normal: Vec3)
    ensures var p := EncodeRecord(s, normal);
      TruncDiv(|p| - 17, 3) == |s.sh| && RecordFits(|p|, |s.sh|) && DecodeRecord(p, |s.sh|) == s
  {
    var p := EncodeRecord(s, normal);
    var n := |s.sh|;
    assert TruncDiv(|p| - 17, 3) == n;
    var d := DecodeRecord(p, n);
    forall j | 0 <= j < n
      ensures d.sh[j] == s.sh[j]
    {
      EncodedChannelsAt(s, normal, p, j);
    }
    assert d.sh == s.sh;
  }

  /** Where the standard layout puts coefficient `j` of each channel. */
  lemma EncodedChannelsAt(s: Splat, normal: Vec3, p: seq<F32>, j: nat)
    requires p == EncodeRecord(s, normal) && j < |s.sh|
    ensures p[j + 9] == s.sh[j].x && p[j + 9 + |s.sh|] == s.sh[j].y && p[j + 9 + |s.sh| * 2] == s.sh[j].z
  {
    var n := |s.sh|;
    var c0, c1, c2 := Channel(s.sh, 0), Channel(s.sh, 1), Channel(s.sh, 2);
    var a1 := [s.position.x, s.position.y, s.position.z, normal.x, normal.y, normal.z, s.color.x, s.color.y, s.color.z] + c0;
    var a2 := a1 + c1;
    var a3 := a2 + c2;
    assert p == a3 + [s.color.w, s.scale.x, s.scale.y, s.scale.z, s.rotation.x, s.rotation.y, s.rotation.z, s.rotation.w];
    assert p[j + 9] == a3[j + 9] == a2[j + 9] == a1[j + 9] == c0[j];
    assert p[j + 9 + n] == a3[j + 9 + n] == a2[j + 9 + n] == c1[j];
    assert p[j + 9 + n * 2] == a3[j + 9 + n * 2] == c2[j];
  }

  /** The floor of the square root of `n`, searched upward from `r`. */
  function SqrtFrom(n: nat, r: nat): (root: nat)
    requires r * r <= n
    ensures root * root <= n < (root + 1) * (root + 1)
    decreases n - r
  {
    if (r + 1) * (r + 1) > n then r
    else
      assert r <= n by { if r > 0 { MulMono(r, 1, r); } }
      SqrtFrom(n, r + 1)
  }

  /** The floor of the square root. */
  function Sqrt(n: nat): (root: nat)
    ensures root * root <= n < (root + 1) * (root + 1)
  {
    SqrtFrom(n, 0)
  }

  /** The square root's floor is the only number with that property. */
  lemma SqrtUnique(n: nat, r: nat)
    requires r * r <= n < (r + 1) * (r + 1)
    ensures Sqrt(n) == r
  {
    var s := Sqrt(n);
    if s < r {
      MulMono(r, s + 1, r);
      MulMono(s + 1, s + 1, r);
      MulMono(r, s + 1, s + 1);
    } else if s > r {
      MulMono(s, r + 1, s);
      MulMono(r + 1, r + 1, s);
      MulMono(s, r + 1, r + 1);
    }
  }

  /**
    `(byte)(Math.Sqrt((propertyCount - 14) / 3) - 1)`. The division truncates toward zero; the
    square root of a whole number below 2^52 truncates to the integer square root; a result
    outside the byte range (the square root of 0 less one, or of a negative number, or above 256)
    converts to an unspecified byte, shown as `None`.
  */
  function ShBandsOf(propertyCount: int): (bands: Option<byte>)
    ensures bands.Some? ==> TruncDiv(propertyCount - 14, 3) >= 1
  {
    var n := TruncDiv(propertyCount - 14, 3);
    if n < 1 then None
    else
      var root := Sqrt(n);
      if root <= 256 then Some(root - 1) else None
  }

  /**
    A file in the standard layout for `bands` bands, with `(bands + 1)^2 - 1` coefficients per
    channel, yields exactly that coefficient count and that band count.
  */
  lemma StandardBands(bands: byte)
    ensures var coeffs := (bands + 1) * (bands + 1) - 1;
      var propertyCount := 17 + 3 * coeffs;
      TruncDiv(propertyCount - 17, 3) == coeffs && ShBandsOf(propertyCount) == Some(bands)
  {
    var coeffs := (bands + 1) * (bands + 1) - 1;
    var propertyCount := 17 + 3 * coeffs;
    assert TruncDiv(propertyCount - 14, 3) == (bands + 1) * (bands + 1);
    SqrtUnique((bands + 1) * (bands + 1), bands + 1);
  }

  /**
    The byte offset of record `k` when each takes `size` bytes: `k * size`, written as a sum so
    that a proof stepping `k` by one sees only additions.
  */
  function Offset(k: nat, size: nat): nat
  {
    if k == 0 then 0 else Offset(k - 1, size) + size
  }

  lemma {:induction false} OffsetIsProduct(k: nat, size: nat)
    ensures Offset(k, size) == k * size
  {
    if k > 0 {
      OffsetIsProduct(k - 1, size);
      MulSucc(k - 1, size);
    }
  }

  /** Record `k` of `count` floats (`4 * count` bytes) from `start` on. */
  function RecordAt(data: seq<byte>, start: nat, count: nat, k: nat): (record: seq<F32>)
    requires start + Offset(k, 4 * count) + 4 * count <= |data|
    ensures |record| == count
  {
    var offset := start + Offset(k, 4 * count);
    Floats(data[offset .. offset + 4 * count], count)
  }

  /** The first `n` records of `count` floats each, from `start` on, decoded. */
  function DecodeRecords(data: seq<byte>, start: nat, count: nat, coeffs: nat, n: nat): (splats: seq<Splat>)
    requires n > 0 ==> RecordFits(count, coeffs)
    requires start + Offset(n, 4 * count) <= |data|
    ensures |splats| == n
  {
    if n == 0 then []
    else DecodeRecords(data, start, count, coeffs, n - 1) + [DecodeRecord(RecordAt(data, start, count, n - 1), coeffs)]
  }

  /** Splat `k` is record `k` decoded: every splat comes from its own record and from no other. */
  lemma {:induction false} DecodeRecordsAt(data: seq<byte>, start: nat, count: nat, coeffs: nat, n: nat, k: nat)
    requires n > 0 ==> RecordFits(count, coeffs)
    requires start + Offset(n, 4 * count) <= |data| && k < n
    ensures start + Offset(k, 4 * count) + 4 * count <= |data|
    ensures DecodeRecords(data, start, count, coeffs, n)[k] == DecodeRecord(RecordAt(data, start, count, k), coeffs)
    decreases n
  {
    OffsetMono(n, k + 1, 4 * count);
    if k < n - 1 {
      DecodeRecordsAt(data, start, count, coeffs, n - 1, k);
    }
  }

  /** The SH coefficients of all splats, splat after splat. */
  function ShConcat(splats: seq<Splat>): seq<Vec3>
  {
    if splats == [] then [] else ShConcat(splats[..|splats| - 1]) + splats[|splats| - 1].sh
  }

  /** With `coeffs` coefficients per splat, coefficient `j` of splat `k` sits at `k * coeffs + j`. */
  lemma {:induction false} ShConcatAt(splats: seq<Splat>, coeffs: nat, k: nat, j: nat)
    requires forall i :: 0 <= i < |splats| ==> |splats[i].sh| == coeffs
    requires k < |splats| && j < coeffs
    ensures |ShConcat(splats)| == |splats| * coeffs
    ensures k * coeffs + j < |ShConcat(splats)|
    ensures ShConcat(splats)[k * coeffs + j] == splats[k].sh[j]
  {
    var n := |splats|;
    var front := splats[..n - 1];
    assert ShConcat(splats) == ShConcat(front) + splats[n - 1].sh;
    ShConcatLength(front, coeffs);
    if k < n - 1 {
      ShConcatAt(front, coeffs, k, j);
    } else {
      assert k * coeffs == |ShConcat(front)|;
    }
    ShConcatLength(splats, coeffs);
  }

  lemma {:induction false} ShConcatLength(splats: seq<Splat>, coeffs: nat)
    requires forall i :: 0 <= i < |splats| ==> |splats[i].sh| == coeffs
    ensures |ShConcat(splats)| == |splats| * coeffs
  {
    if splats != [] {
      var n := |splats|;
      var front := splats[..n - 1];
      ShConcatLength(front, coeffs);
      assert |ShConcat(splats)| == |ShConcat(front)| + |splats[n - 1].sh|;
      assert (n - 1) * coeffs + coeffs == n * coeffs;
    }
  }

  /** The asset's five per-splat arrays. */
  datatype SplatArrays = SplatArrays(
    positions: seq<Vec3>, colors: seq<Vec4>, shs: seq<Vec3>, scales: seq<Vec3>, rotations: seq<Vec4>)

  /** The arrays hold the splats: one entry each, and the SH coefficients back to back. */
  predicate Holds(a: SplatArrays, splats: seq<Splat>)
  {
    && |a.positions| == |a.colors| == |a.scales| == |a.rotations| == |splats|
    && (forall k :: 0 <= k < |splats| ==>
          a.positions[k] == splats[k].position && a.colors[k] == splats[k].color
          && a.scales[k] == splats[k].scale && a.rotations[k] == splats[k].rotation)
    && a.shs == ShConcat(splats)
  }

  /** The first `|splats|` entries of the arrays hold `splats`, and the SH array their coefficients. */
  ghost predicate Filled(positions: array<Vec3>, colors: array<Vec4>, shs: array<Vec3>, scales: array<Vec3>,
                         rotations: array<Vec4>, coeffs: nat, splats: seq<Splat>)
    reads positions, colors, shs, scales, rotations
  {
    && |splats| <= positions.Length && |splats| <= colors.Length
    && |splats| <= scales.Length && |splats| <= rotations.Length
    && |splats| * coeffs <= shs.Length
    && (forall k :: 0 <= k < |splats| ==>
          && positions[k] == splats[k].position && colors[k] == splats[k].color
          && scales[k] == splats[k].scale && rotations[k] == splats[k].rotation)
    && shs[..|splats| * coeffs] == ShConcat(splats)
  }

  /** Writes splat `i` decoded from `p` into the arrays: its entry in each, and its SH block at `i * coeffs`. */
  method StoreSplat(positions: array<Vec3>, colors: array<Vec4>, shs: array<Vec3>, scales: array<Vec3>,
                    rotations: array<Vec4>, i: nat, coeffs: nat, p: seq<F32>, ghost splats: seq<Splat>)
    requires RecordFits(|p|, coeffs)
    requires positions != shs && positions != scales && shs != scales && colors != rotations
    requires i == |splats| && Filled(positions, colors, shs, scales, rotations, coeffs, splats)
    requires i < positions.Length && i < colors.Length && i < scales.Length && i < rotations.Length
    requires i * coeffs + coeffs <= shs.Length
    modifies positions, colors, shs, scales, rotations
    ensures Filled(positions, colors, shs, scales, rotations, coeffs, splats + [DecodeRecord(p, coeffs)])
  {
    var n := |p|;
    positions[i] := Vec3(p[0], p[1], p[2]);
    colors[i] := Vec4(p[6], p[7], p[8], p[n - 8]);
    scales[i] := Vec3(p[n - 7], p[n - 6], p[n - 5]);
    rotations[i] := Vec4(p[n - 4], p[n - 3], p[n - 2], p[n - 1]);
    StoreCoefficients(shs, i * coeffs, coeffs, p);
    ghost var s := DecodeRecord(p, coeffs);
    ghost var more := splats + [s];
    ShConcatSnoc(splats, s);
    MulSucc(i, coeffs);
    assert |more| == i + 1;
    assert shs[..|more| * coeffs] == ShConcat(more);
    forall k | 0 <= k < |more|
      ensures positions[k] == more[k].position && colors[k] == more[k].color
      ensures scales[k] == more[k].scale && rotations[k] == more[k].rotation
    {
      if k < i {
        assert old(positions[k]) == splats[k].position && old(colors[k]) == splats[k].color;
        assert old(scales[k]) == splats[k].scale && old(rotations[k]) == splats[k].rotation;
      }
    }
  }

  /** The SH coefficients of record `p`, copied to `shs` from `base` on. */
  method StoreCoefficients(shs: array<Vec3>, base: nat, coeffs: nat, p: seq<F32>)
    requires RecordFits(|p|, coeffs) && base + coeffs <= shs.Length
    modifies shs
    ensures shs[..base + coeffs] == old(shs[..base]) + DecodeRecord(p, coeffs).sh
  {
    ghost var sh := DecodeRecord(p, coeffs).sh;
    for j := 0 to coeffs
      invariant shs[..base + j] == old(shs[..base]) + sh[..j]
    {
      shs[base + j] := Vec3(p[j + 9], p[j + 9 + coeffs], p[j + 9 + coeffs * 2]);
      assert sh[..j + 1] == sh[..j] + [sh[j]];
    }
    assert sh[..coeffs] == sh;
  }

  /** The arrays that hold exactly `splats`. */
  function ArraysOf(splats: seq<Splat>): (a: SplatArrays)
    ensures Holds(a, splats)
  {
    SplatArrays(
      seq(|splats|, k requires 0 <= k < |splats| => splats[k].position),
      seq(|splats|, k requires 0 <= k < |splats| => splats[k].color),
      ShConcat(splats),
      seq(|splats|, k requires 0 <= k < |splats| => splats[k].scale),
      seq(|splats|, k requires 0 <= k < |splats| => splats[k].rotation))
  }

  /** What the importer makes of a file: the splat count and bands, the five arrays and the quad mesh. */
  datatype ImportedAsset = ImportedAsset(
    numSplats: uint32, shBands: Option<byte>, arrays: SplatArrays,
    meshVertices: seq<QuadVertex>, meshIndices: seq<int>)

  /** The header of a whole file, read from its first byte. */
  function FileHeader(data: seq<byte>): Result<Header, ImportError>
  {
    HeaderOf(HeaderScan(data, 0).0)
  }

  /** Where the records of a file begin: just after its `end_header` line. */
  function RecordsStart(data: seq<byte>): nat
  {
    HeaderScan(data, 0).1
  }

  /** The number of SH coefficients per colour channel in a record of `propertyCount` floats. */
  function CoeffsOf(propertyCount: int): int
  {
    TruncDiv(propertyCount - 17, 3)
  }

  /**
    The import of a whole file: refused when it is 2 GiB or more or when its header does not
    parse; otherwise the records after the header.
  */
  function Import(data: seq<byte>): Result<ImportedAsset, ImportError>
  {
    if |data| >= MaxFileLength then Failure(FileTooLarge)
    else match FileHeader(data)
      case Failure(e) => Failure(e)
      case Success(h) => ImportRecords(data, RecordsStart(data), h)
  }

  /** How many whole records of `size` bytes `length` bytes hold. */
  function WholeRecords(length: nat, size: nat): nat
    requires size > 0
  {
    length / size
  }

  /** With a vertex, an SH array of non-negative length means the record has room for every field read. */
  lemma CoeffsFit(propertyCount: nat, vertexCount: nat)
    ensures vertexCount > 0 && vertexCount * CoeffsOf(propertyCount) >= 0 ==>
      CoeffsOf(propertyCount) >= 0 && RecordFits(propertyCount, CoeffsOf(propertyCount))
  {
    var c := CoeffsOf(propertyCount);
    if vertexCount > 0 && c < 0 {
      MulMono(vertexCount, 1, -c);
      assert vertexCount * -c == -(vertexCount * c);
    }
  }

  /**
    The import from the first record on, given the header: refused when the SH array would have
    a negative length, or at the first vertex whose record runs past the end of the file;
    otherwise every record decoded and `ImportLayout` quads for every splat.
  */
  function ImportRecords(data: seq<byte>, start: nat, h: Header): Result<ImportedAsset, ImportError>
    requires start <= |data|
  {
    var coeffs, size := CoeffsOf(h.propertyCount), 4 * h.propertyCount;
    if h.vertexCount * coeffs < 0 then Failure(NegativeShLength)
    else if start + h.vertexCount * size > |data| then
      assert h.vertexCount * 0 == 0;
      Failure(UnexpectedEnd(WholeRecords(|data| - start, size)))
    else
      OffsetIsProduct(h.vertexCount, size);
      CoeffsFit(h.propertyCount, h.vertexCount);
      // Without vertices the coefficient count is never used.
      var fit: nat := if coeffs < 0 then 0 else coeffs;
      var splats := DecodeRecords(data, start, h.propertyCount, fit, h.vertexCount);
      Success(ImportedAsset(h.vertexCount, ShBandsOf(h.propertyCount), ArraysOf(splats),
        seq(4 * h.vertexCount, k requires 0 <= k => VertexAt(ImportLayout, k)),
        seq(6 * h.vertexCount, k requires 0 <= k => IndexAt(ImportLayout, k))))
  }

  /**
    The record loop: one record of `4 * propertyCount` bytes per vertex, each decoded into the five
    arrays. A short read stops the import at that vertex.
  */
  method ReadSplats(fs: FileStream, vertexCount: uint32, propertyCount: nat, coeffs: nat)
    returns (r: Result<SplatArrays, ImportError>)
    requires fs.Valid()
    requires vertexCount > 0 ==> RecordFits(propertyCount, coeffs)
    modifies fs`position
    ensures fs.Valid()
    ensures r.Success? <==> old(fs.position) + Offset(vertexCount, 4 * propertyCount) <= |fs.data|
    ensures r.Success? ==>
      Holds(r.value, DecodeRecords(fs.data, old(fs.position), propertyCount, coeffs, vertexCount))
    ensures r.Failure? ==>
      && r.error.UnexpectedEnd? && r.error.vertex < vertexCount
      && old(fs.position) + Offset(r.error.vertex, 4 * propertyCount) <= |fs.data|
      && |fs.data| < old(fs.position) + Offset(r.error.vertex + 1, 4 * propertyCount)
  {
    var positions := new Vec3[vertexCount](_ => ZeroVec3);
    var colors := new Vec4[vertexCount](_ => ZeroVec4);
    var shs := new Vec3[vertexCount * coeffs](_ => ZeroVec3);
    var scales := new Vec3[vertexCount](_ => ZeroVec3);
    var rotations := new Vec4[vertexCount](_ => ZeroVec4);
    ghost var start := fs.position;
    var failedAt := FillSplats(fs, positions, colors, shs, scales, rotations, propertyCount, coeffs);
    if failedAt.Some? {
      return Failure(UnexpectedEnd(failedAt.value));
    }
    ghost var splats := DecodeRecords(fs.data, start, propertyCount, coeffs, vertexCount);
    FilledHolds(positions, colors, shs, scales, rotations, coeffs, splats);
    r := Success(SplatArrays(positions[..], colors[..], shs[..], scales[..], rotations[..]));
  }

  /** The loop of `ReadSplats`: fills the arrays record by record, or reports the vertex whose read fell short. */
  method FillSplats(fs: FileStream, positions: array<Vec3>, colors: array<Vec4>, shs: array<Vec3>,
                    scales: array<Vec3>, rotations: array<Vec4>, propertyCount: nat, coeffs: nat)
    returns (failedAt: Option<nat>)
    requires fs.Valid()
    requires positions != shs && positions != scales && shs != scales && colors != rotations
    requires positions.Length == colors.Length == scales.Length == rotations.Length
    requires shs.Length == positions.Length * coeffs
    requires positions.Length > 0 ==> RecordFits(propertyCount, coeffs)
    modifies fs`position, positions, colors, shs, scales, rotations
    ensures fs.Valid()
    ensures failedAt.None? <==> old(fs.position) + Offset(positions.Length, 4 * propertyCount) <= |fs.data|
    ensures failedAt.None? ==> Filled(positions, colors, shs, scales, rotations, coeffs,
      DecodeRecords(fs.data, old(fs.position), propertyCount, coeffs, positions.Length))
    ensures failedAt.Some? ==>
      && failedAt.value < positions.Length
      && old(fs.position) + Offset(failedAt.value, 4 * propertyCount) <= |fs.data|
      && |fs.data| < old(fs.position) + Offset(failedAt.value + 1, 4 * propertyCount)
  {
    ghost var start := fs.position;
    var n := positions.Length;
    var i: nat := 0;
    while i < n
      invariant i <= n && fs.Valid()
      invariant fs.position == start + Offset(i, 4 * propertyCount) <= |fs.data|
      invariant Filled(positions, colors, shs, scales, rotations, coeffs,
        DecodeRecords(fs.data, start, propertyCount, coeffs, i))
    {
      var ok := ReadSplat(fs, positions, colors, shs, scales, rotations, propertyCount, coeffs, start, i);
      if !ok {
        OffsetMono(n, i + 1, 4 * propertyCount);
        return Some(i);
      }
      i := i + 1;
    }
    return None;
  }

  /** One turn of the record loop: record `i` read and stored, or a short read reported. */
  method ReadSplat(fs: FileStream, positions: array<Vec3>, colors: array<Vec4>, shs: array<Vec3>,
                   scales: array<Vec3>, rotations: array<Vec4>, propertyCount: nat, coeffs: nat,
                   ghost start: nat, i: nat)
    returns (ok: bool)
    requires fs.Valid() && fs.position == start + Offset(i, 4 * propertyCount) <= |fs.data|
    requires positions != shs && positions != scales && shs != scales && colors != rotations
    requires i < positions.Length == colors.Length == scales.Length == rotations.Length
    requires shs.Length == positions.Length * coeffs
    requires RecordFits(propertyCount, coeffs)
    requires Filled(positions, colors, shs, scales, rotations, coeffs,
      DecodeRecords(fs.data, start, propertyCount, coeffs, i))
    modifies fs`position, positions, colors, shs, scales, rotations
    ensures fs.Valid()
    ensures ok <==> start + Offset(i + 1, 4 * propertyCount) <= |fs.data|
    ensures ok ==> fs.position == start + Offset(i + 1, 4 * propertyCount)
    ensures ok ==> Filled(positions, colors, shs, scales, rotations, coeffs,
      DecodeRecords(fs.data, start, propertyCount, coeffs, i + 1))
  {
    var record := ReadRecord(fs, propertyCount, start, i);
    if record.None? {
      return false;
    }
    MulMono(positions.Length, i + 1, coeffs);
    MulSucc(i, coeffs);
    StoreSplat(positions, colors, shs, scales, rotations, i, coeffs, record.value,
      DecodeRecords(fs.data, start, propertyCount, coeffs, i));
    return true;
  }

  /**
    One turn's read: `4 * count` bytes into the buffer, refused when fewer arrive, then seen as
    `count` floats. Called with the stream at record `i`, it yields that record.
  */
  method ReadRecord(fs: FileStream, count: nat, ghost start: nat, ghost i: nat) returns (record: Option<seq<F32>>)
    requires fs.Valid() && fs.position == start + Offset(i, 4 * count)
    modifies fs`position
    ensures fs.Valid()
    ensures record.Some? <==> start + Offset(i + 1, 4 * count) <= |fs.data|
    ensures record.Some? ==>
      fs.position == start + Offset(i + 1, 4 * count) && record.value == RecordAt(fs.data, start, count, i)
  {
    var bytes := fs.Read(4 * count);
    if |bytes| != 4 * count {
      return None;
    }
    record := Some(Floats(bytes, count));
  }

  lemma {:induction false} OffsetMono(a: nat, b: nat, size: nat)
    requires a >= b
    ensures Offset(a, size) >= Offset(b, size)
    decreases a
  {
    if a > b {
      OffsetMono(a - 1, b, size);
    }
  }

  /** Arrays filled to their ends hold the splats. */
  lemma FilledHolds(positions: array<Vec3>, colors: array<Vec4>, shs: array<Vec3>, scales: array<Vec3>,
                    rotations: array<Vec4>, coeffs: nat, splats: seq<Splat>)
    requires Filled(positions, colors, shs, scales, rotations, coeffs, splats)
    requires positions.Length == colors.Length == scales.Length == rotations.Length == |splats|
    requires shs.Length == |splats| * coeffs
    ensures Holds(SplatArrays(positions[..], colors[..], shs[..], scales[..], rotations[..]), splats)
  {
    assert shs[..] == shs[..|splats| * coeffs];
  }

  /** The coefficients of one more splat come after those of the others. */
  lemma ShConcatSnoc(splats: seq<Splat>, s: Splat)
    ensures ShConcat(splats + [s]) == ShConcat(splats) + s.sh
  {
    assert (splats + [s])[..|splats|] == splats;
  }

  /** The importer: the steps of `Import`, reading the file through the stream. */
  method OnImportAsset(fs: FileStream) returns (r: Result<ImportedAsset, ImportError>)
    requires fs.Valid() && fs.position == 0
    modifies fs`position
    ensures r == Import(fs.data)
  {
    if |fs.data| >= MaxFileLength {
      return Failure(FileTooLarge);
    }
    var header := ReadPlyHeader(fs);
    if header.Failure? {
      return Failure(header.error);
    }
    r := ReadRecords(fs, header.value);
  }

  /** The importer after the header: the arrays sized from the counts, the records read, the quads built. */
  method ReadRecords(fs: FileStream, h: Header) returns (r: Result<ImportedAsset, ImportError>)
    requires fs.Valid()
    modifies fs`position
    ensures r == ImportRecords(fs.data, old(fs.position), h)
  {
    ghost var start := fs.position;
    var vertexCount, propertyCount := h.vertexCount, h.propertyCount;
    var shCoeffs := CoeffsOf(propertyCount);
    var shBands := ShBandsOf(propertyCount);
    if vertexCount * shCoeffs < 0 {
      return Failure(NegativeShLength);
    }
    CoeffsFit(propertyCount, vertexCount);
    // A negative `shCoeffs` passes the check above only without vertices, where it is never used.
    var coeffs: nat := if shCoeffs < 0 then 0 else shCoeffs;
    var size := 4 * propertyCount;
    OffsetIsProduct(vertexCount, size);
    var splats := ReadSplats(fs, vertexCount, propertyCount, coeffs);
    if splats.Failure? {
      ShortRecord(|fs.data| - start, size, splats.error.vertex);
      return Failure(splats.error);
    }
    var asset := BuildAsset(vertexCount, shBands, splats.value);
    r := Success(asset);
    HoldsOnlyArrays(splats.value, DecodeRecords(fs.data, start, propertyCount, coeffs, vertexCount));
  }

  /** The imported asset around the splat arrays, with `ImportLayout` quads for every splat. */
  method BuildAsset(vertexCount: uint32, shBands: Option<byte>, arrays: SplatArrays) returns (asset: ImportedAsset)
    ensures asset == ImportedAsset(vertexCount, shBands, arrays,
      seq(4 * vertexCount, k requires 0 <= k => VertexAt(ImportLayout, k)),
      seq(6 * vertexCount, k requires 0 <= k => IndexAt(ImportLayout, k)))
  {
    var vertices, indices := FillQuads(vertexCount, ImportLayout);
    assert vertices[..] == seq(4 * vertexCount, k requires 0 <= k => VertexAt(ImportLayout, k));
    assert indices[..] == seq(6 * vertexCount, k requires 0 <= k => IndexAt(ImportLayout, k));
    asset := ImportedAsset(vertexCount, shBands, arrays, vertices[..], indices[..]);
  }

  /** A file that ends inside record `i` holds `i` whole records. */
  lemma ShortRecord(length: nat, size: nat, i: nat)
    requires Offset(i, size) <= length < Offset(i + 1, size)
    ensures size > 0 && WholeRecords(length, size) == i
  {
    OffsetIsProduct(i, size);
    OffsetIsProduct(i + 1, size);
    MulSucc(i, size);
    DivModUnique(length, size, i, length - i * size);
  }

  /** Arrays that hold the splats are the arrays of those splats. */
  lemma HoldsOnlyArrays(a: SplatArrays, splats: seq<Splat>)
    requires Holds(a, splats)
    ensures a == ArraysOf(splats)
  {
  }
}
