/** The elevation tiles of temp2/tile.js: the guard on a tile set, the URL
    of the SRTM tile holding a point, the decoding of a tile's 1201×1201
    big-endian samples, and the four bytes per sample `formatTile` stores. */
module Tile {
  import opened Wrappers
  import opened Numbers

  /** The largest number of tiles a tile set may span. */
  const MaxTiles: int := 1

  /** The samples per row and per column of an SRTM-1 tile. */
  const Resolution: nat := 1201

  /** `Math.abs` on numbers. */
  function AbsReal(x: real): real
  {
    if x < 0.0 then -x else x
  }

  /** The tiles a set spans along one axis, from the floor of its lower
      coordinate to the ceiling of its upper one. */
  function Span(lo: real, hi: real): int
  {
    Ceil(hi) - Floor(lo)
  }

  /** Every coordinate lies within ±180 degrees. */
  predicate InBounds(minX: real, minY: real, maxX: real, maxY: real)
  {
    AbsReal(minX) <= 180.0 && AbsReal(minY) <= 180.0 && AbsReal(maxX) <= 180.0 && AbsReal(maxY) <= 180.0
  }

  /** `isValidTileSet`: false for a coordinate beyond ±180, otherwise
      whether the spans' product is at most `MaxTiles`. */
  function IsValidTileSet(minX: real, minY: real, maxX: real, maxY: real): bool
  {
    if !InBounds(minX, minY, maxX, maxY) then false
    else Span(minX, maxX) * Span(minY, maxY) <= MaxTiles
  }

  /** An axis of zero extent on a whole degree, which spans no tile. */
  predicate Flat(lo: real, hi: real)
  {
    lo == hi && lo == Floor(lo) as real
  }

  /** An axis that ends within the tile it starts in. */
  predicate WithinOneTile(lo: real, hi: real)
  {
    hi <= Floor(lo) as real + 1.0
  }

  /** Along an ordered axis the span is a natural number, zero exactly for
      a flat axis and at most one exactly when the axis stays in one
      tile. */
  lemma SpanFacts(lo: real, hi: real)
    requires lo <= hi
    ensures Span(lo, hi) >= 0
    ensures Span(lo, hi) == 0 <==> Flat(lo, hi)
    ensures Span(lo, hi) <= 1 <==> WithinOneTile(lo, hi)
  {
  }

  /** Two natural numbers multiply to at most one exactly when one is zero
      or both are one. */
  lemma ProductAtMostOne(a: int, b: int)
    requires a >= 0 && b >= 0
    ensures a * b <= 1 <==> a == 0 || b == 0 || (a == 1 && b == 1)
  {
    if a >= 1 && b >= 2 {
      assert a * b >= b;
    } else if a >= 2 && b >= 1 {
      assert a * b >= a;
    }
  }

  /** For a box whose lower corner is below its upper one, the guard
      accepts exactly the boxes within ±180 degrees that either lie in a
      single tile or are flat along one axis; a flat box is accepted
      however far it reaches along the other axis. */
  lemma ValidOrderedBox(minX: real, minY: real, maxX: real, maxY: real)
    requires minX <= maxX && minY <= maxY
    ensures IsValidTileSet(minX, minY, maxX, maxY) <==>
      InBounds(minX, minY, maxX, maxY) &&
      (Flat(minX, maxX) || Flat(minY, maxY) || (WithinOneTile(minX, maxX) && WithinOneTile(minY, maxY)))
  {
    SpanFacts(minX, maxX);
    SpanFacts(minY, maxY);
    ProductAtMostOne(Span(minX, maxX), Span(minY, maxY));
  }

  /** The guard at the head of `getTileSet`: it throws for a set the
      check refuses, so any set it lets through lies within ±180
      degrees. */
  function GetTileSetGuard(minX: real, minY: real, maxX: real, maxY: real): (r: Result<(), string>)
    ensures r.Failure? <==> !IsValidTileSet(minX, minY, maxX, maxY)
    ensures r.Failure? ==> r.error == "Invalid coordinates or maximum ammount of tiles exceeded!"
    ensures r.Success? ==> InBounds(minX, minY, maxX, maxY) && Span(minX, maxX) * Span(minY, maxY) <= MaxTiles
  {
    if !IsValidTileSet(minX, minY, maxX, maxY)
    then Failure("Invalid coordinates or maximum ammount of tiles exceeded!")
    else Success(())
  }

  // The tile's URL.

  predicate IsDigits(s: string)
  {
    forall i :: 0 <= i < |s| ==> '0' <= s[i] <= '9'
  }

  function DecimalDigit(d: int): char
    requires 0 <= d < 10
  {
    ('0' as int + d) as char
  }

  /** `n.toString()` for a natural number: its decimal digits, with no
      leading zero. */
  function Decimal(n: nat): (s: string)
    ensures 1 <= |s| && IsDigits(s)
    ensures n < 10 ==> |s| == 1
    ensures n < 100 ==> |s| <= 2
    ensures n < 1000 ==> |s| <= 3
    ensures n >= 10 ==> s[0] != '0'
  {
    if n < 10 then [DecimalDigit(n)]
    else Decimal(n / 10) + [DecimalDigit(n % 10)]
  }

  /** The number a string of decimal digits denotes. */
  function ParseDecimal(s: string): nat
    requires IsDigits(s)
  {
    if s == [] then 0
    else ParseDecimal(s[..|s| - 1]) * 10 + (s[|s| - 1] as int - '0' as int)
  }

  /** Printing a natural number and reading it back gives the number. */
  lemma {:induction false} ParseDecimalOf(n: nat)
    ensures ParseDecimal(Decimal(n)) == n
  {
    if n >= 10 {
      var s := Decimal(n);
      assert s[..|s| - 1] == Decimal(n / 10);
      ParseDecimalOf(n / 10);
    }
  }

  /** `s.padStart(width, '0')`: zeros in front of `s` up to `width`
      characters, and `s` itself when it is that long already. */
  function PadStart(s: string, width: nat): (r: string)
    ensures |r| == if |s| >= width then |s| else width
    ensures r[|r| - |s|..] == s
    ensures forall i :: 0 <= i < |r| - |s| ==> r[i] == '0'
  {
    if |s| >= width then s else seq(width - |s|, _ => '0') + s
  }

  /** Leading zeros do not change the number a string denotes. */
  lemma {:induction false} ParseLeadingZeros(z: string, s: string)
    requires IsDigits(s) && forall i :: 0 <= i < |z| ==> z[i] == '0'
    ensures IsDigits(z + s) && ParseDecimal(z + s) == ParseDecimal(s)
  {
    if s == [] {
      assert z + s == z;
      if z != [] {
        ParseLeadingZeros(z[..|z| - 1], []);
        assert z[..|z| - 1] + [] == z[..|z| - 1];
      }
    } else {
      assert (z + s)[..|z + s| - 1] == z + s[..|s| - 1];
      ParseLeadingZeros(z, s[..|s| - 1]);
    }
  }

  /** Padding with zeros keeps the number. */
  lemma PadKeepsNumber(s: string, width: nat)
    requires IsDigits(s)
    ensures IsDigits(PadStart(s, width)) && ParseDecimal(PadStart(s, width)) == ParseDecimal(s)
  {
    var r := PadStart(s, width);
    if |s| < width {
      ParseLeadingZeros(r[..|r| - |s|], s);
      assert r == r[..|r| - |s|] + s;
    }
  }

  /** The hemisphere letter of a coordinate. */
  function Hemisphere(c: real, positive: char, negative: char): char
  {
    if c >= 0.0 then positive else negative
  }

  /** The bucket holding the tiles. */
  const Skadi: string := "https://s3.amazonaws.com/elevation-tiles-prod/skadi/"

  /** The path of a tile below the bucket: the latitude letter and
      number as directory, then both letters and numbers and the file
      extension. */
  function Layout(latH: char, lat2: string, lonH: char, lon3: string): string
  {
    Skadi + [latH] + lat2 + "/" + [latH] + lat2 + [lonH] + lon3 + ".hgt.gz"
  }

  /** With a two-digit and a three-digit number every part of the layout
      sits at a fixed place. */
  lemma LayoutFields(latH: char, lat2: string, lonH: char, lon3: string)
    requires |lat2| == 2 && |lon3| == 3
    ensures var url := Layout(latH, lat2, lonH, lon3); var p := |Skadi|;
      |url| == p + 18 && url[..p] == Skadi &&
      url[p] == latH && url[p + 4] == latH && url[p + 3] == '/' && url[p + 7] == lonH &&
      url[p + 1..p + 3] == lat2 && url[p + 5..p + 7] == lat2 && url[p + 8..p + 11] == lon3 &&
      url[p + 11..] == ".hgt.gz"
  {
    var p := |Skadi|;
    var url := Layout(latH, lat2, lonH, lon3);
    var a := Skadi + [latH] + lat2 + "/";
    var b := a + [latH] + lat2;
    var c := b + [lonH] + lon3;
    assert url == c + ".hgt.gz";
    assert |a| == p + 4 && |b| == p + 7 && |c| == p + 11;
    assert url[..|c|] == c && url[|c|..] == ".hgt.gz";
    assert c[..|b|] == b && c[|b|] == lonH && c[|b| + 1..] == lon3;
    assert b[..|a|] == a && b[|a|] == latH && b[|a| + 1..] == lat2;
    assert a[..p] == Skadi && a[p] == latH && a[p + 1..p + 3] == lat2 && a[p + 3] == '/';
  }

  /** A tile number printed and padded to `width` digits, when it has at
      most that many: exactly `width` digits that read back as the
      number. */
  lemma PaddedNumber(n: nat, width: nat)
    requires |Decimal(n)| <= width
    ensures |PadStart(Decimal(n), width)| == width
    ensures IsDigits(PadStart(Decimal(n), width)) && ParseDecimal(PadStart(Decimal(n), width)) == n
  {
    PadKeepsNumber(Decimal(n), width);
    ParseDecimalOf(n);
  }

  /** `getUrl(lat, lon)`: the tile's directory is its latitude letter and
      two-digit tile number; its file adds the longitude letter and
      three-digit tile number. */
  function Url(lat: real, lon: real): string
  {
    Layout(Hemisphere(lat, 'N', 'S'), PadStart(Decimal(Abs(Floor(lat))), 2),
           Hemisphere(lon, 'E', 'W'), PadStart(Decimal(Abs(Floor(lon))), 3))
  }

  /** For tile numbers of at most two and three digits the URL has a fixed
      layout, and its letters and digits give back the whole degrees
      south-west of the point: the tile that holds it. */
  lemma UrlFields(lat: real, lon: real)
    requires Abs(Floor(lat)) < 100 && Abs(Floor(lon)) < 1000
    ensures var url := Url(lat, lon); var p := |Skadi|;
      |url| == p + 18 && url[..p] == Skadi &&
      url[p] == Hemisphere(lat, 'N', 'S') && url[p + 4] == url[p] && url[p + 3] == '/' &&
      url[p + 7] == Hemisphere(lon, 'E', 'W') && url[p + 11..] == ".hgt.gz" &&
      url[p + 5..p + 7] == url[p + 1..p + 3] &&
      IsDigits(url[p + 1..p + 3]) && IsDigits(url[p + 8..p + 11]) &&
      Floor(lat) == (if url[p] == 'N' then 1 else -1) * ParseDecimal(url[p + 1..p + 3]) &&
      Floor(lon) == (if url[p + 7] == 'E' then 1 else -1) * ParseDecimal(url[p + 8..p + 11])
  {
    var lat2 := PadStart(Decimal(Abs(Floor(lat))), 2);
    var lon3 := PadStart(Decimal(Abs(Floor(lon))), 3);
    PaddedNumber(Abs(Floor(lat)), 2);
    PaddedNumber(Abs(Floor(lon)), 3);
    LayoutFields(Hemisphere(lat, 'N', 'S'), lat2, Hemisphere(lon, 'E', 'W'), lon3);
  }

  // Decoding a tile.

  /** `DataView.getInt16` in big-endian order: the two bytes as an
      unsigned number, read as two's complement. */
  function Int16(hi: Byte, lo: Byte): (v: int)
    ensures -32768 <= v < 32768
  {
    var u := hi as int * 256 + lo as int;
    if u >= 32768 then u - 65536 else u
  }

  /** The big-endian bytes of a signed 16-bit value. */
  function BigEndian16(v: int): (b: seq<Byte>)
    requires -32768 <= v < 32768
    ensures |b| == 2
  {
    var u := if v < 0 then v + 65536 else v;
    [(u / 256) as Byte, (u % 256) as Byte]
  }

  /** Reading the bytes of a signed 16-bit value gives the value back. */
  lemma Int16OfBigEndian(v: int)
    requires -32768 <= v < 32768
    ensures Int16(BigEndian16(v)[0], BigEndian16(v)[1]) == v
  {
  }

  /** Every pair of bytes is the encoding of the value read from it. */
  lemma BigEndianOfInt16(hi: Byte, lo: Byte)
    ensures BigEndian16(Int16(hi, lo)) == [hi, lo]
  {
  }

  /** A tile: `data[x][y]` for x below `width` and y below `height`. */
  datatype Tile = Tile(data: seq<seq<int>>, width: nat, height: nat)

  /** A tile whose rows and columns are all there and hold signed 16-bit
      samples, as the decoder builds them. */
  predicate Wellformed(t: Tile)
  {
    |t.data| == t.width &&
    (forall x :: 0 <= x < t.width ==> |t.data[x]| == t.height) &&
    forall x, y :: 0 <= x < t.width && 0 <= y < t.height ==> -32768 <= t.data[x][y] < 32768
  }

  /** The decoding loop of `fetchTile` over the inflated bytes: row `row`,
      column `col` holds the big-endian signed sample at byte offset
      2·(row·1201 + col); a buffer too short for the last read makes a
      read throw. */
  method DecodeTile(bytes: seq<Byte>) returns (r: Result<Tile, string>)
    ensures r.Failure? <==> |bytes| < 2 * Resolution * Resolution
    ensures r.Success? ==> Wellformed(r.value) && r.value.width == Resolution && r.value.height == Resolution
    ensures r.Success? ==> forall row, col :: 0 <= row < Resolution && 0 <= col < Resolution ==>
      r.value.data[row][col] == Int16(bytes[2 * (row * Resolution + col)], bytes[2 * (row * Resolution + col) + 1])
  {
    if |bytes| < 2 * Resolution * Resolution {
      return Failure("Offset is outside the bounds of the DataView");
    }
    var rows: seq<seq<int>> := [];
    var row := 0;
    while row < Resolution
      invariant 0 <= row <= Resolution && |rows| == row
      invariant forall i :: 0 <= i < row ==> |rows[i]| == Resolution
      invariant forall i, j :: 0 <= i < row && 0 <= j < Resolution ==>
        rows[i][j] == Int16(bytes[2 * (i * Resolution + j)], bytes[2 * (i * Resolution + j) + 1])
    {
      var cells: seq<int> := [];
      var col := 0;
      while col < Resolution
        invariant 0 <= col <= Resolution && |cells| == col
        invariant forall j :: 0 <= j < col ==>
          cells[j] == Int16(bytes[2 * (row * Resolution + j)], bytes[2 * (row * Resolution + j) + 1])
      {
        var offset := (row * Resolution + col) * 2;
        cells := cells + [Int16(bytes[offset], bytes[offset + 1])];
        col := col + 1;
      }
      rows := rows + [cells];
      row := row + 1;
    }
    r := Success(Tile(rows, Resolution, Resolution));
  }

  // Formatting a tile.

  /** The four bytes `formatTile` stores for a sample: the biased height
      h = raw + 32768 divided by 256, h modulo 256, h modulo 65536, and
      255, each through ToUint8. */
  function TileBytes(raw: int): (b: seq<Byte>)
    ensures |b| == 4 && b[3] == 255
  {
    var h := (raw + 32768) as real;
    [ToUint8(h / 256.0) as Byte, ToUint8(JsRemReal(h, 256.0)) as Byte, ToUint8(JsRemReal(h, 65536.0)) as Byte, 255]
  }

  /** Dividing a natural number by 256 and flooring is integer division. */
  lemma FloorQuotient(h: nat)
    ensures Floor(h as real / 256.0) == h / 256
  {
    var q := h / 256;
    assert (q * 256) as real <= h as real < ((q + 1) * 256) as real;
  }

  /** For a signed 16-bit sample the bytes are the high and low byte of
      the biased height, twice the low byte, and 255; the first two give
      the sample back. */
  lemma TileBytesOfSample(raw: int)
    requires -32768 <= raw < 32768
    ensures var h := raw + 32768; var b := TileBytes(raw);
      b == [(h / 256) as Byte, (h % 256) as Byte, (h % 256) as Byte, 255] &&
      256 * (b[0] as int) + (b[1] as int) - 32768 == raw
  {
    var h := raw + 32768;
    HighByte(h);
    LowByte(h);
    WideByte(h);
  }

  /** The first byte of a biased height below 65536 is its high byte. */
  lemma HighByte(h: nat)
    requires h < 65536
    ensures ToUint8(h as real / 256.0) == h / 256
  {
    FloorQuotient(h);
  }

  /** The second byte of a biased height is its low byte. */
  lemma LowByte(h: nat)
    ensures ToUint8(JsRemReal(h as real, 256.0)) == h % 256
  {
    FloorQuotient(h);
    assert Trunc(h as real / 256.0) == h / 256;
    assert JsRemReal(h as real, 256.0) == (h % 256) as real;
  }

  /** The third byte of a biased height below 65536 is its low byte too. */
  lemma WideByte(h: nat)
    requires h < 65536
    ensures ToUint8(JsRemReal(h as real, 65536.0)) == h % 256
  {
    assert Floor(h as real / 65536.0) == 0;
    assert JsRemReal(h as real, 65536.0) == h as real;
    assert Floor(h as real) == h;
    assert Trunc(h as real) == h;
  }

  /** Formatting a decoded sample flips the top bit of its high byte and
      keeps its low byte. */
  lemma TileBytesOfInt16(hi: Byte, lo: Byte)
    ensures TileBytes(Int16(hi, lo))[0] as int == (hi as int + 128) % 256
    ensures TileBytes(Int16(hi, lo))[1] == lo
  {
    var v := Int16(hi, lo);
    TileBytesOfSample(v);
    var k := if hi as int >= 128 then hi as int - 128 else hi as int + 128;
    assert k == (hi as int + 128) % 256;
    assert v + 32768 == k * 256 + lo as int;
    DivModOf(k, lo as int, 256);
  }

  /** A typed-array store: an index out of range is ignored. */
  method Store(a: array<Byte>, i: int, v: Byte)
    modifies a
    ensures a[..] == if 0 <= i < a.Length then old(a[..])[i := v] else old(a[..])
  {
    if 0 <= i < a.Length {
      a[i] := v;
    }
  }

  /** Cell `c` of a square tile in the order `formatTile` visits it. */
  function CellBytes(t: Tile, c: int): seq<Byte>
    requires Wellformed(t) && t.width == t.height && 0 <= c < t.width * t.width
  {
    CellInRange(c / t.width, c % t.width, t.width);
    TileBytes(t.data[c / t.width][c % t.width])
  }

  /** The first `n` cells of a square tile hold the bytes of their
      samples. */
  ghost predicate Formatted(t: Tile, image: seq<Byte>, n: int)
    requires Wellformed(t) && t.width == t.height && 0 <= n && 4 * n <= |image| == 4 * (t.width * t.width)
  {
    forall i :: 0 <= i < 4 * n ==> image[i] == CellBytes(t, i / 4)[i % 4]
  }

  /** Storing the bytes of the sample at (x, y) into the slot after the
      first x·w + y cells extends the formatted prefix by one cell. */
  lemma FormatStep(t: Tile, before: seq<Byte>, after: seq<Byte>, x: int, y: int)
    requires Wellformed(t) && t.width == t.height && 0 <= x < t.width && 0 <= y < t.width
    requires |before| == |after| == 4 * (t.width * t.width)
    requires 0 <= x * t.width + y < t.width * t.width && Formatted(t, before, x * t.width + y)
    requires var k := x * t.width + y; var b := TileBytes(t.data[x][y]);
      after == before[4 * k := b[0]][4 * k + 1 := b[1]][4 * k + 2 := b[2]][4 * k + 3 := b[3]]
    ensures Formatted(t, after, x * t.width + y + 1)
  {
    var k := x * t.width + y;
    CellInRange(x, y, t.width);
    DivModOf(x, y, t.width);
    forall i | 0 <= i < 4 * (k + 1)
      ensures after[i] == CellBytes(t, i / 4)[i % 4]
    {
      if i >= 4 * k {
        assert i / 4 == k;
      }
    }
  }

  /** A formatted cell, read as a slice. */
  lemma FormattedCell(t: Tile, image: seq<Byte>, n: int, c: int)
    requires Wellformed(t) && t.width == t.height && 0 <= n && 4 * n <= |image| == 4 * (t.width * t.width)
    requires Formatted(t, image, n) && 0 <= c < n
    ensures image[4 * c..4 * c + 4] == CellBytes(t, c)
  {
    assert (4 * c) / 4 == c && (4 * c + 1) / 4 == c && (4 * c + 2) / 4 == c && (4 * c + 3) / 4 == c;
    assert image[4 * c] == CellBytes(t, c)[0];
    assert image[4 * c + 1] == CellBytes(t, c)[1];
    assert image[4 * c + 2] == CellBytes(t, c)[2];
    assert image[4 * c + 3] == CellBytes(t, c)[3];
  }

  /** On a square tile, the cells of the rows before `x` hold the bytes
      of their samples. */
  ghost predicate RowsFormatted(t: Tile, image: seq<Byte>, x: int)
    requires Wellformed(t) && 0 <= x <= t.width
  {
    t.width == t.height ==>
      |image| == 4 * (t.width * t.width) && x * t.width <= t.width * t.width && Formatted(t, image, x * t.width)
  }

  /** The inner loop of `formatTile` for row `x`: on a square tile whose
      rows before `x` are formatted, it formats row `x` as well. */
  method FormatRow(t: Tile, image: array<Byte>, x: int)
    requires Wellformed(t) && 0 <= x < t.width && image.Length == t.width * t.height * 4
    requires RowsFormatted(t, image[..], x)
    modifies image
    ensures RowsFormatted(t, image[..], x + 1)
  {
    var w := t.width;
    var square := t.width == t.height;
    var y := 0;
    while y < t.height
      invariant 0 <= y <= t.height
      invariant square ==> x * w + y <= w * w && Formatted(t, image[..], x * w + y)
    {
      var offset := (x * t.width + y) * 4;
      var raw := t.data[x][y];
      var height := raw + 32768;
      if height == -32768 {
        assert false;
      }
      ghost var before := image[..];
      var h := height as real;
      Store(image, offset, ToUint8(h / 256.0) as Byte);
      Store(image, offset + 1, ToUint8(JsRemReal(h, 256.0)) as Byte);
      Store(image, offset + 2, ToUint8(JsRemReal(h, 65536.0)) as Byte);
      Store(image, offset + 3, 255);
      if square {
        CellInRange(x, y, w);
        FormatStep(t, before, image[..], x, y);
      }
      y := y + 1;
    }
    if square {
      MulSucc(x, w);
      assert Formatted(t, image[..], (x + 1) * w);
    }
  }

  /** Once every row of a square tile is formatted, every cell holds the
      bytes of its sample. */
  lemma AllFormatted(t: Tile, image: seq<Byte>)
    requires Wellformed(t) && t.width == t.height && RowsFormatted(t, image, t.width)
    ensures forall c :: 0 <= c < t.width * t.width ==> image[4 * c..4 * c + 4] == CellBytes(t, c)
  {
    forall c | 0 <= c < t.width * t.width
      ensures image[4 * c..4 * c + 4] == CellBytes(t, c)
    {
      FormattedCell(t, image, t.width * t.width, c);
    }
  }

  /** A square's area, four bytes a cell. */
  lemma SquareArea(w: int, h: int)
    requires w == h
    ensures w * h * 4 == 4 * (w * w)
  {
  }

  /** `formatTile`: a `width`·`height`·4 byte image in which the sample at
      (x, y) is stored at offset 4·(x·width + y); when the tile is square
      that places every sample in a slot of its own, so each cell of the
      image holds the bytes of its sample. */
  method FormatTile(t: Tile) returns (image: array<Byte>)
    requires Wellformed(t)
    ensures fresh(image) && image.Length == t.width * t.height * 4
    ensures t.width == t.height ==> forall c :: 0 <= c < t.width * t.width ==>
      image[4 * c..4 * c + 4] == CellBytes(t, c)
  {
    var w := t.width;
    var square := t.width == t.height;
    image := new Byte[t.width * t.height * 4](_ => 0);
    if square {
      SquareArea(t.width, t.height);
      assert Formatted(t, image[..], 0 * w);
    }
    var x := 0;
    while x < t.width
      invariant 0 <= x <= t.width && image.Length == t.width * t.height * 4
      invariant RowsFormatted(t, image[..], x)
    {
      FormatRow(t, image, x);
      x := x + 1;
    }
    if square {
      AllFormatted(t, image[..]);
    }
  }
}
