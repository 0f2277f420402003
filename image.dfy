/** The pixel helpers of temp2/image.js over an `ImageData`: a pixel is
    four bytes at offset 4·(x·width + y) of the image's data, reads past
    the end give `undefined` and writes there are dropped; `iterate`
    visits the cells column by column, `crop` copies a box into a new
    image and `resize` fills a new image through `iterate`. */
module Image {
  import opened Wrappers
  import opened Numbers

  /** A pixel or a colour: four components. */
  datatype Rgba<T> = Rgba(r: T, g: T, b: T, a: T)

  /** An `ImageData`: its size and its clamped byte array. */
  class ImageData {
    const width: nat
    const height: nat
    const data: array<Byte>

    /** `new ImageData(width, height)`: transparent black, four bytes per
        pixel. */
    constructor (width: nat, height: nat)
      requires width > 0 && height > 0
      ensures this.width == width && this.height == height
      ensures fresh(data) && data[..] == seq(4 * (width * height), _ => 0)
    {
      this.width := width;
      this.height := height;
      data := new Byte[4 * (width * height)](_ => 0);
      new;
      assert data[..] == seq(4 * (width * height), _ => 0);
    }
  }

  /** The offset of cell (x, y) in an image `width` wide. */
  function Offset(width: int, x: int, y: int): int
  {
    (x * width + y) * 4
  }

  /** The offset `getPixel` and `setPixel` use for a point: that of the
      cell its coordinates floor to. */
  function PixelIndex(width: int, x: real, y: real): int
  {
    Offset(width, Floor(x), Floor(y))
  }

  /** The point at whole coordinates is in its own cell. */
  lemma CellIndex(width: int, x: int, y: int)
    ensures PixelIndex(width, x as real, y as real) == Offset(width, x, y)
  {
    assert Floor(x as real) == x && Floor(y as real) == y;
  }

  /** An element of a typed array, `undefined` out of range. */
  function ReadAt(d: seq<Byte>, i: int): Option<Byte>
  {
    if 0 <= i < |d| then Some(d[i]) else None
  }

  /** The four bytes from offset `k`. */
  function PixelAt(d: seq<Byte>, k: int): Rgba<Option<Byte>>
  {
    Rgba(ReadAt(d, k), ReadAt(d, k + 1), ReadAt(d, k + 2), ReadAt(d, k + 3))
  }

  /** `getPixel(image, xy)`. */
  function GetPixel(image: ImageData, x: real, y: real): Rgba<Option<Byte>>
    reads image.data
  {
    PixelAt(image.data[..], PixelIndex(image.width, x, y))
  }

  /** A component stored into a `Uint8ClampedArray`: ToUint8Clamp, with
      `undefined` (NaN) stored as 0. */
  function Clamp(v: Option<real>): Byte
  {
    if v.None? then 0 else ToUint8Clamp(v.value) as Byte
  }

  /** The data after the four components of `v` are stored from offset
      `k`: those four bytes take the clamped components, where they lie in
      the array, and every other byte keeps its value. */
  function Stored(d: seq<Byte>, k: int, v: Rgba<Option<real>>): (r: seq<Byte>)
    ensures |r| == |d|
    ensures forall i :: 0 <= i < |d| && !(k <= i < k + 4) ==> r[i] == d[i]
    ensures 0 <= k && k + 4 <= |d| ==>
      r[k] == Clamp(v.r) && r[k + 1] == Clamp(v.g) && r[k + 2] == Clamp(v.b) && r[k + 3] == Clamp(v.a)
  {
    seq(|d|, i requires 0 <= i < |d| =>
      if i == k then Clamp(v.r)
      else if i == k + 1 then Clamp(v.g)
      else if i == k + 2 then Clamp(v.b)
      else if i == k + 3 then Clamp(v.a)
      else d[i])
  }

  /** A typed-array store of a clamped component: an index out of range
      is ignored. */
  method StoreClamped(a: array<Byte>, i: int, v: Option<real>)
    modifies a
    ensures a[..] == if 0 <= i < a.Length then old(a[..])[i := Clamp(v)] else old(a[..])
  {
    if 0 <= i < a.Length {
      a[i] := Clamp(v);
    }
  }

  /** `setPixel(image, xy, value)`. */
  method SetPixel(image: ImageData, x: real, y: real, value: Rgba<Option<real>>)
    modifies image.data
    ensures image.data[..] == Stored(old(image.data[..]), PixelIndex(image.width, x, y), value)
  {
    var k := PixelIndex(image.width, x, y);
    StoreClamped(image.data, k, value.r);
    StoreClamped(image.data, k + 1, value.g);
    StoreClamped(image.data, k + 2, value.b);
    StoreClamped(image.data, k + 3, value.a);
    assert image.data[..] == Stored(old(image.data[..]), k, value);
  }

  /** A component stored unchanged: a whole number in [0, 255]. */
  predicate Exact(v: Option<real>)
  {
    v.Some? && v.value == Floor(v.value) as real && 0.0 <= v.value <= 255.0
  }

  /** The byte an exact component is stored as. */
  function ByteOf(v: Option<real>): Byte
    requires Exact(v)
  {
    Floor(v.value) as Byte
  }

  /** Reading a pixel back after storing it gives the stored colour when
      its components are whole numbers in [0, 255] and the pixel lies in
      the array. */
  lemma GetAfterSet(d: seq<Byte>, k: int, v: Rgba<Option<real>>)
    requires 0 <= k && k + 4 <= |d|
    requires Exact(v.r) && Exact(v.g) && Exact(v.b) && Exact(v.a)
    ensures PixelAt(Stored(d, k, v), k) == Rgba(Some(ByteOf(v.r)), Some(ByteOf(v.g)), Some(ByteOf(v.b)), Some(ByteOf(v.a)))
  {
  }

  /** Storing a pixel leaves every other cell as it was. */
  lemma SetKeepsOtherCells(d: seq<Byte>, k: int, k': int, v: Rgba<Option<real>>)
    requires k' + 4 <= k || k + 4 <= k'
    ensures PixelAt(Stored(d, k, v), k') == PixelAt(d, k')
  {
  }

  /** A byte read as a component and stored again is stored unchanged. */
  function AsComponent(b: Option<Byte>): Option<real>
  {
    if b.Some? then Some(b.value as real) else None
  }

  /** A pixel read as a colour. */
  function AsColour(p: Rgba<Option<Byte>>): Rgba<Option<real>>
  {
    Rgba(AsComponent(p.r), AsComponent(p.g), AsComponent(p.b), AsComponent(p.a))
  }

  /** Copying a pixel that lies in the array stores its bytes unchanged. */
  lemma CopyExact(p: Rgba<Option<Byte>>)
    requires p.r.Some? && p.g.Some? && p.b.Some? && p.a.Some?
    ensures Exact(AsColour(p).r) && Exact(AsColour(p).g) && Exact(AsColour(p).b) && Exact(AsColour(p).a)
    ensures ByteOf(AsColour(p).r) == p.r.value && ByteOf(AsColour(p).g) == p.g.value
    ensures ByteOf(AsColour(p).b) == p.b.value && ByteOf(AsColour(p).a) == p.a.value
  {
  }

  // Iteration.

  /** The cells of column `x`, top to bottom. */
  function Column(x: int, h: nat): seq<(int, int)>
  {
    seq(h, y => (x, y))
  }

  /** The cells `iterate` visits in an image `w` wide and `h` high: column
      0 top to bottom, then column 1, and so on. */
  function Visits(w: nat, h: nat): (v: seq<(int, int)>)
    ensures |v| == w * h
  {
    if w == 0 then []
    else
      MulSucc(w - 1, h);
      Visits(w - 1, h) + Column(w - 1, h)
  }

  /** One more column of visits. */
  lemma VisitsSucc(x: nat, h: nat)
    ensures Visits(x + 1, h) == Visits(x, h) + Column(x, h)[..h]
  {
    assert Column(x, h)[..h] == Column(x, h);
  }

  /** The i-th cell visited is (i / h, i mod h): the visits run through
      the cells in column-major order. */
  lemma {:induction false} VisitAt(w: nat, h: nat, i: int)
    requires 0 <= i < w * h
    ensures Visits(w, h)[i] == (i / h, i % h)
  {
    if w == 0 {
      assert false;
    }
    MulSucc(w - 1, h);
    if i < (w - 1) * h {
      VisitAt(w - 1, h, i);
    } else {
      DivModOf(w - 1, i - (w - 1) * h, h);
    }
  }

  /** Every cell of the image is visited, exactly once, at position
      x·h + y. */
  lemma VisitedOnce(w: nat, h: nat, x: int, y: int, i: int)
    requires 0 <= x < w && 0 <= y < h && 0 <= i < w * h
    ensures 0 <= x * h + y < w * h
    ensures Visits(w, h)[i] == (x, y) <==> i == x * h + y
  {
    MulMono(x + 1, w, h);
    MulSucc(x, h);
    DivModOf(x, y, h);
    VisitAt(w, h, i);
    VisitAt(w, h, x * h + y);
  }

  /** The visit of a cell of the image comes before the last. */
  lemma VisitIndexBelow(w: nat, h: nat, x: int, y: int)
    requires 0 <= x < w && 0 <= y < h
    ensures 0 <= x * h + y < w * h
  {
    MulMono(x + 1, w, h);
    MulSucc(x, h);
  }

  /** The callback of `iterate`: from a pixel and its cell, the colour to
      store, or `undefined`. */
  type Callback = (Rgba<Option<Byte>>, int, int) -> Option<Rgba<Option<real>>>

  /** The data after `iterate` has visited `cells` in order in an image
      `width` wide: each visit reads the cell's current pixel and stores
      the callback's answer unless it is `undefined`. */
  function Iterated(d: seq<Byte>, width: int, cells: seq<(int, int)>, f: Callback): (r: seq<Byte>)
    ensures |r| == |d|
  {
    if cells == [] then d
    else
      var before := Iterated(d, width, cells[..|cells| - 1], f);
      var c := cells[|cells| - 1];
      var k := Offset(width, c.0, c.1);
      var out := f(PixelAt(before, k), c.0, c.1);
      if out.Some? then Stored(before, k, out.value) else before
  }

  /** A callback that always answers `undefined` leaves the data as it
      was. */
  lemma {:induction false} IterateUndefined(d: seq<Byte>, width: int, cells: seq<(int, int)>, f: Callback)
    requires forall p, x, y :: f(p, x, y).None?
    ensures Iterated(d, width, cells, f) == d
  {
    if cells != [] {
      IterateUndefined(d, width, cells[..|cells| - 1], f);
    }
  }

  /** A byte no visited cell covers keeps its value. */
  lemma {:induction false} IterateUntouched(d: seq<Byte>, width: int, cells: seq<(int, int)>, f: Callback, i: int)
    requires 0 <= i < |d|
    requires forall j :: 0 <= j < |cells| ==> !(Offset(width, cells[j].0, cells[j].1) <= i < Offset(width, cells[j].0, cells[j].1) + 4)
    ensures Iterated(d, width, cells, f)[i] == d[i]
  {
    if cells != [] {
      IterateUntouched(d, width, cells[..|cells| - 1], f, i);
    }
  }

  /** One more visit: `Iterated` of a longer list unfolds once. */
  lemma IteratedSnoc(d: seq<Byte>, width: int, cells: seq<(int, int)>, c: (int, int), f: Callback)
    ensures Iterated(d, width, cells + [c], f) ==
      var before := Iterated(d, width, cells, f);
      var out := f(PixelAt(before, Offset(width, c.0, c.1)), c.0, c.1);
      if out.Some? then Stored(before, Offset(width, c.0, c.1), out.value) else before
  {
    assert (cells + [c])[..|cells|] == cells;
  }

  /** One more cell of a column after the cells `done`. */
  lemma ColumnPrefixSnoc(done: seq<(int, int)>, x: int, h: nat, y: int)
    requires 0 <= y < h
    ensures done + Column(x, h)[..y + 1] == (done + Column(x, h)[..y]) + [(x, y)]
  {
    assert Column(x, h)[..y + 1] == Column(x, h)[..y] + [(x, y)];
  }

  /** `iterate(image, set)`: visits every cell column by column, reading
      its pixel and storing the callback's answer unless it is
      `undefined`; the callback is called once per cell. */
  method Iterate(image: ImageData, f: Callback) returns (calls: nat)
    modifies image.data
    ensures image.data[..] == Iterated(old(image.data[..]), image.width, Visits(image.width, image.height), f)
    ensures calls == image.width * image.height
  {
    ghost var d := image.data[..];
    ghost var done: seq<(int, int)> := [];
    calls := 0;
    var x := 0;
    while x < image.width
      invariant 0 <= x <= image.width
      invariant done == Visits(x, image.height) && calls == |done|
      invariant image.data[..] == Iterated(d, image.width, done, f)
    {
      var y := 0;
      while y < image.height
        invariant 0 <= y <= image.height
        invariant done == Visits(x, image.height) + Column(x, image.height)[..y] && calls == |done|
        invariant image.data[..] == Iterated(d, image.width, done, f)
      {
        CellIndex(image.width, x, y);
        var input := GetPixel(image, x as real, y as real);
        var output := f(input, x, y);
        calls := calls + 1;
        if output.Some? {
          SetPixel(image, x as real, y as real, output.value);
        }
        IteratedSnoc(d, image.width, done, (x, y), f);
        ColumnPrefixSnoc(Visits(x, image.height), x, image.height, y);
        done := done + [(x, y)];
        y := y + 1;
      }
      VisitsSucc(x, image.height);
      x := x + 1;
    }
  }

  /** Visits come in column-major order: a later visit is in a later
      column, or lower in the same one. */
  lemma VisitOrder(w: nat, h: nat, i: int, j: int)
    requires 0 <= i < j < w * h
    ensures i / h < j / h || (i / h == j / h && i % h < j % h)
  {
    var qi, qj := i / h, j / h;
    assert i == qi * h + i % h && j == qj * h + j % h;
    if qi > qj {
      MulMono(qj + 1, qi, h);
      assert false;
    }
  }

  // Cropping.

  /** A mutable `vec(x, y)` corner of the box `crop` is given. */
  class Point {
    var x: int
    var y: int
  }

  /** The corners of the box `crop` copies. */
  datatype Box = Box(minX: int, minY: int, maxX: int, maxY: int)

  /** The test in `crop`'s callback: a cell in the box, bounds
      included. */
  predicate InBox(box: Box, x: int, y: int)
  {
    !(x > box.maxX || x < box.minX || y > box.maxY || y < box.minY)
  }

  /** The colour `crop` hands on from the source pixel at offset `k`. */
  function Copied(src: seq<Byte>, k: int): Rgba<Option<real>>
  {
    AsColour(PixelAt(src, k))
  }

  /** The data after `crop`'s callback has seen cell `c` of a source
      `srcWidth` wide: a cell in the box is copied to its coordinates less
      the box's lower corner. */
  function CropStep(src: seq<Byte>, srcWidth: int, before: seq<Byte>, width: int, box: Box, c: (int, int)): (r: seq<Byte>)
    ensures |r| == |before|
  {
    if InBox(box, c.0, c.1)
    then Stored(before, Offset(width, c.0 - box.minX, c.1 - box.minY), Copied(src, Offset(srcWidth, c.0, c.1)))
    else before
  }

  /** The new image's data after `crop`'s callback has seen `cells` in
      order. */
  function Cropped(src: seq<Byte>, srcWidth: int, target: seq<Byte>, width: int, box: Box, cells: seq<(int, int)>): (r: seq<Byte>)
    ensures |r| == |target|
  {
    if cells == [] then target
    else CropStep(src, srcWidth, Cropped(src, srcWidth, target, width, box, cells[..|cells| - 1]), width, box, cells[|cells| - 1])
  }

  /** The pixel a colour is stored as, where it lies in the array. */
  function StoredPixel(v: Rgba<Option<real>>): Rgba<Option<Byte>>
  {
    Rgba(Some(Clamp(v.r)), Some(Clamp(v.g)), Some(Clamp(v.b)), Some(Clamp(v.a)))
  }

  /** Copying a pixel that lies in the source stores it unchanged. */
  lemma StoredCopy(src: seq<Byte>, k: int)
    requires 0 <= k && k + 4 <= |src|
    ensures StoredPixel(Copied(src, k)) == PixelAt(src, k)
  {
    CopyExact(PixelAt(src, k));
  }

  /** A cell after (a, b) in column-major order, in a column of the box
      at most `w` cells past its start, lies in a later slot of a `w`-wide
      image. */
  lemma LaterSlot(a: int, b: int, x: int, y: int, w: int)
    requires 0 <= a && 0 <= b < w && 0 <= y <= w
    requires x > a || (x == a && y > b)
    ensures x * w + y > a * w + b
  {
    if x > a {
      MulMono(a + 1, x, w);
      MulSucc(a, w);
    }
  }

  /** What `crop` relies on for a square box of side `w` and the target
      cell (a, b) whose source cell lies in the source image. */
  predicate SquareCase(sw: nat, sh: nat, target: seq<Byte>, box: Box, a: int, b: int)
  {
    var w := box.maxX - box.minX;
    w > 0 && box.maxY - box.minY == w && |target| == 4 * (w * w) &&
    0 <= a < w && 0 <= b < w && 0 <= box.minX + a < sw && 0 <= box.minY + b < sh
  }

  /** One more cell seen by `crop`'s callback. */
  lemma CroppedSnoc(src: seq<Byte>, srcWidth: int, target: seq<Byte>, width: int, box: Box, cells: seq<(int, int)>, c: (int, int))
    ensures Cropped(src, srcWidth, target, width, box, cells + [c]) ==
      CropStep(src, srcWidth, Cropped(src, srcWidth, target, width, box, cells), width, box, c)
  {
    assert (cells + [c])[..|cells|] == cells;
  }

  /** Cell `c` is outside the box or lands on a target pixel after the
      one at `k`. */
  predicate Misses(width: int, box: Box, c: (int, int), k: int)
  {
    InBox(box, c.0, c.1) ==> k + 4 <= Offset(width, c.0 - box.minX, c.1 - box.minY)
  }

  /** A cell outside the box, or one landing on a pixel apart from that at
      `k`, leaves the pixel at `k` as it was. */
  lemma CropStepKeeps(src: seq<Byte>, srcWidth: int, before: seq<Byte>, width: int, box: Box, c: (int, int), k: int)
    requires Misses(width, box, c, k)
    ensures PixelAt(CropStep(src, srcWidth, before, width, box, c), k) == PixelAt(before, k)
  {
    if InBox(box, c.0, c.1) {
      SetKeepsOtherCells(before, Offset(width, c.0 - box.minX, c.1 - box.minY), k, Copied(src, Offset(srcWidth, c.0, c.1)));
    }
  }

  /** A cell after (p, q) in column-major order of a column `h` high: the
      cell of a later visit is in a later column, or lower in the same
      one. */
  lemma CellAfter(h: nat, p: int, q: int, j: int)
    requires 0 <= p && 0 <= q < h && p * h + q < j
    ensures j / h > p || (j / h == p && j % h > q)
  {
    var m := p * h + q;
    DivModOf(p, q, h);
    assert m == (m / h) * h + m % h && j == (j / h) * h + j % h;
    if j / h < p {
      MulMono(j / h + 1, p, h);
      assert false;
    }
  }

  /** A cell of the box visited after the source cell of (a, b) lands on
      a target pixel after that of (a, b). */
  lemma LaterCellApart(sh: nat, box: Box, a: int, b: int, j: int, c: (int, int))
    requires var w := box.maxX - box.minX; box.maxY - box.minY == w && 0 <= a < w && 0 <= b < w
    requires 0 <= box.minX + a && 0 <= box.minY + b < sh
    requires (box.minX + a) * sh + (box.minY + b) < j
    requires c == (j / sh, j % sh)
    ensures Misses(box.maxX - box.minX, box, c, Offset(box.maxX - box.minX, a, b))
  {
    if InBox(box, c.0, c.1) {
      var w := box.maxX - box.minX;
      CellAfter(sh, box.minX + a, box.minY + b, j);
      var x, y := c.0 - box.minX, c.1 - box.minY;
      LaterSlot(a, b, x, y, w);
      OffsetApart(w, a, b, x, y);
    }
  }

  /** Distinct slots have pixels four bytes apart. */
  lemma OffsetApart(w: int, a: int, b: int, x: int, y: int)
    requires x * w + y > a * w + b
    ensures Offset(w, a, b) + 4 <= Offset(w, x, y)
  {
  }

  /** The visit at position x·h + y is that of cell (x, y). */
  lemma SourceVisit(w: nat, h: nat, x: int, y: int)
    requires 0 <= x && 0 <= y < h && x * h + y < w * h
    ensures Visits(w, h)[x * h + y] == (x, y)
  {
    VisitAt(w, h, x * h + y);
    DivModOf(x, y, h);
  }

  /** The pixel of a cell of a square image `w` wide lies in its data. */
  lemma OffsetInside(w: int, a: int, b: int)
    requires 0 <= a < w && 0 <= b < w
    ensures 0 <= Offset(w, a, b) && Offset(w, a, b) + 4 <= 4 * (w * w)
  {
    CellInRange(a, b, w);
  }

  /** A pixel stored where it lies in the array reads back as stored. */
  lemma StoredAt(d: seq<Byte>, k: int, v: Rgba<Option<real>>)
    requires 0 <= k && k + 4 <= |d|
    ensures PixelAt(Stored(d, k, v), k) == StoredPixel(v)
  {
  }

  /** Cells that miss the pixel at `k` leave it as it was. */
  lemma {:induction false} CroppedKeeps(src: seq<Byte>, sw: int, target: seq<Byte>, w: int, box: Box, cells: seq<(int, int)>, k: int, n0: int, n: int)
    requires 0 <= n0 <= n <= |cells|
    requires forall j :: n0 <= j < n ==> Misses(w, box, cells[j], k)
    ensures PixelAt(Cropped(src, sw, target, w, box, cells[..n]), k) == PixelAt(Cropped(src, sw, target, w, box, cells[..n0]), k)
  {
    if n > n0 {
      CroppedKeeps(src, sw, target, w, box, cells, k, n0, n - 1);
      assert cells[..n] == cells[..n - 1] + [cells[n - 1]];
      CroppedSnoc(src, sw, target, w, box, cells[..n - 1], cells[n - 1]);
      CropStepKeeps(src, sw, Cropped(src, sw, target, w, box, cells[..n - 1]), w, box, cells[n - 1], k);
    }
  }

  /** Right after a cell of the box is seen, its target pixel holds its
      copy. */
  lemma CroppedAt(src: seq<Byte>, sw: int, target: seq<Byte>, w: int, box: Box, cells: seq<(int, int)>, m: int, k: int)
    requires 0 <= m < |cells| && InBox(box, cells[m].0, cells[m].1)
    requires k == Offset(w, cells[m].0 - box.minX, cells[m].1 - box.minY) && 0 <= k && k + 4 <= |target|
    ensures PixelAt(Cropped(src, sw, target, w, box, cells[..m + 1]), k) ==
      StoredPixel(Copied(src, Offset(sw, cells[m].0, cells[m].1)))
  {
    assert cells[..m + 1] == cells[..m] + [cells[m]];
    CroppedSnoc(src, sw, target, w, box, cells[..m], cells[m]);
    StoredAt(Cropped(src, sw, target, w, box, cells[..m]), k, Copied(src, Offset(sw, cells[m].0, cells[m].1)));
  }

  /** Right after the visit of the source cell of (a, b), the target
      pixel holds that cell's copy. */
  lemma CropAtSource(src: seq<Byte>, sw: nat, sh: nat, target: seq<Byte>, box: Box, a: int, b: int)
    requires SquareCase(sw, sh, target, box, a, b)
    requires (box.minX + a) * sh + (box.minY + b) < sw * sh
    ensures var w := box.maxX - box.minX; var m := (box.minX + a) * sh + (box.minY + b);
      PixelAt(Cropped(src, sw, target, w, box, Visits(sw, sh)[..m + 1]), Offset(w, a, b)) ==
      StoredPixel(Copied(src, Offset(sw, box.minX + a, box.minY + b)))
  {
    var w := box.maxX - box.minX;
    var m := (box.minX + a) * sh + (box.minY + b);
    SourceVisit(sw, sh, box.minX + a, box.minY + b);
    OffsetInside(w, a, b);
    CroppedAt(src, sw, target, w, box, Visits(sw, sh), m, Offset(w, a, b));
  }

  /** Once the visits have passed the source cell of (a, b), the target
      pixel holds that cell's copy: no later cell in the box lands on it. */
  lemma CropAfter(src: seq<Byte>, sw: nat, sh: nat, target: seq<Byte>, box: Box, a: int, b: int, n: int)
    requires SquareCase(sw, sh, target, box, a, b)
    requires (box.minX + a) * sh + (box.minY + b) < n <= sw * sh
    ensures var w := box.maxX - box.minX;
      PixelAt(Cropped(src, sw, target, w, box, Visits(sw, sh)[..n]), Offset(w, a, b)) ==
      StoredPixel(Copied(src, Offset(sw, box.minX + a, box.minY + b)))
  {
    var w := box.maxX - box.minX;
    var m := (box.minX + a) * sh + (box.minY + b);
    LaterCellsApart(sh, box, a, b, m);
    VisitsAll(sw, sh);
    CroppedKeeps(src, sw, target, w, box, Visits(sw, sh), Offset(w, a, b), m + 1, n);
    CropAtSource(src, sw, sh, target, box, a, b);
  }

  /** No cell of the box visited after the source cell of (a, b), the
      m-th visit, lands on the target pixel of (a, b). */
  lemma LaterCellsApart(sh: nat, box: Box, a: int, b: int, m: int)
    requires var w := box.maxX - box.minX; box.maxY - box.minY == w && 0 <= a < w && 0 <= b < w
    requires 0 <= box.minX + a && 0 <= box.minY + b < sh
    requires m == (box.minX + a) * sh + (box.minY + b)
    ensures forall j :: m < j ==> Misses(box.maxX - box.minX, box, (j / sh, j % sh), Offset(box.maxX - box.minX, a, b))
  {
    forall j | m < j
      ensures Misses(box.maxX - box.minX, box, (j / sh, j % sh), Offset(box.maxX - box.minX, a, b))
    {
      LaterCellApart(sh, box, a, b, j, (j / sh, j % sh));
    }
  }

  /** The visits run through the cells in column-major order. */
  lemma VisitsAll(w: nat, h: nat)
    ensures forall i :: 0 <= i < w * h ==> Visits(w, h)[i] == (i / h, i % h)
  {
    forall i | 0 <= i < w * h
      ensures Visits(w, h)[i] == (i / h, i % h)
    {
      VisitAt(w, h, i);
    }
  }

  /** For a square box, every target pixel whose source cell lies in the
      source image ends holding that cell's pixel as stored: the source
      pixel itself when it lies in the source's data. */
  lemma CropSquare(src: seq<Byte>, sw: nat, sh: nat, target: seq<Byte>, box: Box, a: int, b: int)
    requires SquareCase(sw, sh, target, box, a, b)
    ensures PixelAt(Cropped(src, sw, target, box.maxX - box.minX, box, Visits(sw, sh)), Offset(box.maxX - box.minX, a, b))
      == StoredPixel(Copied(src, Offset(sw, box.minX + a, box.minY + b)))
    ensures Offset(sw, box.minX + a, box.minY + b) + 4 <= |src| ==>
      PixelAt(Cropped(src, sw, target, box.maxX - box.minX, box, Visits(sw, sh)), Offset(box.maxX - box.minX, a, b))
      == PixelAt(src, Offset(sw, box.minX + a, box.minY + b))
  {
    var w := box.maxX - box.minX;
    var k := Offset(sw, box.minX + a, box.minY + b);
    VisitIndexBelow(sw, sh, box.minX + a, box.minY + b);
    CropAfter(src, sw, sh, target, box, a, b, sw * sh);
    var visits := Visits(sw, sh);
    assert visits[..sw * sh] == visits;
    var p := PixelAt(Cropped(src, sw, target, w, box, visits), Offset(w, a, b));
    assert p == StoredPixel(Copied(src, k));
    if k + 4 <= |src| {
      MulMono(0, box.minX + a, sw);
      StoredCopy(src, k);
    }
  }

  /** The inner loop of `iterate` in `crop`, over column `x`: each cell
      of the column in the box is copied into `next`. */
  method CropColumn(image: ImageData, next: ImageData, box: Box, x: int, ghost zeros: seq<Byte>, ghost done: seq<(int, int)>)
    requires 0 <= x < image.width && next.data != image.data
    requires done == Visits(x, image.height)
    requires next.data[..] == Cropped(image.data[..], image.width, zeros, next.width, box, done)
    modifies next.data
    ensures next.data[..] == Cropped(image.data[..], image.width, zeros, next.width, box, Visits(x + 1, image.height))
  {
    ghost var src := image.data[..];
    ghost var cells := done;
    var y := 0;
    while y < image.height
      invariant 0 <= y <= image.height
      invariant cells == done + Column(x, image.height)[..y]
      invariant image.data[..] == src
      invariant next.data[..] == Cropped(src, image.width, zeros, next.width, box, cells)
    {
      CellIndex(image.width, x, y);
      var value := GetPixel(image, x as real, y as real);
      if InBox(box, x, y) {
        CellIndex(next.width, x - box.minX, y - box.minY);
        SetPixel(next, (x - box.minX) as real, (y - box.minY) as real, AsColour(value));
      }
      CroppedSnoc(src, image.width, zeros, next.width, box, cells, (x, y));
      ColumnPrefixSnoc(done, x, image.height, y);
      cells := cells + [(x, y)];
      y := y + 1;
    }
    VisitsSucc(x, image.height);
  }

  /** `crop(image, min_xy, max_xy)`: the corners are first put in order in
      place; a box of zero width or height makes `new ImageData` throw;
      otherwise `iterate` runs over the source with a callback that copies
      every cell in the box, bounds included, to a new image of the box's
      size and answers `undefined`, so the source is left as it was. */
  method Crop(image: ImageData, lo: Point, hi: Point) returns (r: Result<ImageData, string>)
    modifies lo, hi
    ensures lo.x == Min(old(lo.x), old(hi.x)) && hi.x == Max(old(lo.x), old(hi.x))
    ensures lo.y == Min(old(lo.y), old(hi.y)) && hi.y == Max(old(lo.y), old(hi.y))
    ensures r.Failure? <==> lo.x == hi.x || lo.y == hi.y
    ensures r.Success? ==> fresh(r.value) && fresh(r.value.data)
    ensures r.Success? ==> r.value.width == hi.x - lo.x && r.value.height == hi.y - lo.y
    ensures r.Success? ==>
      r.value.data[..] == Cropped(image.data[..], image.width, seq(4 * (r.value.width * r.value.height), _ => 0),
        r.value.width, Box(lo.x, lo.y, hi.x, hi.y), Visits(image.width, image.height))
    ensures image.data[..] == old(image.data[..])
  {
    if hi.x < lo.x {
      lo.x, hi.x := hi.x, lo.x;
    }
    if hi.y < lo.y {
      lo.y, hi.y := hi.y, lo.y;
    }
    var width := hi.x - lo.x;
    var height := hi.y - lo.y;
    if width == 0 || height == 0 {
      return Failure("IndexSizeError");
    }
    var next := new ImageData(width, height);
    var box := Box(lo.x, lo.y, hi.x, hi.y);
    ghost var zeros := next.data[..];
    var x := 0;
    while x < image.width
      modifies next.data
      invariant 0 <= x <= image.width
      invariant next.data[..] == Cropped(image.data[..], image.width, zeros, width, box, Visits(x, image.height))
    {
      CropColumn(image, next, box, x, zeros, Visits(x, image.height));
      x := x + 1;
    }
    r := Success(next);
  }

  // Resizing.

  /** The colour `resize`'s callback answers for every cell. */
  const Yellow: Rgba<Option<real>> := Rgba(Some(255.0), Some(255.0), Some(0.0), Some(255.0))

  /** `resize`'s callback, which counts its calls aside. */
  function Fill(p: Rgba<Option<Byte>>, x: int, y: int): Option<Rgba<Option<real>>>
  {
    Some(Yellow)
  }

  /** The byte of the fill colour at a position of a pixel. */
  function YellowByte(j: int): Byte
    requires 0 <= j < 4
  {
    if j == 2 then 0 else 255
  }

  /** Cell i of a square image sits at offset 4·i. */
  lemma SquareOffset(w: nat, i: int)
    requires 0 <= i < w * w
    ensures Offset(w, Visits(w, w)[i].0, Visits(w, w)[i].1) == 4 * i
  {
    VisitAt(w, w, i);
    assert (i / w) * w + i % w == i;
  }

  /** On a square image, after the first `n` visits the first `n` cells
      hold the fill colour and the rest of the data is as it was. */
  lemma {:induction false} FillPrefix(d: seq<Byte>, w: nat, n: int)
    requires |d| == 4 * (w * w) && 0 <= n <= w * w
    ensures var r := Iterated(d, w, Visits(w, w)[..n], Fill);
      (forall i :: 0 <= i < 4 * n ==> r[i] == YellowByte(i % 4)) &&
      (forall i :: 4 * n <= i < |d| ==> r[i] == d[i])
  {
    if n > 0 {
      var visits := Visits(w, w);
      FillPrefix(d, w, n - 1);
      assert visits[..n] == visits[..n - 1] + [visits[n - 1]];
      IteratedSnoc(d, w, visits[..n - 1], visits[n - 1], Fill);
      SquareOffset(w, n - 1);
      FillOne(d, Iterated(d, w, visits[..n - 1], Fill), n);
    }
  }

  /** Filling the n-th pixel extends the filled prefix by one pixel. */
  lemma FillOne(d: seq<Byte>, before: seq<Byte>, n: int)
    requires 0 < n && 4 * n <= |d| == |before|
    requires forall i :: 0 <= i < 4 * (n - 1) ==> before[i] == YellowByte(i % 4)
    requires forall i :: 4 * (n - 1) <= i < |d| ==> before[i] == d[i]
    ensures var r := Stored(before, 4 * (n - 1), Yellow);
      (forall i :: 0 <= i < 4 * n ==> r[i] == YellowByte(i % 4)) &&
      (forall i :: 4 * n <= i < |d| ==> r[i] == d[i])
  {
    var r := Stored(before, 4 * (n - 1), Yellow);
    forall i | 0 <= i < 4 * n
      ensures r[i] == YellowByte(i % 4)
    {
      if i >= 4 * (n - 1) {
        assert i % 4 == i - 4 * (n - 1);
      }
    }
  }

  /** On a square image every byte ends with the fill colour. */
  lemma FillSquare(d: seq<Byte>, w: nat)
    requires |d| == 4 * (w * w)
    ensures forall i :: 0 <= i < |d| ==> Iterated(d, w, Visits(w, w), Fill)[i] == YellowByte(i % 4)
  {
    FillPrefix(d, w, w * w);
    assert Visits(w, w)[..w * w] == Visits(w, w);
  }

  /** `resize(image, width, height)`: a new `width`×`height` image filled
      through `iterate` with (255, 255, 0, 255), and the count of the
      callback's calls, which the source logs beside width·height. A zero
      size makes `new ImageData` throw. On a square size every pixel
      takes the fill colour. */
  method Resize(image: ImageData, width: nat, height: nat) returns (r: Result<ImageData, string>, counter: nat)
    ensures r.Failure? <==> width == 0 || height == 0
    ensures r.Success? ==> fresh(r.value) && fresh(r.value.data)
    ensures r.Success? ==> r.value.width == width && r.value.height == height && counter == width * height
    ensures r.Success? ==> r.value.data.Length == 4 * (width * height)
    ensures r.Success? && width == height ==>
      forall i :: 0 <= i < r.value.data.Length ==> r.value.data[i] == YellowByte(i % 4)
  {
    counter := 0;
    if width == 0 || height == 0 {
      return Failure("IndexSizeError"), counter;
    }
    var next := new ImageData(width, height);
    counter := Iterate(next, Fill);
    if width == height {
      FillSquare(seq(4 * (width * height), _ => 0), width);
    }
    r := Success(next);
  }
}
