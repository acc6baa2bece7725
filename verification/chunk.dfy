/**
 The tunnel's copy and paste of a box of blocks, from the builder thread of build.c, and
 the block address of helper.c. Copying reads the box out of the level into a flat chunk
 behind a header of three lengths; pasting reads a chunk and asks the server for every
 block of it that is not air.
 */
module Chunk {

  const SHORT: int := 0x1_0000
  const INT: int := 0x1_0000_0000
  const INT_MAX: int := 0x7fff_ffff
  const PASTE_BUFFER: nat := 9000

  /** Conversion to a signed 16-bit short. */
  function Short(i: int): int
  {
    var r := i % SHORT;
    if r >= SHORT / 2 then r - SHORT else r
  }

  /** What a signed 32-bit int shows of `i`. */
  function Int(i: int): int
  {
    var r := i % INT;
    if r >= INT / 2 then r - INT else r
  }

  /** Conversion to a signed char. */
  function Char(i: int): int
  {
    var r := i % 256;
    if r >= 128 then r - 256 else r
  }

  /** The two bytes of a short in memory, low byte first, and the short they make. */
  function Low(v: int): int { Char(v) }
  function High(v: int): int { Char(v / 256) }

  function Join(low: int, high: int): int
  {
    Short(low % 256 + high % 256 * 256)
  }

  lemma JoinSplit(v: int)
    requires 0 <= v < SHORT / 2
    ensures Join(Low(v), High(v)) == v
  {
    assert Low(v) % 256 == v % 256;
    assert High(v) % 256 == v / 256;
  }

  /** The level: its extents and its blocks, one char each, in the order of the addresses. */
  datatype Level = Level(lvlx: nat, lvly: nat, lvlz: nat, blocks: seq<int>)

  datatype Point = Point(x: int, y: int, z: int)

  /** A request to the server to set one block. */
  datatype Request = Request(at: Point, block: int)

  /** The address that the formula of calculateOffset means. */
  function Address(level: Level, p: Point): int
  {
    p.y * (level.lvlx * level.lvlz) + p.z * level.lvlz + p.x
  }

  /** calculateOffset: the parameters are shorts, the result is an int. */
  function CalculateOffset(level: Level, p: Point): int
  {
    Int(Address(level, Point(Short(p.x), Short(p.y), Short(p.z))))
  }

  predicate Complete(level: Level)
  {
    |level.blocks| == level.lvlx * level.lvly * level.lvlz
  }

  /** A level as the server sends it: its extents are unsigned shorts. */
  predicate Received(level: Level)
  {
    Complete(level) && level.lvlx < SHORT && level.lvly < SHORT && level.lvlz < SHORT
  }

  predicate Within(level: Level, p: Point)
  {
    0 <= p.x < level.lvlx && 0 <= p.y < level.lvly && 0 <= p.z < level.lvlz
  }

  lemma {:induction false} Grows(a: nat, b: nat, m: nat)
    requires a <= b
    ensures a * m <= b * m
  {
    if a < b {
      Grows(a, b - 1, m);
    }
  }

  lemma RowBound(a: nat, n: nat, r: nat, m: nat)
    requires a < n && r < m
    ensures a * m + r < n * m
  {
    Grows(a + 1, n, m);
  }

  /** A row and a place in it are determined by the flat index. */
  lemma DivideUnique(a: nat, r: nat, b: nat, t: nat, m: nat)
    requires r < m && t < m && a * m + r == b * m + t
    ensures a == b && r == t
  {
    if a < b {
      Grows(a + 1, b, m);
      assert false;
    } else if b < a {
      Grows(b + 1, a, m);
      assert false;
    }
  }

  /** On a square level the address is in bounds, and different blocks have different addresses. */
  lemma OffsetInBounds(level: Level, p: Point)
    requires level.lvlx == level.lvlz && Complete(level) && Within(level, p)
    ensures 0 <= Address(level, p) < |level.blocks|
  {
    var n := level.lvlx;
    RowBound(p.z, n, p.x, n);
    RowBound(p.y, level.lvly, p.z * n + p.x, n * n);
    assert level.lvly * (n * n) == n * level.lvly * n;
  }

  lemma OffsetInjective(level: Level, p: Point, q: Point)
    requires level.lvlx == level.lvlz && Within(level, p) && Within(level, q)
    requires Address(level, p) == Address(level, q)
    ensures p == q
  {
    var n := level.lvlx;
    RowBound(p.z, n, p.x, n);
    RowBound(q.z, n, q.x, n);
    DivideUnique(p.y, p.z * n + p.x, q.y, q.z * n + q.x, n * n);
    DivideUnique(p.z, p.x, q.z, q.x, n);
  }

  /** Every block has an address in the level, and no other block has the same. */
  ghost predicate Addressable(level: Level)
  {
    && (forall p :: Within(level, p) ==> 0 <= CalculateOffset(level, p) < |level.blocks|)
    && (forall p, q :: Within(level, p) && Within(level, q) && CalculateOffset(level, p) == CalculateOffset(level, q)
                       ==> p == q)
  }

  /** Every coordinate is a short, and every address an int. */
  predicate Representable(level: Level)
  {
    level.lvlx <= SHORT / 2 && level.lvly <= SHORT / 2 && level.lvlz <= SHORT / 2 && |level.blocks| <= INT / 2
  }

  /**
   The address takes lvlz for the length of a row, which is lvlx. So it is right exactly on
   square levels and on those of a single row in each slab, as far as shorts and ints reach;
   and on a level without blocks there is nothing to get wrong.
   */
  lemma AddressableIffSquare(level: Level)
    requires Received(level)
    ensures Addressable(level) <==>
      |level.blocks| == 0 || ((level.lvlx == level.lvlz || level.lvlz == 1) && Representable(level))
  {
    if level.lvlx == 0 || level.lvly == 0 || level.lvlz == 0 {
      NoBlocks(level);
    } else {
      HasBlocks(level);
      if (level.lvlx == level.lvlz || level.lvlz == 1) && Representable(level) {
        RegularIsAddressable(level);
      } else {
        NotAddressable(level);
      }
    }
  }

  lemma NoBlocks(level: Level)
    requires Complete(level) && (level.lvlx == 0 || level.lvly == 0 || level.lvlz == 0)
    ensures |level.blocks| == 0
  {
    assert level.lvlx == 0 || level.lvly == 0 ==> level.lvlx * level.lvly == 0;
  }

  lemma HasBlocks(level: Level)
    requires Complete(level) && level.lvlx > 0 && level.lvly > 0 && level.lvlz > 0
    ensures |level.blocks| >= level.lvlx * level.lvlz > 0
  {
    Grows(1, level.lvlx, level.lvlz);
    Grows(1, level.lvly, level.lvlx * level.lvlz);
    assert level.lvly * (level.lvlx * level.lvlz) == level.lvlx * level.lvly * level.lvlz;
  }

  lemma OffsetIsAddress(level: Level, p: Point)
    requires Representable(level) && Within(level, p) && 0 <= Address(level, p) < |level.blocks|
    ensures CalculateOffset(level, p) == Address(level, p)
  {
    assert Short(p.x) == p.x && Short(p.y) == p.y && Short(p.z) == p.z;
  }

  lemma RegularInBounds(level: Level, p: Point)
    requires Complete(level) && (level.lvlx == level.lvlz || level.lvlz == 1) && Within(level, p)
    ensures 0 <= Address(level, p) < |level.blocks|
  {
    if level.lvlx == level.lvlz {
      OffsetInBounds(level, p);
    } else {
      RowBound(p.y, level.lvly, p.x, level.lvlx);
      assert |level.blocks| == level.lvly * level.lvlx;
    }
  }

  lemma RegularInjective(level: Level, p: Point, q: Point)
    requires (level.lvlx == level.lvlz || level.lvlz == 1) && Within(level, p) && Within(level, q)
    requires Address(level, p) == Address(level, q)
    ensures p == q
  {
    if level.lvlx == level.lvlz {
      OffsetInjective(level, p, q);
    } else {
      DivideUnique(p.y, p.x, q.y, q.x, level.lvlx);
    }
  }

  lemma RegularIsAddressable(level: Level)
    requires Complete(level) && (level.lvlx == level.lvlz || level.lvlz == 1) && Representable(level)
    ensures Addressable(level)
  {
    forall p | Within(level, p)
      ensures CalculateOffset(level, p) == Address(level, p) && 0 <= Address(level, p) < |level.blocks|
    {
      RegularInBounds(level, p);
      OffsetIsAddress(level, p);
    }
    forall p, q | Within(level, p) && Within(level, q) && Address(level, p) == Address(level, q)
      ensures p == q
    {
      RegularInjective(level, p, q);
    }
  }

  lemma NotAddressable(level: Level)
    requires Received(level) && level.lvlx > 0 && level.lvly > 0 && level.lvlz > 0
    requires (level.lvlx != level.lvlz && level.lvlz != 1) || !Representable(level)
    ensures !Addressable(level)
  {
    if level.lvlx > SHORT / 2 || level.lvlz > SHORT / 2 {
      TooWide(level);
    } else if level.lvlx != level.lvlz && level.lvlz != 1 {
      NotSquare(level);
    } else {
      TooManyBlocks(level);
    }
  }

  /** A coordinate of 32768 and more turns negative, and so does the address. */
  lemma TooWide(level: Level)
    requires Received(level) && level.lvlx > 0 && level.lvly > 0 && level.lvlz > 0
    requires level.lvlx > SHORT / 2 || level.lvlz > SHORT / 2
    ensures !Addressable(level)
  {
    if level.lvlx > SHORT / 2 {
      var p := Point(SHORT / 2, 0, 0);
      assert Within(level, p) && CalculateOffset(level, p) == -SHORT / 2;
    } else {
      var p := Point(0, 0, SHORT / 2);
      assert Address(level, Point(0, 0, -SHORT / 2)) == -SHORT / 2 * level.lvlz;
      assert Within(level, p) && CalculateOffset(level, p) < 0;
    }
  }

  /** Too short a stride makes rows overlap; too long a one makes slabs overlap or runs out of the level. */
  lemma NotSquare(level: Level)
    requires Received(level) && level.lvly > 0 && level.lvlx != level.lvlz && level.lvlz > 1
    requires 0 < level.lvlx <= SHORT / 2 && level.lvlz <= SHORT / 2
    ensures !Addressable(level)
  {
    if level.lvlz < level.lvlx {
      var p, q := Point(level.lvlz, 0, 0), Point(0, 0, 1);
      OffsetOf(level, p);
      OffsetOf(level, q);
      assert Within(level, p) && Within(level, q) && Address(level, p) == Address(level, q);
    } else {
      StrideTooLong(level);
    }
  }

  lemma StrideTooLong(level: Level)
    requires Received(level) && level.lvly > 0 && 0 < level.lvlx < level.lvlz <= SHORT / 2
    ensures !Addressable(level)
  {
    var slab := level.lvlx * level.lvlz;
    Grows(level.lvlx, SHORT / 2, level.lvlz);
    assert level.lvly == 1 ==> |level.blocks| == slab;
    SlabOverlaps(level, slab);
  }

  lemma SlabOverlaps(level: Level, slab: int)
    requires slab == level.lvlx * level.lvlz < INT / 2 && 0 < level.lvlx < level.lvlz <= SHORT / 2
    requires if level.lvly == 1 then |level.blocks| == slab else level.lvly > 1
    ensures !Addressable(level)
  {
    var p, q := Point(0, 0, level.lvlx), Point(0, 1, 0);
    OffsetOf(level, p);
    OffsetOf(level, q);
    assert Address(level, p) == slab == Address(level, q);
    assert Within(level, p) && (level.lvly > 1 ==> Within(level, q));
  }

  lemma OffsetOf(level: Level, p: Point)
    requires 0 <= p.x < SHORT / 2 && 0 <= p.y < SHORT / 2 && 0 <= p.z < SHORT / 2
    ensures CalculateOffset(level, p) == Int(Address(level, p))
  {
  }

  /** The block with address 2^31 has a negative one, as has the first of a slab that is too high. */
  lemma TooManyBlocks(level: Level)
    requires Complete(level) && 0 < level.lvlx <= SHORT / 2 && 0 < level.lvlz <= SHORT / 2 && level.lvly > 0
    requires level.lvlx == level.lvlz || level.lvlz == 1
    requires level.lvly > SHORT / 2 || |level.blocks| > INT / 2
    ensures !Addressable(level)
  {
    var slab := level.lvlx * level.lvlz;
    Grows(1, level.lvlx, level.lvlz);
    assert |level.blocks| == level.lvly * slab by {
      assert level.lvly * (level.lvlx * level.lvlz) == level.lvlx * level.lvly * level.lvlz;
    }
    TooManySlabs(level, slab);
  }

  lemma TooManySlabs(level: Level, slab: nat)
    requires slab == level.lvlx * level.lvlz > 0 && 0 < level.lvlx <= SHORT / 2 && level.lvlz > 0
    requires level.lvlx == level.lvlz || level.lvlz == 1
    requires level.lvly > SHORT / 2 || level.lvly * slab > INT / 2
    ensures !Addressable(level)
  {
    if SHORT / 2 * slab > INT / 2 {
      assert level.lvlz == 1 ==> slab == level.lvlx;
      Grows(SHORT / 2, if level.lvly > SHORT / 2 then level.lvly else SHORT / 2, slab);
      BlockFarOut(level, slab);
    } else {
      Grows(if level.lvly <= SHORT / 2 then level.lvly else 0, SHORT / 2, slab);
      TooHigh(level, slab);
    }
  }

  lemma TooHigh(level: Level, slab: nat)
    requires slab == level.lvlx * level.lvlz > 0 && SHORT / 2 * slab <= INT / 2
    requires level.lvlx > 0 && level.lvlz > 0 && level.lvly > SHORT / 2
    ensures !Addressable(level)
  {
    var p := Point(0, SHORT / 2, 0);
    assert Address(level, Point(0, -SHORT / 2, 0)) == -SHORT / 2 * slab;
    assert Within(level, p) && CalculateOffset(level, p) < 0;
  }

  lemma BlockFarOut(level: Level, slab: nat)
    requires slab == level.lvlx * level.lvlz > 0 && SHORT / 2 * slab > INT / 2
    requires 0 < level.lvlx <= SHORT / 2 && level.lvlx == level.lvlz
    requires level.lvly * slab > INT / 2
    ensures !Addressable(level)
  {
    var k: nat := INT / 2;
    var p := BlockAtAddress(level, slab, k);
    RowOf(k, SHORT / 2, slab);
    OffsetOf(level, p);
  }

  /** On a square level every address belongs to a block. */
  lemma BlockAtAddress(level: Level, slab: nat, k: nat) returns (p: Point)
    requires slab == level.lvlx * level.lvlz > 0 && level.lvlx == level.lvlz > 0 && k < level.lvly * slab
    ensures Within(level, p) && Address(level, p) == k && p.y == k / slab
  {
    var y, r := k / slab, k % slab;
    RowOf(k, level.lvly, slab);
    RowOf(r, level.lvlx, level.lvlz);
    p := Point(r % level.lvlz, y, r / level.lvlz);
  }

  // ---------- the chunk ----------

  /** The lengths of a box along the three axes. */
  datatype Size = Size(ux: nat, uy: nat, uz: nat)

  function Cells(z: Size): nat
  {
    z.uy * z.ux * z.uz
  }

  /** The flat index of a block of the box, counted from the header's end. */
  function Flat(z: Size, d: Point): int
  {
    (d.y * z.ux + d.x) * z.uz + d.z
  }

  predicate InSize(z: Size, d: Point)
  {
    0 <= d.x < z.ux && 0 <= d.y < z.uy && 0 <= d.z < z.uz
  }

  /** The block of the box with a given flat index. */
  function Unflat(z: Size, k: nat): (d: Point)
    requires k < Cells(z)
    ensures InSize(z, d) && Flat(z, d) == k
  {
    HasCells(z);
    var row := k / z.uz;
    RowOf(k, z.uy * z.ux, z.uz);
    RowOf(row, z.uy, z.ux);
    Point(row % z.ux, row / z.ux, k % z.uz)
  }

  lemma HasCells(z: Size)
    requires Cells(z) > 0
    ensures z.ux > 0 && z.uz > 0
  {
    assert z.ux == 0 ==> z.uy * z.ux == 0;
  }

  lemma RowOf(k: nat, n: nat, m: nat)
    requires m > 0 && k < n * m
    ensures k / m < n && k / m * m + k % m == k
  {
    if k / m >= n {
      Grows(n, k / m, m);
    }
  }

  lemma FlatInBounds(z: Size, d: Point)
    requires InSize(z, d)
    ensures 0 <= Flat(z, d) < Cells(z) && Unflat(z, Flat(z, d)) == d
  {
    RowBound(d.y, z.uy, d.x, z.ux);
    RowBound(d.y * z.ux + d.x, z.uy * z.ux, d.z, z.uz);
    FlatInjective(z, d, Unflat(z, Flat(z, d)));
  }

  lemma FlatInjective(z: Size, d: Point, e: Point)
    requires InSize(z, d) && InSize(z, e) && Flat(z, d) == Flat(z, e)
    ensures d == e
  {
    RowBound(d.y, z.uy, d.x, z.ux);
    RowBound(e.y, z.uy, e.x, z.ux);
    DivideUnique(d.y * z.ux + d.x, d.z, e.y * z.ux + e.x, e.z, z.uz);
    DivideUnique(d.y, d.x, e.y, e.x, z.ux);
  }

  function Plus(p: Point, d: Point): Point
  {
    Point(p.x + d.x, p.y + d.y, p.z + d.z)
  }

  /** The level holds something at the address of every block of the box. */
  ghost predicate Readable(level: Level, low: Point, z: Size)
  {
    forall d :: InSize(z, d) ==> 0 <= CalculateOffset(level, Plus(low, d)) < |level.blocks|
  }

  /** The block of the level that the copied box shows at offset `d` from its low corner. */
  function BlockAt(level: Level, low: Point, z: Size, d: Point): int
    requires Readable(level, low, z) && InSize(z, d)
  {
    level.blocks[CalculateOffset(level, Plus(low, d))]
  }

  /**
   A box whose addresses the level has and for which the short loop counters and the int
   size suffice: at the coordinate 32767 a counter would wrap before it exceeds the bound.
   The corners are unsigned shorts, so no coordinate is negative.
   */
  ghost predicate Copyable(level: Level, low: Point, z: Size)
  {
    && Readable(level, low, z)
    && 0 <= low.x && 0 <= low.y && 0 <= low.z && z.ux > 0 && z.uy > 0 && z.uz > 0
    && low.x + z.ux < SHORT / 2 && low.y + z.uy < SHORT / 2 && low.z + z.uz < SHORT / 2
    && 6 + Cells(z) <= INT_MAX
  }

  /** Boxes inside an addressable level are readable, and show what is there. */
  lemma BoxIsReadable(level: Level, low: Point, z: Size)
    requires Addressable(level) && Within(level, low)
    requires low.x + z.ux <= level.lvlx && low.y + z.uy <= level.lvly && low.z + z.uz <= level.lvlz
    ensures Readable(level, low, z)
  {
    forall d | InSize(z, d) ensures 0 <= CalculateOffset(level, Plus(low, d)) < |level.blocks| {
      assert Within(level, Plus(low, d));
    }
  }

  /** So any box of a square level can be copied, if its size is an int and it keeps clear of 32767. */
  lemma SquareBoxIsCopyable(level: Level, p: Point, q: Point)
    requires Received(level) && level.lvlx == level.lvlz && Representable(level)
    requires Within(level, p) && Within(level, q) && 6 + Cells(Size3(p, q)) <= INT_MAX
    requires Max(p.x, q.x) < SHORT / 2 - 1 && Max(p.y, q.y) < SHORT / 2 - 1 && Max(p.z, q.z) < SHORT / 2 - 1
    ensures Copyable(level, Low3(p, q), Size3(p, q))
  {
    RegularIsAddressable(level);
    BoxIsReadable(level, Low3(p, q), Size3(p, q));
  }

  /** `bytes` begins with the header for `z` and the blocks of the box, in flat order. */
  ghost predicate Holds(bytes: seq<int>, level: Level, low: Point, z: Size)
    requires Readable(level, low, z)
  {
    && |bytes| >= 6 + Cells(z)
    && HasHeader(bytes, z)
    && forall k: nat :: k < Cells(z) ==> bytes[6 + k] == BlockAt(level, low, z, Unflat(z, k))
  }

  predicate HasHeader(bytes: seq<int>, z: Size)
  {
    && |bytes| >= 6
    && bytes[0] == Low(z.ux) && bytes[1] == High(z.ux)
    && bytes[2] == Low(z.uy) && bytes[3] == High(z.uy)
    && bytes[4] == Low(z.uz) && bytes[5] == High(z.uz)
  }

  // ---------- copy ----------

  function Min(a: int, b: int): int { if a > b then b else a }
  function Max(a: int, b: int): int { if a > b then a else b }

  function Low3(p: Point, q: Point): Point
  {
    Point(Min(p.x, q.x), Min(p.y, q.y), Min(p.z, q.z))
  }

  function Size3(p: Point, q: Point): Size
  {
    Size(Max(p.x, q.x) - Min(p.x, q.x) + 1, Max(p.y, q.y) - Min(p.y, q.y) + 1, Max(p.z, q.z) - Min(p.z, q.z) + 1)
  }

  /** Lines 150-166 of build.c: how many coordinates there are from `lo` to `hi`. */
  method Span(lo: int, hi: int) returns (compare: int)
    requires lo <= hi
    ensures compare == hi - lo + 1
  {
    compare := 0;
    var i := lo;
    while i <= hi
      invariant lo <= i <= hi + 1 && compare == i - lo
    {
      compare := compare + 1;
      i := i + 1;
    }
  }

  /** The header and the first `n` blocks of the box have been written. */
  ghost predicate Filled(bytes: seq<int>, level: Level, low: Point, z: Size, n: int)
    requires Readable(level, low, z)
  {
    0 <= n <= Cells(z) && |bytes| == 6 + Cells(z) && HasHeader(bytes, z) &&
    forall k: nat :: k < n ==> bytes[6 + k] == BlockAt(level, low, z, Unflat(z, k))
  }

  /** The flat index runs on from block to block, row to row and slab to slab. */
  lemma FlatSteps(z: Size, dx: int, dy: int)
    ensures Flat(z, Point(dx, dy, z.uz)) == Flat(z, Point(dx + 1, dy, 0))
    ensures Flat(z, Point(z.ux, dy, 0)) == Flat(z, Point(0, dy + 1, 0))
    ensures Flat(z, Point(0, 0, 0)) == 0 && Flat(z, Point(0, z.uy, 0)) == Cells(z)
  {
    assert (dy * z.ux + dx) * z.uz + z.uz == (dy * z.ux + dx + 1) * z.uz;
    assert dy * z.ux + z.ux == (dy + 1) * z.ux;
  }

  lemma FlatStep(z: Size, dx: int, dy: int, dz: int)
    ensures Flat(z, Point(dx, dy, dz + 1)) == Flat(z, Point(dx, dy, dz)) + 1
  {
  }

  lemma ShortFits(i: int)
    requires -SHORT / 2 <= i < SHORT / 2
    ensures Short(i) == i
  {
  }

  /** One block: lines 201-203. */
  method CopyBlock(copyBuf: array<int>, level: Level, ghost low: Point, ghost z: Size, p: Point, bufLoop: int)
    requires Copyable(level, low, z) && Filled(copyBuf[..], level, low, z, bufLoop - 6)
    requires var d := Point(p.x - low.x, p.y - low.y, p.z - low.z);
             InSize(z, d) && bufLoop == 6 + Flat(z, d)
    modifies copyBuf
    ensures Filled(copyBuf[..], level, low, z, bufLoop + 1 - 6)
  {
    ghost var d := Point(p.x - low.x, p.y - low.y, p.z - low.z);
    FlatInBounds(z, d);
    assert Plus(low, d) == p;
    var offset := CalculateOffset(level, p);
    ghost var was := copyBuf[..];
    copyBuf[bufLoop] := level.blocks[offset];
    assert copyBuf[..] == was[bufLoop := level.blocks[offset]];
  }

  /** One row: lines 199-205. */
  method CopyRow(copyBuf: array<int>, level: Level, ghost low: Point, ghost z: Size,
                 vx: int, vy: int, z1: int, z2: int, start: int) returns (bufLoop: int)
    requires Copyable(level, low, z) && Filled(copyBuf[..], level, low, z, start - 6)
    requires 0 <= vx - low.x < z.ux && 0 <= vy - low.y < z.uy && z1 == low.z && z2 == z1 + z.uz - 1
    requires start == 6 + Flat(z, Point(vx - low.x, vy - low.y, 0))
    modifies copyBuf
    ensures bufLoop == 6 + Flat(z, Point(vx - low.x + 1, vy - low.y, 0))
    ensures Filled(copyBuf[..], level, low, z, bufLoop - 6)
  {
    bufLoop := start;
    var vz := z1;
    while vz <= z2
      invariant z1 <= vz <= z2 + 1
      invariant bufLoop == 6 + Flat(z, Point(vx - low.x, vy - low.y, vz - z1))
      invariant Filled(copyBuf[..], level, low, z, bufLoop - 6)
    {
      FlatStep(z, vx - low.x, vy - low.y, vz - z1);
      CopyBlock(copyBuf, level, low, z, Point(vx, vy, vz), bufLoop);
      bufLoop := bufLoop + 1;
      ShortFits(vz + 1);
      vz := Short(vz + 1);
    }
    FlatSteps(z, vx - low.x, vy - low.y);
  }

  /** One slab: lines 197-207. */
  method CopySlab(copyBuf: array<int>, level: Level, ghost low: Point, ghost z: Size,
                  x1: int, x2: int, vy: int, z1: int, z2: int, start: int) returns (bufLoop: int)
    requires Copyable(level, low, z) && Filled(copyBuf[..], level, low, z, start - 6)
    requires x1 == low.x && x2 == x1 + z.ux - 1 && 0 <= vy - low.y < z.uy && z1 == low.z && z2 == z1 + z.uz - 1
    requires start == 6 + Flat(z, Point(0, vy - low.y, 0))
    modifies copyBuf
    ensures bufLoop == 6 + Flat(z, Point(0, vy - low.y + 1, 0))
    ensures Filled(copyBuf[..], level, low, z, bufLoop - 6)
  {
    bufLoop := start;
    var vx := x1;
    while vx <= x2
      invariant x1 <= vx <= x2 + 1
      invariant bufLoop == 6 + Flat(z, Point(vx - x1, vy - low.y, 0))
      invariant Filled(copyBuf[..], level, low, z, bufLoop - 6)
    {
      bufLoop := CopyRow(copyBuf, level, low, z, vx, vy, z1, z2, bufLoop);
      ShortFits(vx + 1);
      vx := Short(vx + 1);
    }
    FlatSteps(z, 0, vy - low.y);
  }

  /** Lines 134-148 along one axis: the corners may come in any order. */
  method Order(c1: int, c2: int) returns (first: int, last: int)
    ensures first == Min(c1, c2) && last == Max(c1, c2)
  {
    first, last := c1, c2;
    if first > last {
      first, last := last, first;
    }
  }

  /** Lines 150-166 along one axis: the length, as a short. */
  method Length(first: int, last: int) returns (u: int)
    requires 0 <= first <= last < SHORT / 2 - 1
    ensures u == last - first + 1
  {
    var compare := Span(first, last);
    u := Short(compare);
    ShortFits(compare);
  }

  /** The three lengths of the box. */
  method Lengths(low: Point, high: Point) returns (z: Size)
    requires 0 <= low.x <= high.x < SHORT / 2 - 1
    requires 0 <= low.y <= high.y < SHORT / 2 - 1
    requires 0 <= low.z <= high.z < SHORT / 2 - 1
    ensures z == Size(high.x - low.x + 1, high.y - low.y + 1, high.z - low.z + 1)
  {
    var ux := Length(low.x, high.x);
    var uy := Length(low.y, high.y);
    var uz := Length(low.z, high.z);
    z := Size(ux, uy, uz);
  }

  /** Lines 189-209: the three loops. */
  method CopyBox(level: Level, low: Point, high: Point, z: Size, copyBuf: array<int>)
    requires Copyable(level, low, z) && high == Point(low.x + z.ux - 1, low.y + z.uy - 1, low.z + z.uz - 1)
    requires copyBuf.Length == 6 + Cells(z) && HasHeader(copyBuf[..], z)
    modifies copyBuf
    ensures Filled(copyBuf[..], level, low, z, Cells(z))
  {
    FlatSteps(z, 0, 0);
    var bufLoop := 6;
    var vy := low.y;
    while vy <= high.y
      invariant low.y <= vy <= high.y + 1
      invariant bufLoop == 6 + Flat(z, Point(0, vy - low.y, 0))
      invariant Filled(copyBuf[..], level, low, z, bufLoop - 6)
    {
      bufLoop := CopySlab(copyBuf, level, low, z, low.x, high.x, vy, low.z, high.z, bufLoop);
      ShortFits(vy + 1);
      vy := Short(vy + 1);
    }
  }

  /** Lines 133-209. */
  method Copy(level: Level, p: Point, q: Point) returns (copyBuf: array<int>)
    requires Copyable(level, Low3(p, q), Size3(p, q))
    ensures fresh(copyBuf) && copyBuf.Length == 6 + Cells(Size3(p, q))
    ensures Holds(copyBuf[..], level, Low3(p, q), Size3(p, q))
  {
    var x1, x2 := Order(p.x, q.x);
    var y1, y2 := Order(p.y, q.y);
    var z1, z2 := Order(p.z, q.z);
    var low, high := Point(x1, y1, z1), Point(x2, y2, z2);
    var z := Lengths(low, high);
    copyBuf := Allocate(z.ux, z.uy, z.uz);
    CopyBox(level, low, high, z, copyBuf);
  }

  /** Lines 169-187: a buffer with its header. */
  method Allocate(ux: int, uy: int, uz: int) returns (copyBuf: array<int>)
    requires ux > 0 && uy > 0 && uz > 0 && 6 + Cells(Size(ux, uy, uz)) <= INT_MAX
    ensures fresh(copyBuf) && copyBuf.Length == 6 + Cells(Size(ux, uy, uz))
    ensures HasHeader(copyBuf[..], Size(ux, uy, uz))
  {
    assert uy * ux * uz == ux * uy * uz;
    Grows(0, uy * ux, uz);
    var size := Int(ux * uy * uz + 6);
    assert size == 6 + Cells(Size(ux, uy, uz));
    copyBuf := new int[size];
    copyBuf[0], copyBuf[1] := Low(ux), High(ux);
    copyBuf[2], copyBuf[3] := Low(uy), High(uy);
    copyBuf[4], copyBuf[5] := Low(uz), High(uz);
  }

  // ---------- paste ----------

  /** What the first `k` blocks of a chunk ask for when the chunk is pasted at `corner`. */
  function Placed(bytes: seq<int>, corner: Point, z: Size, k: nat): seq<Request>
    requires k <= Cells(z) && |bytes| >= 6 + Cells(z)
  {
    if k == 0 then []
    else
      Placed(bytes, corner, z, k - 1) +
      if bytes[6 + k - 1] == 0 then [] else [Request(Plus(corner, Unflat(z, k - 1)), bytes[6 + k - 1])]
  }

  /** The coordinates of the pasted box are shorts, and no loop counter wraps before it exceeds its bound. */
  predicate Fits(corner: Point, z: Size)
  {
    && -SHORT / 2 <= corner.x < SHORT / 2 && corner.x + z.ux < SHORT / 2
    && -SHORT / 2 <= corner.y < SHORT / 2 && corner.y + z.uy < SHORT / 2
    && -SHORT / 2 <= corner.z < SHORT / 2 && corner.z + z.uz < SHORT / 2
  }

  /** The range from `first` to `last` has `n` coordinates; it is empty if it ends before it starts. */
  predicate Ranges(first: int, last: int, n: nat)
  {
    last == first + n - 1 || (last < first && n == 0)
  }

  /** The requests so far are those of the first `n` blocks. */
  ghost predicate Asked(requests: seq<Request>, bytes: seq<int>, corner: Point, z: Size, n: int)
    requires |bytes| >= 6 + Cells(z)
  {
    0 <= n <= Cells(z) && requests == Placed(bytes, corner, z, n)
  }

  /** One block: lines 110-118. The pause of a limited paste does not change what is asked. */
  method PasteBlock(pastebuf: array<int>, ghost corner: Point, ghost z: Size, p: Point, bufLoop: int,
                    requests: seq<Request>) returns (requests': seq<Request>)
    requires pastebuf.Length >= 6 + Cells(z) && Asked(requests, pastebuf[..], corner, z, bufLoop - 6)
    requires var d := Point(p.x - corner.x, p.y - corner.y, p.z - corner.z);
             InSize(z, d) && bufLoop == 6 + Flat(z, d)
    ensures Asked(requests', pastebuf[..], corner, z, bufLoop + 1 - 6)
  {
    ghost var d := Point(p.x - corner.x, p.y - corner.y, p.z - corner.z);
    FlatInBounds(z, d);
    assert Plus(corner, d) == p;
    requests' := requests;
    if pastebuf[bufLoop] != 0 {
      requests' := requests + [Request(p, pastebuf[bufLoop])];
    }
  }

  /** One row: lines 102-120. */
  method PasteRow(pastebuf: array<int>, ghost corner: Point, ghost z: Size, vx: int, vy: int, z1: int, pz: int,
                  start: int, requests: seq<Request>) returns (bufLoop: int, requests': seq<Request>)
    requires Fits(corner, z)
    requires pastebuf.Length >= 6 + Cells(z) && Asked(requests, pastebuf[..], corner, z, start - 6)
    requires 0 <= vx - corner.x < z.ux && 0 <= vy - corner.y < z.uy && z1 == corner.z && Ranges(z1, pz, z.uz)
    requires start == 6 + Flat(z, Point(vx - corner.x, vy - corner.y, 0))
    ensures bufLoop == 6 + Flat(z, Point(vx - corner.x + 1, vy - corner.y, 0))
    ensures Asked(requests', pastebuf[..], corner, z, bufLoop - 6)
  {
    bufLoop, requests' := start, requests;
    var vz := z1;
    while vz <= pz
      invariant z1 <= vz <= z1 + z.uz
      invariant bufLoop == 6 + Flat(z, Point(vx - corner.x, vy - corner.y, vz - z1))
      invariant Asked(requests', pastebuf[..], corner, z, bufLoop - 6)
    {
      FlatStep(z, vx - corner.x, vy - corner.y, vz - z1);
      requests' := PasteBlock(pastebuf, corner, z, Point(vx, vy, vz), bufLoop, requests');
      bufLoop := bufLoop + 1;
      ShortFits(vz + 1);
      vz := Short(vz + 1);
    }
    FlatSteps(z, vx - corner.x, vy - corner.y);
  }

  /** One slab: lines 100-122. */
  method PasteSlab(pastebuf: array<int>, ghost corner: Point, ghost z: Size, x1: int, px: int, vy: int,
                   z1: int, pz: int, start: int, requests: seq<Request>)
    returns (bufLoop: int, requests': seq<Request>)
    requires Fits(corner, z)
    requires pastebuf.Length >= 6 + Cells(z) && Asked(requests, pastebuf[..], corner, z, start - 6)
    requires x1 == corner.x && Ranges(x1, px, z.ux) && 0 <= vy - corner.y < z.uy
    requires z1 == corner.z && Ranges(z1, pz, z.uz)
    requires start == 6 + Flat(z, Point(0, vy - corner.y, 0))
    ensures bufLoop == 6 + Flat(z, Point(0, vy - corner.y + 1, 0))
    ensures Asked(requests', pastebuf[..], corner, z, bufLoop - 6)
  {
    bufLoop, requests' := start, requests;
    var vx := x1;
    while vx <= px
      invariant x1 <= vx <= x1 + z.ux
      invariant bufLoop == 6 + Flat(z, Point(vx - x1, vy - corner.y, 0))
      invariant Asked(requests', pastebuf[..], corner, z, bufLoop - 6)
    {
      bufLoop, requests' := PasteRow(pastebuf, corner, z, vx, vy, z1, pz, bufLoop, requests');
      ShortFits(vx + 1);
      vx := Short(vx + 1);
    }
    FlatSteps(z, 0, vy - corner.y);
  }

  /** An unsigned 16-bit short: the type of the corners in memory. */
  type UShort = i: int | 0 <= i < SHORT witness 0

  /** The corner of a paste, as the command thread stores it. */
  datatype Corner = Corner(x: UShort, y: UShort, z: UShort)

  function At(corner: Corner): Point
  {
    Point(corner.x, corner.y, corner.z)
  }

  /** Along one axis: the other end that the header's length `u` gives, and the range after the exchange. */
  function Opposite(corner: UShort, u: int): int { Short(corner + u - 1) }
  function First(corner: UShort, u: int): int { Min(corner, Opposite(corner, u)) }
  function Last(corner: UShort, u: int): int
  {
    if corner > Opposite(corner, u) then Short(corner) else Opposite(corner, u)
  }
  function Extent(corner: UShort, u: int): nat { Max(0, Last(corner, u) - First(corner, u) + 1) }

  function StartOf(bytes: seq<int>, corner: Corner): Point
    requires |bytes| >= 6
  {
    Point(First(corner.x, Join(bytes[0], bytes[1])),
          First(corner.y, Join(bytes[2], bytes[3])),
          First(corner.z, Join(bytes[4], bytes[5])))
  }

  function SizeOf(bytes: seq<int>, corner: Corner): Size
    requires |bytes| >= 6
  {
    Size(Extent(corner.x, Join(bytes[0], bytes[1])),
         Extent(corner.y, Join(bytes[2], bytes[3])),
         Extent(corner.z, Join(bytes[4], bytes[5])))
  }

  /**
   Which ranges are the ones a copy meant. A length that a copy wrote gives back its range at
   the corner if and only if the range ends within the shorts; if it does not, it starts
   elsewhere. A length of zero or less gives the range that ends at the corner, one
   coordinate longer than the length says.
   */
  lemma RangeIsMeant(corner: UShort, u: int)
    requires -SHORT / 2 <= u < SHORT / 2
    ensures u > 0 ==>
              (First(corner, u) == corner && Extent(corner, u) == u <==> corner + u - 1 < SHORT / 2)
    ensures u > 0 && corner + u - 1 >= SHORT / 2 ==> First(corner, u) != corner
    ensures u <= 0 && corner < SHORT / 2 && -SHORT / 2 <= corner + u - 1 ==>
              Last(corner, u) == corner && Extent(corner, u) == 2 - u
  {
  }

  /**
   A corner beyond the shorts, such as the one stored for a negative number: lengths of two
   or more ask for nothing, if the range stays below zero, and a length of one keeps its place.
   */
  lemma RangeBeyondShorts(corner: UShort, u: int)
    requires SHORT / 2 <= corner && 0 < u <= SHORT - corner
    ensures Extent(corner, u) == if u == 1 then 1 else 0
    ensures First(corner, u) == corner - SHORT + u - 1
  {
  }

  /** Lines 66-88 along one axis: the header's length and the corner make a range. */
  method Range(low: int, high: int, corner: UShort) returns (first: int, last: int)
    ensures var u := Join(low, high);
            first == First(corner, u) && last == Last(corner, u)
  {
    var px := Join(low, high);
    px := Short(corner + px - 1);
    first, last := corner, px;
    if first > last {
      first, last := last, Short(first);
    }
  }

  /** Lines 42-124, for a paste that is not halted: any header and corner, so long as the box fits. */
  method Paste(pastebuf: array<int>, corner: Corner) returns (requests: seq<Request>)
    requires pastebuf.Length == PASTE_BUFFER && 6 + Cells(SizeOf(pastebuf[..], corner)) <= PASTE_BUFFER
    requires Fits(StartOf(pastebuf[..], corner), SizeOf(pastebuf[..], corner))
    ensures var z := SizeOf(pastebuf[..], corner);
            requests == Placed(pastebuf[..], StartOf(pastebuf[..], corner), z, Cells(z))
  {
    var x, px := Range(pastebuf[0], pastebuf[1], corner.x);
    var y, py := Range(pastebuf[2], pastebuf[3], corner.y);
    var w, pz := Range(pastebuf[4], pastebuf[5], corner.z);
    requests := PasteBox(pastebuf, StartOf(pastebuf[..], corner), SizeOf(pastebuf[..], corner), x, px, y, py, w, pz);
  }

  /** Lines 98-124: the three loops. */
  method PasteBox(pastebuf: array<int>, ghost corner: Point, ghost z: Size,
                  x: int, px: int, y: int, py: int, w: int, pz: int)
    returns (requests: seq<Request>)
    requires pastebuf.Length >= 6 + Cells(z) && Fits(corner, z)
    requires x == corner.x && Ranges(x, px, z.ux) && y == corner.y && Ranges(y, py, z.uy)
    requires w == corner.z && Ranges(w, pz, z.uz)
    ensures Asked(requests, pastebuf[..], corner, z, Cells(z))
  {
    requests := [];
    var bufLoop := 6;
    var vy := y;
    FlatSteps(z, 0, 0);
    while vy <= py
      invariant y <= vy <= y + z.uy
      invariant bufLoop == 6 + Flat(z, Point(0, vy - y, 0))
      invariant Asked(requests, pastebuf[..], corner, z, bufLoop - 6)
    {
      bufLoop, requests := PasteSlab(pastebuf, corner, z, x, px, vy, w, pz, bufLoop, requests);
      ShortFits(vy + 1);
      vy := Short(vy + 1);
    }
  }

  // ---------- round trip ----------

  lemma {:induction false} PlacedExactly(bytes: seq<int>, corner: Point, z: Size, k: nat, r: Request)
    requires k <= Cells(z) && |bytes| >= 6 + Cells(z)
    ensures r in Placed(bytes, corner, z, k) <==>
            exists j: nat :: j < k && bytes[6 + j] != 0 && r == Request(Plus(corner, Unflat(z, j)), bytes[6 + j])
  {
    if k > 0 {
      PlacedExactly(bytes, corner, z, k - 1, r);
    }
  }

  lemma {:induction false} PlacedOnce(bytes: seq<int>, corner: Point, z: Size, k: nat)
    requires k <= Cells(z) && |bytes| >= 6 + Cells(z)
    ensures var rs := Placed(bytes, corner, z, k);
            forall i, j :: 0 <= i < j < |rs| ==> rs[i].at != rs[j].at
  {
    if k > 0 {
      PlacedOnce(bytes, corner, z, k - 1);
      var before := Placed(bytes, corner, z, k - 1);
      forall i | 0 <= i < |before| ensures before[i].at != Plus(corner, Unflat(z, k - 1)) {
        PlacedExactly(bytes, corner, z, k - 1, before[i]);
        var j: nat :| j < k - 1 && before[i] == Request(Plus(corner, Unflat(z, j)), bytes[6 + j]);
        assert Flat(z, Unflat(z, j)) == j;
      }
    }
  }

  /** The requests are the box's blocks other than air, moved to the corner, each once. */
  ghost predicate Pasted(rs: seq<Request>, level: Level, low: Point, z: Size, corner: Point)
    requires Readable(level, low, z)
  {
    && (forall r :: r in rs <==>
          exists d :: InSize(z, d) && r.at == Plus(corner, d) && r.block == BlockAt(level, low, z, d) && r.block != 0)
    && (forall i, j :: 0 <= i < j < |rs| ==> rs[i].at != rs[j].at)
  }

  /**
   Round trip. Pasting a chunk that holds a copied box asks for exactly the box's blocks
   other than air, moved to the paste corner, and for each of them once.
   */
  lemma CopyThenPaste(bytes: seq<int>, level: Level, low: Point, z: Size, corner: Point)
    requires Readable(level, low, z) && Holds(bytes, level, low, z)
    ensures Pasted(Placed(bytes, corner, z, Cells(z)), level, low, z, corner)
  {
    PlacedOnce(bytes, corner, z, Cells(z));
    forall r ensures r in Placed(bytes, corner, z, Cells(z)) <==>
        exists d :: InSize(z, d) && r.at == Plus(corner, d) && r.block == BlockAt(level, low, z, d) && r.block != 0
    {
      PlacedExactly(bytes, corner, z, Cells(z), r);
      if d :| InSize(z, d) && r.at == Plus(corner, d) && r.block == BlockAt(level, low, z, d) && r.block != 0 {
        FlatInBounds(z, d);
        assert bytes[6 + Flat(z, d)] == r.block;
      }
    }
  }

  /** Lines 45-53: the front of the chunk file, as much as the paste buffer takes. */
  method Load(chunk: seq<int>) returns (pastebuf: array<int>)
    ensures fresh(pastebuf) && pastebuf.Length == PASTE_BUFFER
    ensures var n := Min(|chunk|, PASTE_BUFFER);
            pastebuf[..n] == chunk[..n]
  {
    pastebuf := new int[PASTE_BUFFER];
    var i := 0;
    while i < |chunk| && i < PASTE_BUFFER
      invariant 0 <= i <= |chunk| && i <= PASTE_BUFFER
      invariant pastebuf[..i] == chunk[..i]
    {
      pastebuf[i] := chunk[i];
      i := i + 1;
    }
  }

  lemma PrefixHolds(bytes: seq<int>, longer: seq<int>, level: Level, low: Point, z: Size)
    requires Readable(level, low, z) && Holds(bytes, level, low, z) && bytes <= longer
    ensures Holds(longer, level, low, z)
  {
    assert forall k :: 0 <= k < |bytes| ==> longer[k] == bytes[k];
  }

  /** A header written by a copy is read back by a paste. */
  lemma HeaderReadBack(bytes: seq<int>, z: Size, corner: Corner)
    requires HasHeader(bytes, z) && z.ux > 0 && z.uy > 0 && z.uz > 0 && Fits(At(corner), z)
    ensures SizeOf(bytes, corner) == z && StartOf(bytes, corner) == At(corner)
  {
    JoinSplit(z.ux);
    JoinSplit(z.uy);
    JoinSplit(z.uz);
    RangeIsMeant(corner.x, z.ux);
    RangeIsMeant(corner.y, z.uy);
    RangeIsMeant(corner.z, z.uz);
  }

  /** A copy followed by a paste. */
  method RoundTrip(level: Level, p: Point, q: Point, corner: Corner) returns (requests: seq<Request>)
    requires Copyable(level, Low3(p, q), Size3(p, q)) && 6 + Cells(Size3(p, q)) <= PASTE_BUFFER
    requires Fits(At(corner), Size3(p, q))
    ensures Pasted(requests, level, Low3(p, q), Size3(p, q), At(corner))
  {
    ghost var z, low := Size3(p, q), Low3(p, q);
    var copyBuf := Copy(level, p, q);
    var pastebuf := Load(copyBuf[..]);
    assert copyBuf[..] <= pastebuf[..];
    PrefixHolds(copyBuf[..], pastebuf[..], level, low, z);
    HeaderReadBack(pastebuf[..], z, corner);
    requests := Paste(pastebuf, corner);
    CopyThenPaste(pastebuf[..], level, low, z, At(corner));
  }
}
