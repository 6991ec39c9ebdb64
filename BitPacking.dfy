/** How `generate_image` turns one raster row into its 1-bit-per-pixel bitmap
    (ImageUtils.py:155-171). A new byte is opened every eighth pixel; each pixel shifts
    the current byte right by one and, when it is ink, sets the top bit. So within a byte
    the first pixel ends in the lowest bit that is still occupied, and a byte that takes
    only k < 8 pixels keeps its low 8 - k bits clear. */
module BitPacking {

  import opened Checksum

  /** A pixel prints (is "ink") when its grey level is at most 0x80 (ImageUtils.py:166-169). */
  predicate IsInk(p: int)
  {
    p <= 0x80
  }

  /** The bit a pixel contributes: 1 for ink, 0 for paper. */
  function InkBit(p: int): (b: nat)
    ensures b == 1 <==> IsInk(p)
    ensures b <= 1
  {
    if IsInk(p) then 1 else 0
  }

  /** `b | 0x80` on a byte. */
  function OrTop(b: Byte): (r: Byte)
    ensures r >= 0x80
    ensures r % 0x80 == b % 0x80
  {
    if b >= 0x80 then b else b + 0x80
  }

  /** One pixel's update of the current byte: `bmp[i] >>= 1`, then `|= 0` for paper or
      `|= 0x80` for ink (ImageUtils.py:165-169). */
  function ShiftIn(b: Byte, p: int): (r: Byte)
    ensures r == b / 2 + 0x80 * InkBit(p)
  {
    if IsInk(p) then OrTop(b / 2) else b / 2
  }

  /** The byte that a run of at most eight pixels leaves behind, starting from 0x00
      (ImageUtils.py:159-160). */
  function PackByte(ps: seq<int>): Byte
    decreases |ps|
  {
    if ps == [] then 0 else ShiftIn(PackByte(ps[..|ps| - 1]), ps[|ps| - 1])
  }

  /** The bitmap of a whole row: the pixels in groups of eight from the left, the last
      group possibly shorter, one byte per group. */
  function PackRow(row: seq<int>): (bmp: seq<Byte>)
    ensures |bmp| == (|row| + 7) / 8
    decreases |row|
  {
    if row == [] then []
    else if |row| <= 8 then [PackByte(row)]
    else [PackByte(row[..8])] + PackRow(row[8..])
  }

  // ---------------------------------------------------------------------------------
  // The bit layout, stated independently of the shifting.

  function Pow2(k: nat): (r: nat)
    ensures r >= 1
  {
    if k == 0 then 1 else 2 * Pow2(k - 1)
  }

  /** Bit `i` of `v`, counting from the least significant bit 0. */
  function Bit(v: nat, i: nat): (b: nat)
    ensures b <= 1
    decreases i
  {
    if i == 0 then v % 2 else Bit(v / 2, i - 1)
  }

  /** The value whose bits from position `e` upward are the ink bits of `ps` in order,
      and whose bits below `e` are clear. */
  function Layout(ps: seq<int>, e: nat): nat
    decreases |ps|
  {
    if ps == [] then 0 else InkBit(ps[0]) * Pow2(e) + Layout(ps[1..], e + 1)
  }

  lemma {:induction false} LayoutDouble(ps: seq<int>, e: nat)
    ensures Layout(ps, e + 1) == 2 * Layout(ps, e)
    decreases |ps|
  {
    if ps != [] {
      LayoutDouble(ps[1..], e + 1);
    }
  }

  lemma {:induction false} LayoutSnoc(ps: seq<int>, p: int, e: nat)
    ensures Layout(ps + [p], e) == Layout(ps, e) + InkBit(p) * Pow2(e + |ps|)
    decreases |ps|
  {
    if ps == [] {
      assert [p][1..] == [];
    } else {
      assert (ps + [p])[1..] == ps[1..] + [p];
      LayoutSnoc(ps[1..], p, e + 1);
    }
  }

  lemma Pow2Seven()
    ensures Pow2(7) == 0x80
  {
  }

  /** A byte packed from k <= 8 pixels holds them in its top k bits, first pixel lowest. */
  lemma {:induction false} PackByteLayout(ps: seq<int>)
    requires |ps| <= 8
    ensures PackByte(ps) == Layout(ps, 8 - |ps|)
    decreases |ps|
  {
    if ps != [] {
      var k := |ps| - 1;
      var init := ps[..k];
      assert ps == init + [ps[k]];
      PackByteLayout(init);
      LayoutDouble(init, 7 - k);
      LayoutSnoc(init, ps[k], 7 - k);
      Pow2Seven();
      var low := Layout(init, 7 - k);
      assert PackByte(ps) == low + 0x80 * InkBit(ps[k]) by {
        assert PackByte(init) == 2 * low;
        assert (2 * low) / 2 == low;
      }
      assert Layout(ps, 8 - |ps|) == low + InkBit(ps[k]) * 0x80 by {
        assert 8 - |ps| == 7 - k && 7 - k + |init| == 7;
      }
    }
  }

  lemma {:induction false} BitOfLayout(ps: seq<int>, e: nat, i: nat)
    ensures Bit(Layout(ps, e), i) ==
      if i < e || i >= e + |ps| then 0 else InkBit(ps[i - e])
    decreases e + i
  {
    if e > 0 {
      LayoutDouble(ps, e - 1);
      if i > 0 {
        BitOfLayout(ps, e - 1, i - 1);
      }
    } else if ps != [] {
      LayoutDouble(ps[1..], 0);
      var w := Layout(ps[1..], 0);
      assert Layout(ps, 0) == InkBit(ps[0]) + 2 * w;
      if i > 0 {
        assert (InkBit(ps[0]) + 2 * w) / 2 == w;
        BitOfLayout(ps[1..], 0, i - 1);
      }
    } else {
      BitOfZero(i);
    }
  }

  lemma {:induction false} BitOfZero(i: nat)
    ensures Bit(0, i) == 0
    decreases i
  {
    if i > 0 {
      BitOfZero(i - 1);
    }
  }

  /** Bit `i` of a byte packed from k <= 8 pixels: clear below 8 - k, otherwise the ink
      bit of pixel `i - (8 - k)`. For a full byte, pixel j sits at bit j. */
  lemma PackByteBit(ps: seq<int>, i: nat)
    requires |ps| <= 8
    requires i < 8
    ensures Bit(PackByte(ps), i) ==
      if i < 8 - |ps| then 0 else InkBit(ps[i - (8 - |ps|)])
  {
    PackByteLayout(ps);
    BitOfLayout(ps, 8 - |ps|, i);
  }

  /** Byte `i` of a row's bitmap is packed from pixels `8i` up to `8i + 8` (or the end). */
  lemma {:induction false} PackRowByte(row: seq<int>, i: nat)
    requires i < |PackRow(row)|
    ensures PackRow(row)[i] == PackByte(row[8 * i .. if 8 * i + 8 <= |row| then 8 * i + 8 else |row|])
    decreases |row|
  {
    if |row| <= 8 {
      assert row[0 .. |row|] == row;
    } else if i == 0 {
      assert row[0..8] == row[..8];
    } else {
      var rest, j := row[8..], i - 1;
      assert 8 * i == 8 * j + 8;
      PackRowByte(rest, j);
      var hi := if 8 * j + 8 <= |rest| then 8 * j + 8 else |rest|;
      DropSlice(row, 8, 8 * j, hi);
    }
  }

  /** A slice of a suffix is a slice of the whole, shifted by the prefix's length. */
  lemma DropSlice(row: seq<int>, d: nat, lo: nat, hi: nat)
    requires d <= |row| && lo <= hi <= |row| - d
    ensures row[d..][lo .. hi] == row[lo + d .. hi + d]
  {
  }

  /** The threshold and placement of every pixel: pixel `j` of group `i` (pixel
      `8i + j` of the row) drives bit `j + (8 - k)` of byte `i`, where k is the number of
      pixels in that byte (8 except possibly in the last byte). */
  lemma PixelBit(row: seq<int>, i: nat, j: nat)
    requires j < 8 && 8 * i + j < |row|
    ensures var k := if 8 * i + 8 <= |row| then 8 else |row| - 8 * i;
      Bit(PackRow(row)[i], j + (8 - k)) == InkBit(row[8 * i + j])
  {
    var hi := if 8 * i + 8 <= |row| then 8 * i + 8 else |row|;
    var ps := row[8 * i .. hi];
    SliceAt(row, 8 * i, hi, j);
    PackRowByte(row, i);
    PackByteBit(ps, j + (8 - |ps|));
  }

  lemma DivMod8(x: nat)
    ensures x == 8 * (x / 8) + x % 8 && x % 8 < 8
  {
  }

  lemma SliceAt(row: seq<int>, lo: nat, hi: nat, j: nat)
    requires lo + j < hi <= |row|
    ensures |row[lo .. hi]| == hi - lo && row[lo .. hi][j] == row[lo + j]
  {
  }

  /** Pixels in a full byte: pixel `x` is bit `x % 8` of byte `x / 8`. */
  lemma FullBytePixel(row: seq<int>, x: nat)
    requires x < |row| - |row| % 8
    ensures Bit(PackRow(row)[x / 8], x % 8) == InkBit(row[x])
  {
    var q, i := |row| / 8, x / 8;
    DivMod8(x);
    assert x < 8 * q;
    assert i < q;
    assert 8 * i + 8 <= |row|;
    PixelBit(row, i, x % 8);
  }

  /** The unused low bits of a partial last byte are clear. */
  lemma PartialByteLowBits(row: seq<int>, j: nat)
    requires |row| % 8 != 0
    requires j < 8 - |row| % 8
    ensures Bit(PackRow(row)[|row| / 8], j) == 0
  {
    var i := |row| / 8;
    assert |row| == 8 * i + |row| % 8;
    assert 8 * i + 8 > |row|;
    PackRowByte(row, i);
    var ps := row[8 * i .. |row|];
    assert |ps| == |row| % 8;
    PackByteBit(ps, j);
  }

  // ---------------------------------------------------------------------------------
  // The row as the loop builds it, one pixel at a time.

  /** The loop body for one pixel on the bitmap built so far: when `bit % 8 == 0` a fresh
      0x00 byte is opened and shifted, otherwise the last byte is shifted in place
      (ImageUtils.py:159-171). */
  function Step(bmp: seq<Byte>, bit: nat, p: int): (r: seq<Byte>)
    requires bit % 8 != 0 ==> bmp != []
    ensures |r| == if bit % 8 == 0 then |bmp| + 1 else |bmp|
    ensures r[..|r| - 1] == if bit % 8 == 0 then bmp else bmp[..|bmp| - 1]
  {
    if bit % 8 == 0 then bmp + [ShiftIn(0, p)]
    else bmp[..|bmp| - 1] + [ShiftIn(bmp[|bmp| - 1], p)]
  }

  /** The loop body's in-place form of `Step`: open a 0x00 byte when `bit % 8 == 0`,
      then update byte `bit / 8`, which is the last one. */
  lemma StepInPlace(bmp: seq<Byte>, bit: nat, p: int)
    requires |bmp| == (bit + 7) / 8
    ensures bit % 8 != 0 ==> bmp != []
    ensures var grown := if bit % 8 == 0 then bmp + [0] else bmp;
      bit / 8 < |grown| &&
      Step(bmp, bit, p) == grown[bit / 8 := ShiftIn(grown[bit / 8], p)]
  {
    var k := bit / 8;
    if bit % 8 == 0 {
      assert k == |bmp|;
      assert (bmp + [0])[k := ShiftIn(0, p)] == bmp + [ShiftIn(0, p)];
    } else {
      assert k == |bmp| - 1;
      assert bmp[k := ShiftIn(bmp[k], p)] == bmp[..k] + [ShiftIn(bmp[k], p)];
    }
  }

  /** Pixel by pixel, the loop body builds exactly the bitmap of the row. */
  lemma {:induction false} PackRowSnoc(row: seq<int>, p: int)
    ensures |row| % 8 != 0 ==> PackRow(row) != []
    ensures PackRow(row + [p]) == Step(PackRow(row), |row|, p)
    decreases |row|
  {
    if row == [] {
      assert row + [p] == [p];
      PackRowSnocFirst(p);
    } else if |row| < 8 {
      PackRowSnocShort(row, p);
    } else if |row| == 8 {
      PackRowSnocFull(row, p);
    } else {
      PackRowSnoc(row[8..], p);
      PackRowSnocLong(row, p);
    }
  }

  /** `PackRowSnoc` past the first byte, from the same property of the rest of the row. */
  lemma PackRowSnocLong(row: seq<int>, p: int)
    requires |row| > 8
    requires |row| % 8 != 0 ==> PackRow(row[8..]) != []
    requires PackRow(row[8..] + [p]) == Step(PackRow(row[8..]), |row| - 8, p)
    ensures PackRow(row + [p]) == Step(PackRow(row), |row|, p)
  {
    var r, rest, b := row + [p], row[8..], PackByte(row[..8]);
    SnocSlices(row, p, 8);
    StepCons(b, PackRow(rest), PackRow(row), PackRow(r), |row|, p);
  }

  /** The bitmap the loop holds after its first `n` pixels. */
  function Scan(row: seq<int>, n: nat): (bmp: seq<Byte>)
    requires n <= |row|
    ensures |bmp| == (n + 7) / 8
    decreases n
  {
    if n == 0 then [] else Step(Scan(row, n - 1), n - 1, row[n - 1])
  }

  /** The loop's bitmap after n pixels is the packed form of those n pixels. */
  lemma {:induction false} ScanIsPackRow(row: seq<int>, n: nat)
    requires n <= |row|
    ensures Scan(row, n) == PackRow(row[..n])
    decreases n
  {
    if n == 0 {
      assert row[..0] == [];
    } else {
      var m := n - 1;
      ScanIsPackRow(row, m);
      TakeNext(row, m);
      PackRowSnoc(row[..m], row[m]);
    }
  }

  /** Cutting a row with one more pixel at `k`: the same front, and the back gains the
      pixel. */
  lemma SnocSlices(row: seq<int>, p: int, k: nat)
    requires k <= |row|
    ensures (row + [p])[..k] == row[..k]
    ensures (row + [p])[k..] == row[k..] + [p]
  {
  }

  /** The first `m + 1` pixels are the first `m` and pixel `m`. */
  lemma TakeNext(row: seq<int>, m: nat)
    requires m < |row|
    ensures row[..m + 1] == row[..m] + [row[m]]
  {
  }

  /** A byte in front of the bitmap leaves the step on the rest unchanged. */
  lemma StepCons(b: Byte, bmp: seq<Byte>, c: seq<Byte>, d: seq<Byte>, bit: nat, p: int)
    requires bit >= 8
    requires (bit - 8) % 8 != 0 ==> bmp != []
    requires c == [b] + bmp && d == [b] + Step(bmp, bit - 8, p)
    ensures d == Step(c, bit, p)
  {
    assert (bit - 8) % 8 == bit % 8;
    if bit % 8 != 0 {
      assert c[..|c| - 1] == [b] + bmp[..|bmp| - 1];
      assert c[|c| - 1] == bmp[|bmp| - 1];
    }
  }

  /** `PackRowSnoc` while the first byte is still open. */
  lemma PackRowSnocShort(row: seq<int>, p: int)
    requires 0 < |row| < 8
    ensures PackRow(row + [p]) == Step(PackRow(row), |row|, p)
  {
    var r := row + [p];
    var bmp := PackRow(row);
    assert r[..|r| - 1] == row;
    assert bmp == [PackByte(row)];
    assert PackRow(r) == [ShiftIn(PackByte(row), p)];
    SmallMod8(|row|);
    assert bmp[..0] + [ShiftIn(bmp[0], p)] == [ShiftIn(PackByte(row), p)];
  }

  /** `PackRowSnoc` for the first pixel. */
  lemma PackRowSnocFirst(p: int)
    ensures PackRow([p]) == Step([], 0, p)
  {
    assert [p][..0] == [];
    assert PackByte([p]) == ShiftIn(0, p);
    assert Step([], 0, p) == [ShiftIn(0, p)];
  }

  lemma SmallMod8(n: nat)
    requires n < 8
    ensures n % 8 == n
  {
  }

  /** `PackRowSnoc` for the ninth pixel, which opens a second byte. */
  lemma PackRowSnocFull(row: seq<int>, p: int)
    requires |row| == 8
    ensures PackRow(row + [p]) == Step(PackRow(row), |row|, p)
  {
    var r := row + [p];
    assert r[..8] == row;
    assert r[8..] == [p];
    assert [p][..0] == [];
    assert PackByte([p]) == ShiftIn(0, p);
    assert PackRow([p]) == [ShiftIn(0, p)];
  }
}
