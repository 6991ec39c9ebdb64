/** The `ImageUtils` object (ImageUtils.py:46-178): four validated settings, the `crc8`
    loop and the `generate_image` encoder. Loading, resizing and dithering the picture are
    outside the model; `GenerateImage` receives the grey-level raster they would produce. */
module Imaging {

  import opened Options
  import opened Checksum
  import opened BitPacking
  import opened Commands

  /** The values the `choice` setter accepts (ImageUtils.py:58). */
  predicate ValidChoice(value: string)
  {
    value == "dither" || value == "PIL"
  }

  /** The values the `dither_method` setter accepts (ImageUtils.py:68). */
  predicate ValidDitherMethod(value: string)
  {
    value == "jarvis-judice-ninke" || value == "floyd-steinberg" || value == "simple2D"
  }

  /** The values the `width` and `max_height` setters accept (ImageUtils.py:79, 88). */
  predicate ValidDimension(value: int)
  {
    value > 0
  }

  class ImageUtils {
    var choice: string
    var ditherMethod: string
    var width: int
    var maxHeight: int

    /** Every setting holds a value its setter accepts. */
    predicate Valid()
      reads this
    {
      ValidChoice(choice) && ValidDitherMethod(ditherMethod) &&
      ValidDimension(width) && ValidDimension(maxHeight)
    }

    /** `ImageUtils(choice, dither_method, width, max_height)` with accepted arguments
        (ImageUtils.py:47-51). */
    constructor (choice: string, ditherMethod: string, width: int, maxHeight: int)
      requires ValidChoice(choice) && ValidDitherMethod(ditherMethod)
      requires ValidDimension(width) && ValidDimension(maxHeight)
      ensures Valid()
      ensures this.choice == choice && this.ditherMethod == ditherMethod
      ensures this.width == width && this.maxHeight == maxHeight
    {
      this.choice := choice;
      this.ditherMethod := ditherMethod;
      this.width := width;
      this.maxHeight := maxHeight;
    }

    /** `ImageUtils()` with its default arguments (ImageUtils.py:47). */
    static method Default() returns (u: ImageUtils)
      ensures fresh(u) && u.Valid()
      ensures u.choice == "dither" && u.ditherMethod == "jarvis-judice-ninke"
      ensures u.width == 384 && u.maxHeight == 1536
    {
      u := new ImageUtils("dither", "jarvis-judice-ninke", 384, 1536);
    }

    /** `ImageUtils(...)` with any arguments: `None` stands for the ValueError one of the
        setters raises. */
    static method Create(choice: string, ditherMethod: string, width: int, maxHeight: int)
      returns (r: Option<ImageUtils>)
      ensures r.Some? <==>
        ValidChoice(choice) && ValidDitherMethod(ditherMethod) &&
        ValidDimension(width) && ValidDimension(maxHeight)
      ensures r.Some? ==> fresh(r.value) && r.value.Valid()
      ensures r.Some? ==> r.value.choice == choice && r.value.ditherMethod == ditherMethod
      ensures r.Some? ==> r.value.width == width && r.value.maxHeight == maxHeight
    {
      if ValidChoice(choice) && ValidDitherMethod(ditherMethod) &&
         ValidDimension(width) && ValidDimension(maxHeight) {
        var u := new ImageUtils(choice, ditherMethod, width, maxHeight);
        r := Some(u);
      } else {
        r := None;
      }
    }

    /** The `choice` setter (ImageUtils.py:56-61): `ok` is false where it raises
        ValueError, and then the stored value is kept. */
    method SetChoice(value: string) returns (ok: bool)
      modifies this`choice
      ensures ok <==> ValidChoice(value)
      ensures choice == if ok then value else old(choice)
      ensures old(Valid()) ==> Valid()
    {
      ok := ValidChoice(value);
      if ok {
        choice := value;
      }
    }

    /** The `dither_method` setter (ImageUtils.py:66-72). */
    method SetDitherMethod(value: string) returns (ok: bool)
      modifies this`ditherMethod
      ensures ok <==> ValidDitherMethod(value)
      ensures ditherMethod == if ok then value else old(ditherMethod)
      ensures old(Valid()) ==> Valid()
    {
      ok := ValidDitherMethod(value);
      if ok {
        ditherMethod := value;
      }
    }

    /** The `width` setter (ImageUtils.py:77-81). */
    method SetWidth(value: int) returns (ok: bool)
      modifies this`width
      ensures ok <==> ValidDimension(value)
      ensures width == if ok then value else old(width)
      ensures old(Valid()) ==> Valid()
    {
      ok := ValidDimension(value);
      if ok {
        width := value;
      }
    }

    /** The `max_height` setter (ImageUtils.py:86-90). */
    method SetMaxHeight(value: int) returns (ok: bool)
      modifies this`maxHeight
      ensures ok <==> ValidDimension(value)
      ensures maxHeight == if ok then value else old(maxHeight)
      ensures old(Valid()) ==> Valid()
    {
      ok := ValidDimension(value);
      if ok {
        maxHeight := value;
      }
    }

    /** `crc8(data)` (ImageUtils.py:129-136): each value is read as the byte
        `(x + 256) % 256`, the accumulator runs through CRC8_TABLE, and the result is
        returned as a signed byte. */
    method Crc8(data: seq<int>) returns (c: int)
      ensures c == Checksum.Crc8(data)
    {
      LookupIsTable();
      var crc: Byte := 0;
      var i := 0;
      while i < |data|
        invariant 0 <= i <= |data|
        invariant crc == Fold(0, data[..i])
      {
        var b := ToUnsigned(data[i]);
        assert data[..i + 1][..i] == data[..i];
        crc := Crc8Table[Xor(crc, b)];
        i := i + 1;
      }
      assert data[..i] == data;
      c := if crc < 0x80 then crc else crc - 0x100;
    }

    /** One pass of the pixel loop (ImageUtils.py:159-171): open a 0x00 byte when
        `bit % 8 == 0`, then shift byte `bit / 8` right and mark it for ink. */
    method PackPixel(bmp: seq<Byte>, bit: nat, a: int) returns (r: seq<Byte>)
      requires |bmp| == (bit + 7) / 8
      ensures |r| == (bit + 8) / 8
      ensures r == Step(bmp, bit, a)
    {
      StepInPlace(bmp, bit, a);
      r := bmp;
      if bit % 8 == 0 {
        r := r + [0x00];
      }
      ghost var grown := r;
      var k := bit / 8;
      r := r[k := r[k] / 2];
      if a > 0x80 {
        r := r[k := r[k]];
      } else {
        r := r[k := OrTop(r[k])];
      }
      assert r == grown[k := ShiftIn(grown[k], a)];
    }

    /** The loop over one row (ImageUtils.py:154-171): the bitmap it builds pixel by pixel
        is the packed row. */
    method PackPixels(row: seq<int>, width: nat) returns (bmp: seq<Byte>)
      requires |row| == width
      ensures bmp == PackRow(row)
    {
      bmp := [];
      var bit := 0;
      while bit < width
        invariant 0 <= bit <= width
        invariant bmp == Scan(row, bit)
      {
        bmp := PackPixel(bmp, bit, row[bit]);
        bit := bit + 1;
      }
      ScanIsPackRow(row, bit);
      assert row[..bit] == row;
    }

    /** The row command of one raster row (ImageUtils.py:155-175): the header with the
        bitmap's length, the bitmap, its checksum and the terminator. */
    method EncodeRow(row: seq<int>, width: nat) returns (cmdCommand: seq<int>)
      requires |row| == width
      ensures cmdCommand == Frame(RowCommand(row))
    {
      var bmp := PackPixels(row, width);
      cmdCommand := [81, 120, -65, 0, |bmp|, 0];
      cmdCommand := cmdCommand + bmp;
      var crc := Crc8(bmp);
      cmdCommand := cmdCommand + [crc, -1];
    }

    /** `generate_image` (ImageUtils.py:138-178) on the raster the loader would return:
        CMD_HEADER, then per row the prefix frame and the row's frame, then CMD_FOOTER.
        The settings must be valid: only an accepted `choice` selects a loader, and
        without one the picture and its height are never bound (ImageUtils.py:145-150). */
    method GenerateImage(raster: seq<seq<int>>, width: nat) returns (cmdSend: seq<int>)
      requires Valid() && Rectangular(raster, width)
      ensures cmdSend == ImageCommands(raster)
    {
      cmdSend := [];
      cmdSend := cmdSend + CmdHeader;
      var y := 0;
      assert raster[..0] == [];
      while y < |raster|
        invariant 0 <= y <= |raster|
        invariant cmdSend == CmdHeader + RowsBlock(raster[..y])
      {
        cmdSend := cmdSend + RowPrefix;
        var cmdCommand := EncodeRow(raster[y], width);
        cmdSend := cmdSend + cmdCommand;
        RowsBlockNext(raster, y);
        y := y + 1;
      }
      assert raster[..y] == raster;
      cmdSend := cmdSend + CmdFooter;
    }
  }
}
