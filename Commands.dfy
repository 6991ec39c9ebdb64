/** The command stream `generate_image` sends to the printer (ImageUtils.py:32-44, 138-178).
    Every command is a frame `[0x51, 0x78, code, 0, n, 0] ++ payload ++ [check, -1]` with
    n = |payload| and `check` the CRC-8 of the payload; values are Python ints that stand
    for bytes, negatives for the high half. */
module Commands {

  import opened Options
  import opened Checksum
  import opened BitPacking

  /** One printer command as it travels: code byte, payload and the stored check byte. */
  datatype Command = Command(code: int, payload: seq<int>, check: int)

  /** A command's check byte is the CRC-8 of its payload. */
  predicate Checked(c: Command)
  {
    c.check == Crc8(c.payload)
  }

  /** The command with code `code` carrying `payload`, its check byte computed as
      `crc8(payload)` (ImageUtils.py:174-175). */
  function Seal(code: int, payload: seq<int>): (c: Command)
    ensures Checked(c)
    ensures c.code == code && c.payload == payload
    ensures Fold(0, c.payload + [c.check]) == 0
  {
    Crc8Residue(payload);
    Command(code, payload, Crc8(payload))
  }

  /** The wire form of a command: magic 0x51 0x78, code, 0, length, 0, payload, the check
      byte and the terminator -1. */
  function Frame(c: Command): seq<int>
  {
    [81, 120, c.code, 0, |c.payload|, 0] + c.payload + [c.check, -1]
  }

  /** A command read off the front of a stream, and what follows it. */
  datatype Split = Split(command: Command, rest: seq<int>)

  /** Reads one frame off the front of `s`: the magic, the two zero bytes, a length field
      that fits, and the terminator are checked. */
  function Unframe(s: seq<int>): Option<Split>
  {
    if |s| < 8 || s[0] != 81 || s[1] != 120 || s[3] != 0 || s[5] != 0 || s[4] < 0
       || |s| < s[4] + 8 || s[7 + s[4]] != -1
    then None
    else Some(Split(Command(s[2], s[6..6 + s[4]], s[6 + s[4]]), s[8 + s[4]..]))
  }

  /** Framing is undone by `Unframe`, whatever follows the frame. */
  lemma UnframeFrame(c: Command, rest: seq<int>)
    ensures Unframe(Frame(c) + rest) == Some(Split(c, rest))
  {
    var s := Frame(c) + rest;
    var n := |c.payload|;
    assert s[6..6 + n] == c.payload;
    assert s[8 + n..] == rest;
  }

  /** `Unframe` accepts only frames: the input is the frame of what it read, followed by
      the rest. */
  lemma FrameUnframe(s: seq<int>)
    requires Unframe(s).Some?
    ensures s == Frame(Unframe(s).value.command) + Unframe(s).value.rest
  {
    var c, rest := Unframe(s).value.command, Unframe(s).value.rest;
    assert s == s[..8 + s[4]] + rest;
    assert s[..8 + s[4]] == Frame(c);
  }

  /** The frames of a list of commands, one after another. */
  function Frames(cs: seq<Command>): seq<int>
    decreases |cs|
  {
    if cs == [] then [] else Frames(cs[..|cs| - 1]) + Frame(cs[|cs| - 1])
  }

  lemma Assoc(a: seq<int>, b: seq<int>, c: seq<int>)
    ensures a + b + c == a + (b + c)
  {
  }

  lemma {:induction false} FramesAppend(a: seq<Command>, b: seq<Command>)
    ensures Frames(a + b) == Frames(a) + Frames(b)
    decreases |b|
  {
    if b == [] {
      assert a + b == a;
    } else {
      var b', last := b[..|b| - 1], b[|b| - 1];
      assert (a + b)[..|a + b| - 1] == a + b';
      assert (a + b)[|a + b| - 1] == last;
      FramesAppend(a, b');
      Assoc(Frames(a), Frames(b'), Frame(last));
    }
  }

  /** Two more commands add their two frames. */
  lemma FramesSnoc2(cs: seq<Command>, a: Command, b: Command)
    ensures Frames(cs + [a, b]) == Frames(cs) + (Frame(a) + Frame(b))
  {
    var ab := cs + [a, b];
    assert ab[..|ab| - 1] == cs + [a];
    assert (cs + [a])[..|cs|] == cs;
    Assoc(Frames(cs), Frame(a), Frame(b));
  }

  /** Splits a stream of frames back into its commands, one `Unframe` per step. */
  function UnframeAll(s: seq<int>, fuel: nat): Option<seq<Command>>
    decreases fuel
  {
    if s == [] then Some([])
    else if fuel == 0 then None
    else match Unframe(s)
      case None => None
      case Some(split) =>
        match UnframeAll(split.rest, fuel - 1)
        case None => None
        case Some(cs) => Some([split.command] + cs)
  }

  lemma FramesCons(c: Command, cs: seq<Command>)
    ensures Frames([c] + cs) == Frame(c) + Frames(cs)
  {
    FramesAppend([c], cs);
    assert [c][..0] == [];
  }

  /** A stream of frames decodes to exactly its commands. */
  lemma {:induction false} UnframeAllFrames(cs: seq<Command>)
    ensures UnframeAll(Frames(cs), |cs|) == Some(cs)
    decreases |cs|
  {
    if cs != [] {
      assert cs == [cs[0]] + cs[1..];
      FramesCons(cs[0], cs[1..]);
      UnframeFrame(cs[0], Frames(cs[1..]));
      UnframeAllFrames(cs[1..]);
    }
  }

  // ---------------------------------------------------------------------------------
  // The fixed blocks.

  /** CMD_HEADER (ImageUtils.py:32-36), one source line per part: print quality 5, a
      second setting, then "print image". */
  const CmdHeader: seq<int> := HeaderPart1 + HeaderPart2 + HeaderPart3

  const HeaderPart1: seq<int> := [81, 120, -92, 0, 1, 0, 53, -117, -1]
  const HeaderPart2: seq<int> := [81, 120, -81, 0, 2, 0, -120, 19, 103, -1]
  const HeaderPart3: seq<int> := [81, 120, -66, 0, 1, 0, 0, 0, -1]

  /** CMD_FOOTER (ImageUtils.py:38-44), one source line per part: five frames, the last
      line followed by 38 zero values. */
  const CmdFooter: seq<int> :=
    FooterPart1 + FooterPart2 + FooterPart3 + FooterPart4 + FooterPart5 + FooterPadding

  const FooterPart1: seq<int> := [81, 120, -67, 0, 1, 0, 25, 79, -1]
  const FooterPart2: seq<int> := [81, 120, -95, 0, 2, 0, 48, 0, -7, -1]
  const FooterPart3: seq<int> := [81, 120, -95, 0, 2, 0, 48, 0, -7, -1]
  const FooterPart4: seq<int> := [81, 120, -67, 0, 1, 0, 25, 79, -1]
  const FooterPart5: seq<int> := [81, 120, -93, 0, 1, 0, 0, 0, -1]

  /** The zero padding that ends CMD_FOOTER. */
  const FooterPadding: seq<int> :=
    [0, 0, 0, 0, 0, 0, 0, 0, 0, 0, 0, 0, 0, 0, 0, 0, 0, 0, 0] +
    [0, 0, 0, 0, 0, 0, 0, 0, 0, 0, 0, 0, 0, 0, 0, 0, 0, 0, 0]

  /** The frame that precedes every row (ImageUtils.py:153). */
  const RowPrefix: seq<int> := [81, 120, -67, 0, 1, 0, 10, 54, -1]

  /** The commands of CMD_HEADER. */
  const HeaderCommands: seq<Command> :=
    [Command(-92, [53], -117), Command(-81, [-120, 19], 103), Command(-66, [0], 0)]

  /** The commands of CMD_FOOTER before its padding. */
  const FooterCommands: seq<Command> :=
    [Command(-67, [25], 79), Command(-95, [48, 0], -7), Command(-95, [48, 0], -7),
     Command(-67, [25], 79), Command(-93, [0], 0)]

  /** The command behind the row prefix. */
  const RowPrefixCommand: Command := Command(-67, [10], 54)

  /** All commands of a list carry the right check byte. */
  predicate AllChecked(cs: seq<Command>)
  {
    forall i | 0 <= i < |cs| :: Checked(cs[i])
  }

  /** A single checked command is a checked list. */
  lemma CheckedOne(c: Command)
    requires Checked(c)
    ensures AllChecked([c])
  {
  }

  /** Every check byte stored in CMD_HEADER is the CRC-8 of its payload. */
  lemma HeaderChecked()
    ensures AllChecked(HeaderCommands)
  {
    var c1, c2, c3 := Command(-92, [53], -117), Command(-81, [-120, 19], 103), Command(-66, [0], 0);
    Checksum53(); ChecksumPair1(); Checksum0();
    CheckedOne(c1); CheckedOne(c2); CheckedOne(c3);
    AllCheckedAppend([c1], [c2]);
    AllCheckedAppend([c1] + [c2], [c3]);
    assert HeaderCommands == [c1] + [c2] + [c3];
  }

  /** Every check byte stored in CMD_FOOTER is the CRC-8 of its payload. */
  lemma FooterChecked()
    ensures AllChecked(FooterCommands)
  {
    var c1, c2, c5 := Command(-67, [25], 79), Command(-95, [48, 0], -7), Command(-93, [0], 0);
    Checksum25(); ChecksumPair2(); Checksum0();
    CheckedOne(c1); CheckedOne(c2); CheckedOne(c5);
    AllCheckedAppend([c1], [c2]);
    AllCheckedAppend([c1] + [c2], [c2]);
    AllCheckedAppend([c1] + [c2] + [c2], [c1]);
    AllCheckedAppend([c1] + [c2] + [c2] + [c1], [c5]);
    assert FooterCommands == [c1] + [c2] + [c2] + [c1] + [c5];
  }

  /** The row prefix's check byte is the CRC-8 of its payload. */
  lemma RowPrefixChecked()
    ensures Checked(RowPrefixCommand)
  {
    Checksum10();
  }

  /** One more command adds its frame. */
  lemma FramesSnoc(cs: seq<Command>, c: Command)
    ensures Frames(cs + [c]) == Frames(cs) + Frame(c)
  {
    assert (cs + [c])[..|cs|] == cs;
  }

  lemma FramesOfOne(a: Command)
    ensures Frames([a]) == Frame(a)
  {
    assert [a][..0] == [];
  }

  lemma FramesOfThree(a: Command, b: Command, c: Command)
    ensures Frames([a, b, c]) == Frame(a) + Frame(b) + Frame(c)
  {
    FramesOfOne(a);
    FramesSnoc([a], b);
    assert [a] + [b] == [a, b];
    FramesSnoc([a, b], c);
    assert [a, b] + [c] == [a, b, c];
  }

  lemma FramesOfFive(a: Command, b: Command, c: Command, d: Command, e: Command)
    ensures Frames([a, b, c, d, e]) == Frame(a) + Frame(b) + Frame(c) + Frame(d) + Frame(e)
  {
    FramesOfThree(a, b, c);
    FramesSnoc([a, b, c], d);
    FramesSnoc([a, b, c, d], e);
    assert [a, b, c] + [d] == [a, b, c, d] && [a, b, c, d] + [e] == [a, b, c, d, e];
  }

  /** CMD_HEADER is exactly three frames. */
  lemma HeaderIsFrames()
    ensures CmdHeader == Frames(HeaderCommands)
    ensures |CmdHeader| == 28
  {
    var h := HeaderCommands;
    FramesOfThree(h[0], h[1], h[2]);
    assert h == [h[0], h[1], h[2]];
    assert HeaderPart1 == Frame(h[0]);
    assert HeaderPart2 == Frame(h[1]);
    assert HeaderPart3 == Frame(h[2]);
  }

  /** CMD_FOOTER is five frames followed by the 38 zeros. */
  lemma FooterIsFrames()
    ensures CmdFooter == Frames(FooterCommands) + FooterPadding
    ensures |CmdFooter| == 85
  {
    var f := FooterCommands;
    FramesOfFive(f[0], f[1], f[2], f[3], f[4]);
    assert f == [f[0], f[1], f[2], f[3], f[4]];
    assert FooterPart1 == Frame(f[0]);
    assert FooterPart2 == Frame(f[1]);
    assert FooterPart3 == Frame(f[2]);
    assert FooterPart4 == Frame(f[3]);
    assert FooterPart5 == Frame(f[4]);
  }

  /** The row prefix is one frame. */
  lemma RowPrefixIsFrame()
    ensures RowPrefix == Frame(RowPrefixCommand)
  {
  }

  // ---------------------------------------------------------------------------------
  // The image.

  /** The command carrying one packed row: code -65, payload the bitmap, and its CRC-8
      (ImageUtils.py:172-176). */
  function RowCommand(row: seq<int>): Command
  {
    Seal(-65, PackRow(row))
  }

  /** What one raster row adds to `cmd_send` (ImageUtils.py:153-176). */
  function RowBlock(row: seq<int>): seq<int>
  {
    RowPrefix + Frame(RowCommand(row))
  }

  /** The values of a list of blocks, one block after another. */
  function Concat(bs: seq<seq<int>>): seq<int>
    decreases |bs|
  {
    if bs == [] then [] else Concat(bs[..|bs| - 1]) + bs[|bs| - 1]
  }

  lemma {:induction false} ConcatAppend(a: seq<seq<int>>, b: seq<seq<int>>)
    ensures Concat(a + b) == Concat(a) + Concat(b)
    decreases |b|
  {
    if b == [] {
      assert a + b == a;
    } else {
      var b', last := b[..|b| - 1], b[|b| - 1];
      assert (a + b)[..|a + b| - 1] == a + b';
      assert (a + b)[|a + b| - 1] == last;
      ConcatAppend(a, b');
      Assoc(Concat(a), Concat(b'), last);
    }
  }

  /** One more block adds its values. */
  lemma ConcatSnoc(a: seq<seq<int>>, b: seq<int>)
    ensures Concat(a + [b]) == Concat(a) + b
  {
    assert (a + [b])[..|a|] == a;
  }

  /** Cutting the blocks at `k` cuts the values between the two parts. */
  lemma ConcatTakeDrop(bs: seq<seq<int>>, k: nat)
    requires k <= |bs|
    ensures Concat(bs) == Concat(bs[..k]) + Concat(bs[k..])
  {
    assert bs == bs[..k] + bs[k..];
    ConcatAppend(bs[..k], bs[k..]);
  }

  /** The first `y + 1` blocks are the first `y` and block `y`. */
  lemma ConcatPrefix(bs: seq<seq<int>>, y: nat)
    requires y < |bs|
    ensures Concat(bs[..y + 1]) == Concat(bs[..y]) + bs[y]
  {
    assert bs[..y + 1][..y] == bs[..y];
  }

  /** Block `y` sits between the blocks before it and the blocks after it. */
  lemma ConcatSplit(bs: seq<seq<int>>, y: nat)
    requires y < |bs|
    ensures Concat(bs) == Concat(bs[..y]) + bs[y] + Concat(bs[y + 1..])
  {
    ConcatTakeDrop(bs, y + 1);
    ConcatPrefix(bs, y);
  }

  /** Blocks that all have `m` values. */
  predicate Uniform(bs: seq<seq<int>>, m: nat)
  {
    forall i | 0 <= i < |bs| :: |bs[i]| == m
  }

  /** n blocks of m values each make n * m values. */
  lemma {:induction false} ConcatLength(bs: seq<seq<int>>, m: nat)
    requires Uniform(bs, m)
    ensures |Concat(bs)| == |bs| * m
    decreases |bs|
  {
    if bs != [] {
      var n := |bs| - 1;
      assert Uniform(bs[..n], m) by {
        forall i | 0 <= i < n ensures |bs[..n][i]| == m {
          assert bs[..n][i] == bs[i];
        }
      }
      ConcatLength(bs[..n], m);
      MulSucc(n, m);
    }
  }

  lemma MulSucc(n: nat, m: nat)
    ensures (n + 1) * m == n * m + m
  {
  }

  /** The block of each row, top row first. */
  function RowBlocks(rows: seq<seq<int>>): (bs: seq<seq<int>>)
    ensures |bs| == |rows|
  {
    seq(|rows|, y requires 0 <= y < |rows| => RowBlock(rows[y]))
  }

  /** What the rows add to `cmd_send`, top row first (ImageUtils.py:152-176). */
  function RowsBlock(rows: seq<seq<int>>): seq<int>
  {
    Concat(RowBlocks(rows))
  }

  /** One more row adds its block. */
  lemma RowsBlockSnoc(rows: seq<seq<int>>, row: seq<int>)
    ensures RowsBlock(rows + [row]) == RowsBlock(rows) + RowBlock(row)
  {
    var bs := RowBlocks(rows + [row]);
    assert bs[..|rows|] == RowBlocks(rows);
  }

  /** The rows before `y + 1` are the rows before `y`, then row `y`'s prefix and frame:
      `generate_image`'s outer loop extends `cmd_send` by one row at a time. */
  lemma RowsBlockNext(raster: seq<seq<int>>, y: nat)
    requires y < |raster|
    ensures CmdHeader + RowsBlock(raster[..y + 1])
      == CmdHeader + RowsBlock(raster[..y]) + RowPrefix + Frame(RowCommand(raster[y]))
  {
    assert raster[..y + 1] == raster[..y] + [raster[y]];
    RowsBlockSnoc(raster[..y], raster[y]);
  }

  /** `generate_image` on a raster of grey levels (ImageUtils.py:138-178). */
  function ImageCommands(raster: seq<seq<int>>): seq<int>
  {
    CmdHeader + RowsBlock(raster) + CmdFooter
  }

  /** The commands behind the rows: a prefix command and a row command per row. */
  function RowsCommands(rows: seq<seq<int>>): seq<Command>
    decreases |rows|
  {
    if rows == [] then []
    else RowsCommands(rows[..|rows| - 1]) + [RowPrefixCommand, RowCommand(rows[|rows| - 1])]
  }

  /** The command list of a whole image. */
  function ImageCommandList(raster: seq<seq<int>>): seq<Command>
  {
    HeaderCommands + RowsCommands(raster) + FooterCommands
  }

  lemma {:induction false} RowsAreFrames(rows: seq<seq<int>>)
    ensures RowsBlock(rows) == Frames(RowsCommands(rows))
    decreases |rows|
  {
    if rows != [] {
      var init, last := rows[..|rows| - 1], rows[|rows| - 1];
      assert rows == init + [last];
      RowsAreFrames(init);
      RowsBlockSnoc(init, last);
      RowPrefixIsFrame();
      FramesSnoc2(RowsCommands(init), RowPrefixCommand, RowCommand(last));
    }
  }

  lemma {:induction false} RowsCommandsChecked(rows: seq<seq<int>>)
    ensures AllChecked(RowsCommands(rows))
    decreases |rows|
  {
    if rows != [] {
      RowsCommandsChecked(rows[..|rows| - 1]);
      RowPrefixChecked();
    }
  }

  /** Joining two lists of checked commands gives a list of checked commands. */
  lemma AllCheckedAppend(a: seq<Command>, b: seq<Command>)
    requires AllChecked(a) && AllChecked(b)
    ensures AllChecked(a + b)
  {
    forall i | 0 <= i < |a + b| ensures Checked((a + b)[i]) {
      if i >= |a| {
        assert (a + b)[i] == b[i - |a|];
      }
    }
  }

  /** The whole output is a stream of frames (the header's, then a prefix frame and a row
      frame per row, then the footer's) followed by the footer's padding, and decoding
      the stream gives the commands back. */
  lemma ImageIsFrames(raster: seq<seq<int>>)
    ensures ImageCommands(raster) == Frames(ImageCommandList(raster)) + FooterPadding
    ensures var cs := ImageCommandList(raster);
      UnframeAll(Frames(cs), |cs|) == Some(cs)
  {
    var h, r, f := HeaderCommands, RowsCommands(raster), FooterCommands;
    HeaderIsFrames();
    FooterIsFrames();
    RowsAreFrames(raster);
    FramesAppend(h, r);
    FramesAppend(h + r, f);
    Assoc(Frames(h + r), Frames(f), FooterPadding);
    UnframeAllFrames(h + r + f);
  }

  /** Every frame of the output carries the CRC-8 of its payload as its check byte. */
  lemma ImageChecked(raster: seq<seq<int>>)
    ensures AllChecked(ImageCommandList(raster))
  {
    var h, r, f := HeaderCommands, RowsCommands(raster), FooterCommands;
    HeaderChecked();
    FooterChecked();
    RowsCommandsChecked(raster);
    AllCheckedAppend(h, r);
    AllCheckedAppend(h + r, f);
  }

  /** The number of values one row of a W-wide raster adds: 17 + ceil(W/8). */
  function RowSize(width: nat): nat
  {
    17 + (width + 7) / 8
  }

  /** Each row contributes 17 + ceil(W/8) values. */
  lemma RowBlockLength(row: seq<int>)
    ensures |RowBlock(row)| == RowSize(|row|)
  {
  }

  /** A raster whose rows all have `width` pixels. */
  predicate Rectangular(raster: seq<seq<int>>, width: nat)
  {
    forall y | 0 <= y < |raster| :: |raster[y]| == width
  }

  lemma RectangularBlocks(rows: seq<seq<int>>, width: nat)
    requires Rectangular(rows, width)
    ensures Uniform(RowBlocks(rows), RowSize(width))
  {
    forall y | 0 <= y < |rows| ensures |RowBlocks(rows)[y]| == RowSize(width) {
      RowBlockLength(rows[y]);
    }
  }

  /** The size of the output for every W x H raster, the empty one included:
      28 + H * (17 + ceil(W/8)) + 85 values. */
  lemma ImageLength(raster: seq<seq<int>>, width: nat)
    requires Rectangular(raster, width)
    ensures |ImageCommands(raster)| == 28 + |raster| * RowSize(width) + 85
  {
    HeaderIsFrames();
    FooterIsFrames();
    RectangularBlocks(raster, width);
    ConcatLength(RowBlocks(raster), RowSize(width));
  }

  /** The size and layout of the output for a W x H raster: 28 + H * (17 + ceil(W/8)) + 85
      values, with row y's block at offset 28 + y * (17 + ceil(W/8)). */
  lemma ImageLayout(raster: seq<seq<int>>, width: nat, y: nat)
    requires Rectangular(raster, width)
    requires y < |raster|
    ensures |ImageCommands(raster)| == 28 + |raster| * RowSize(width) + 85
    ensures y * RowSize(width) + RowSize(width) <= |raster| * RowSize(width)
    ensures var m := RowSize(width);
      ImageCommands(raster)[28 + y * m .. 28 + y * m + m] == RowBlock(raster[y])
  {
    var m, bs := RowSize(width), RowBlocks(raster);
    HeaderIsFrames();
    FooterIsFrames();
    RectangularBlocks(raster, width);
    ConcatLength(bs, m);
    ConcatSplit(bs, y);
    assert Uniform(bs[..y], m);
    ConcatLength(bs[..y], m);
    var before, after := Concat(bs[..y]), Concat(bs[y + 1..]);
    Regroup(CmdHeader, before, bs[y], after, CmdFooter);
    MulSucc(y, m);
    MulMono(y, |raster|, m);
    MiddleSlice(CmdHeader + before, bs[y], after + CmdFooter);
  }

  lemma MulMono(y: nat, n: nat, m: nat)
    requires y < n
    ensures (y + 1) * m <= n * m
  {
  }

  lemma Regroup(h: seq<int>, p: seq<int>, q: seq<int>, r: seq<int>, f: seq<int>)
    ensures h + (p + q + r) + f == (h + p) + q + (r + f)
  {
  }

  /** The middle part of a three-part concatenation. */
  lemma MiddleSlice(a: seq<int>, b: seq<int>, c: seq<int>)
    ensures (a + b + c)[|a| .. |a| + |b|] == b
  {
  }
}
