# Bluetooth thermal printer: image encoder and BLE writer

This project is a Dafny model of the two core classes of a small Python driver for a
Bluetooth thermal printer (the "cat printer" family, whose command frames begin
`0x51 0x78`).

* `ImageUtils` turns a grey-level raster into the printer's command stream.
  * The stream starts with a fixed header: print quality, energy and "print image".
  * For each row it holds a prefix frame, then a frame carrying the row packed one bit
    per pixel (1 = ink, for grey level <= 0x80).
  * It ends with a fixed footer: feed, lattice end and padding.
  * Every frame ends with a CRC-8 of its payload. The CRC is computed from a 256-entry
    lookup table, proved here to be the plain CRC-8 with polynomial 0x07.
* `BLESPPUtils` holds the validated connection settings: MAC address, chunk length and
  pacing intervals. It writes a byte list to a GATT characteristic.
  * The list is cut into chunks of `one_length` bytes.
  * Each chunk is retried every 4 ms until it goes through. After 50 consecutive
    failures the whole write gives up.
  * After each successful chunk the writer pauses for `interval`.
  * `send` writes four fixed handshake commands and then the payload.

The modules are:

* `Checksum`: CRC8_TABLE, `crc8`, and the bitwise reference CRC.
* `BitPacking`: how pixels become bitmap bytes, with the bit layout stated on its own.
* `Commands`:
  * the frame format and its decoder;
  * the header, footer and row-prefix constants;
  * the whole `generate_image` output and its layout.
* `Imaging`: the `ImageUtils` class, with its setters, the `crc8` loop and the
  `generate_image` loops.
* `MacAddress`: `is_valid_mac`.
* `Transport`:
  * the retry loop as a function over an oracle of write outcomes;
  * `write_characteristic` and `send` as functions and as methods of the
    `BleSppUtils` class;
  * the `connected` flag.
* `Options`: the `Option` type.

The Bluetooth client is not called. It is replaced by answers given as parameters:
* `answer(k)` says whether the session's `k`-th write attempt succeeds;
* `linkUp` says whether `connect` succeeds.

Each write attempt and each sleep is appended to a trace instead of happening.

The model follows the code in these places, which are easy to misread:
* Within a bitmap byte, the first pixel ends in the lowest occupied bit. Each pixel shifts
  the byte right and sets the top bit for ink. So in a full byte pixel j is bit j, and in a
  partial last byte of k pixels the low 8 - k bits stay 0.
* `send` returns True even when a write inside it returns False. It returns False only
  when an exception escapes, and that cannot happen for lists of values up to 255.
* `write_characteristic` returns False, True, or None. None comes back for a non-list
  argument and for a completed write of at most 50 bytes.
* `disconnect` before any `connect` raises, because `_client` was never assigned.
* `is_valid_mac` also accepts a valid address followed by one newline, because of how
  Python's `$` matches.

## Model

| member | source | states |
|---|---|---|
| Checksum.LookupIsTable | ImageUtils.py:7-30 | the balanced lookup used in proofs agrees with CRC8_TABLE at all 256 indices |
| Checksum.TableIsPoly07 | ImageUtils.py:7-30 | every table entry is the bitwise CRC-8 (polynomial 0x07, eight shift-and-xor steps) of its index |
| Checksum.ToUnsigned | ImageUtils.py:131 | `(x + 256) % 256` is a byte congruent to x modulo 256, and equals x for values already in 0..255 |
| Checksum.ToSigned | ImageUtils.py:136 | the signed reading of a byte lies in -128..127 and maps back to the same byte |
| Checksum.Crc8 | ImageUtils.py:129-136 | the result is a signed byte whose unsigned value is the table-driven CRC fold from 0; the empty list gives 0 |
| Checksum.FoldAppend | ImageUtils.py:133-135 | the CRC of a concatenation continues from the CRC of the first part |
| Checksum.FoldModulo | ImageUtils.py:131-135 | lists that agree element-wise modulo 256 have the same fold, whatever the accumulator |
| Checksum.Crc8Modulo | ImageUtils.py:129-136 | `crc8` only sees its values modulo 256 |
| Checksum.Crc8Residue | ImageUtils.py:129-136 | appending its own check byte to a payload makes the CRC of the whole zero |
| Checksum.FoldIsBitwise | ImageUtils.py:129-136 | the table-driven fold equals the bitwise CRC-8/0x07 fold on every input |
| Checksum.Checksum53 | ImageUtils.py:33 | the quality command's check byte -117 is crc8([53]) |
| Checksum.ChecksumPair1 | ImageUtils.py:34 | the energy command's check byte 103 is crc8([-120, 19]) |
| Checksum.Checksum0 | ImageUtils.py:35 | the check byte 0 of a one-byte zero payload is crc8([0]) |
| Checksum.Checksum25 | ImageUtils.py:39 | the feed command's check byte 79 is crc8([25]) |
| Checksum.ChecksumPair2 | ImageUtils.py:40 | the lattice-end command's check byte -7 is crc8([48, 0]) |
| Checksum.Checksum10 | ImageUtils.py:153 | the row prefix's check byte 54 is crc8([10]) |
| Checksum.Checksum1 | BLESPPUtils.py:195 | the third handshake's check byte 7 is crc8([1]) |
| BitPacking.OrTop | ImageUtils.py:169 | `b \| 0x80` sets the top bit and keeps the seven low bits |
| BitPacking.ShiftIn | ImageUtils.py:165-169 | one pixel halves the byte and adds 0x80 for ink |
| BitPacking.PackRow | ImageUtils.py:154-171 | a row of W pixels gives ceil(W/8) bitmap bytes |
| BitPacking.PackByteLayout | ImageUtils.py:158-171 | a byte packed from k <= 8 pixels equals the positional sum with pixel j at bit j + 8 - k |
| BitPacking.PackByteBit | ImageUtils.py:158-171 | bit i of a byte of k pixels is 0 below 8 - k and otherwise the ink bit of pixel i - (8 - k) |
| BitPacking.PackRowByte | ImageUtils.py:154-171 | byte i of the bitmap is packed from pixels 8i up to 8i + 8, or up to the end of the row |
| BitPacking.PixelBit | ImageUtils.py:158-171 | pixel 8i + j's ink bit is bit j + (8 - k) of byte i, where k is that byte's pixel count |
| BitPacking.FullBytePixel | ImageUtils.py:158-171 | in a full byte, pixel x is bit x % 8 of byte x / 8 |
| BitPacking.PartialByteLowBits | ImageUtils.py:158-171 | the unused low bits of a partial last byte are clear |
| BitPacking.Step | ImageUtils.py:159-169 | one pixel step opens a new byte exactly when bit % 8 == 0 and leaves every earlier byte alone |
| BitPacking.StepInPlace | ImageUtils.py:159-169 | the loop's in-place update of byte `int(bit / 8)`, after the optional append, is that step; the index is in range |
| BitPacking.PackRowSnoc | ImageUtils.py:158-171 | adding one pixel to a row changes its bitmap by exactly one loop step |
| BitPacking.Scan | ImageUtils.py:154-171 | after n pixels the loop has built ceil(n/8) bytes |
| BitPacking.ScanIsPackRow | ImageUtils.py:158-171 | after n pixels the loop's bitmap is the bitmap of the first n pixels |
| Commands.Seal | ImageUtils.py:172-175 | a sealed command passes the receiver's check: running the CRC over the payload and then the check byte ends at 0 |
| Commands.UnframeFrame | ImageUtils.py:172-175 | decoding the front of a frame followed by anything gives back the command and the rest |
| Commands.FrameUnframe | ImageUtils.py:172-175 | whatever the decoder accepts is the frame of what it read, followed by the rest |
| Commands.FramesAppend | ImageUtils.py:140-177 | framing a list of commands distributes over list concatenation |
| Commands.UnframeAllFrames | ImageUtils.py:172-176 | decoding a stream of frames returns the original command list |
| Commands.HeaderChecked | ImageUtils.py:32-36 | each of CMD_HEADER's three commands carries the CRC-8 of its payload |
| Commands.HeaderIsFrames | ImageUtils.py:32-36 | CMD_HEADER is exactly the frames of its three commands, 28 values |
| Commands.FooterChecked | ImageUtils.py:38-44 | each of CMD_FOOTER's five commands carries the CRC-8 of its payload |
| Commands.FooterIsFrames | ImageUtils.py:38-44 | CMD_FOOTER is the frames of its five commands followed by the zero padding, 85 values |
| Commands.RowPrefixChecked | ImageUtils.py:153 | the row prefix command carries the CRC-8 of its payload |
| Commands.RowPrefixIsFrame | ImageUtils.py:153 | the nine-value row prefix is one well-formed frame |
| Commands.RowsBlockNext | ImageUtils.py:152-176 | one more pass of the row loop appends that row's prefix and row frame |
| Commands.RowsAreFrames | ImageUtils.py:152-176 | the rows' part of the output is the frames of a prefix command and a row command per row |
| Commands.RowsCommandsChecked | ImageUtils.py:152-176 | every command of the rows' part carries the CRC-8 of its payload |
| Commands.ImageIsFrames | ImageUtils.py:138-178 | the image output is a stream of frames plus the footer padding, and decoding it gives the command list back |
| Commands.ImageChecked | ImageUtils.py:138-178 | every frame in the image output carries a correct CRC-8 |
| Commands.RowBlockLength | ImageUtils.py:153-175 | one row adds 17 + ceil(W/8) values |
| Commands.ImageLength | ImageUtils.py:138-178 | every W by H raster, the empty one included, gives 28 + H(17 + ceil(W/8)) + 85 values |
| Commands.ImageLayout | ImageUtils.py:138-178 | a non-empty W by H raster gives 28 + H(17 + ceil(W/8)) + 85 values, with row y's block at offset 28 + y(17 + ceil(W/8)) |
| MacAddress.GroupsPositional | BLESPPUtils.py:23 | reading the pattern group by group and reading it position by position (separator where i % 3 == 2, hex digit elsewhere) agree, in both directions |
| MacAddress.MacValidIff | BLESPPUtils.py:20-24 | an address is accepted exactly when it has 17 characters in the positional form, optionally followed by one newline |
| MacAddress.SeparatorsIndependent | BLESPPUtils.py:23 | each separator may independently be ':' or '-' |
| MacAddress.MacBodyLength | BLESPPUtils.py:23 | a matched body has 17 characters |
| MacAddress.MacBodyAt | BLESPPUtils.py:23 | in a matched body, every character is a separator or a hex digit according to its position |
| MacAddress.PlainBody | BLESPPUtils.py:23 | "AA:BB:CC:DD:EE:FF" matches the pattern |
| MacAddress.MixedSeparatorsAccepted | BLESPPUtils.py:20-24 | mixed ':' and '-' separators are accepted |
| MacAddress.TrailingNewlineAccepted | BLESPPUtils.py:20-24 | one trailing newline is accepted, because of how `$` matches |
| MacAddress.DoubleNewlineRefused | BLESPPUtils.py:20-24 | two trailing newlines are refused |
| MacAddress.ShortRefused | BLESPPUtils.py:20-24 | five groups are refused |
| MacAddress.NonHexRefused | BLESPPUtils.py:20-24 | a non-hex digit is refused |
| MacAddress.DotRefused | BLESPPUtils.py:20-24 | '.' as a separator is refused |
| Transport.ToBytesMod | BLESPPUtils.py:144-152 | the hex round trip keeps the length and maps each value to itself or to value + 256 if negative, that is value mod 256 |
| Transport.ChunkSize | BLESPPUtils.py:161 | a chunk is non-empty, at most `one_length` long, stays inside the data, and is shorter only at the end |
| Transport.WriteLoopStep | BLESPPUtils.py:158-184 | one attempt that neither ends nor gives up records the chunk's write and the matching pause, then continues from the next offset and streak |
| Transport.WriteLoopStepAt | BLESPPUtils.py:158-184 | the same step, with success moving past the chunk and resetting the streak, and failure keeping the offset and adding one to the streak |
| Transport.WriteLoopLast | BLESPPUtils.py:176-181 | the 50th consecutive failure records that write and stops, incomplete, with no pause |
| Transport.WriteLoopDelivers | BLESPPUtils.py:154-185 | the bytes the client accepts are a prefix of the data in order, they are all of it exactly when the loop completes, and the counter moves once per attempt |
| Transport.WriteLoopChunks | BLESPPUtils.py:158-166 | every attempt sends the non-empty slice of at most `one_length` bytes at the current offset, and a success moves the offset past it |
| Transport.WriteLoopPacing | BLESPPUtils.py:163-184 | a success is followed by the `interval` pause and a failure by the 4 ms pause, except the failure that gives up |
| Transport.RetryStreak | BLESPPUtils.py:172-184 | k failures short of the limit retry the same chunk k times, each followed by the retry pause |
| Transport.GiveUp | BLESPPUtils.py:176-181 | once a chunk has failed 50 times in a row the loop returns incomplete; nothing more is attempted and later chunks are never tried |
| Transport.RetryThenSucceed | BLESPPUtils.py:158-184 | 49 failures and then a success send the chunk after exactly 50 attempts and continue with a fresh streak |
| Transport.AttemptBudget | BLESPPUtils.py:158-185 | the loop makes at most 50 attempts per chunk in total |
| Transport.WriteCallReplies | BLESPPUtils.py:140-187 | False and nothing written when not connected; None for a non-list; otherwise the bytes arrive exactly when the reply is not False; True only for more than 50 bytes; None only for at most 50 |
| Transport.HandshakesFramed | BLESPPUtils.py:193-196 | each handshake is the byte 18 followed by a well-formed checked printer frame |
| Transport.HandshakesFit | BLESPPUtils.py:193-196 | the handshakes survive the byte conversion |
| Transport.ImageFits | ImageUtils.py:138-178 | the output of `generate_image` for a raster at most 2040 pixels wide has every value at most 255, so `send` can convert it |
| Transport.RowBlockFits | ImageUtils.py:153-175 | a row of at most 2040 pixels has a length field of at most 255, and its block converts |
| Transport.FixedBlocksFit | ImageUtils.py:32-44 | CMD_HEADER and CMD_FOOTER convert |
| Transport.SessionSnoc | BLESPPUtils.py:190-199 | a further call starts at the attempt counter the earlier calls left, and its events follow theirs |
| Transport.SessionDisconnected | BLESPPUtils.py:190-200 | without a connection, a series of writes sends nothing and every call returns False |
| Transport.SessionDelivers | BLESPPUtils.py:190-200 | the bytes a series of calls delivers are the calls' bytes in call order |
| Transport.SessionDeliversAll | BLESPPUtils.py:190-200 | when connected and no call gives up, the client receives every payload's bytes, one payload after another |
| Transport.SessionOfFive | BLESPPUtils.py:190-200 | five consecutive calls chain their attempt counters, and their events concatenate in order |
| Transport.BleSppUtils.constructor | BLESPPUtils.py:8-18 | stores the settings; `_is_full` and `connected` start false; no client yet |
| Transport.BleSppUtils.Create | BLESPPUtils.py:8-18 | construction succeeds exactly when every setter accepts its argument; the new object holds the arguments, `_is_full` and `connected` are false, and there is no client, attempt or trace yet |
| Transport.BleSppUtils.CreateWithDefaults | BLESPPUtils.py:8 | defaults are slow_interval 0.05, interval 0.01 and one_length 100; only the address can fail; the rest of the initial state is as for Create |
| Transport.BleSppUtils.SetDeviceAddress | BLESPPUtils.py:29-33 | a valid MAC is stored; otherwise the call raises and the old value is kept |
| Transport.BleSppUtils.SetOneLength | BLESPPUtils.py:40-44 | a positive length is stored; otherwise the call raises and the old value is kept |
| Transport.BleSppUtils.SetInterval | BLESPPUtils.py:50-54 | a non-negative interval is stored; otherwise the call raises and the old value is kept |
| Transport.BleSppUtils.SetSlowInterval | BLESPPUtils.py:60-64 | a non-negative interval is stored; otherwise the call raises and the old value is kept |
| Transport.BleSppUtils.Connect | BLESPPUtils.py:116-125 | returns the link outcome; `connected` becomes true on success; a failure leaves it unchanged |
| Transport.BleSppUtils.Disconnect | BLESPPUtils.py:127-131 | clears `connected` once a client exists, and raises and changes nothing before that |
| Transport.BleSppUtils.Convert | BLESPPUtils.py:144-152 | the conversion loop yields the byte list ToBytes specifies |
| Transport.BleSppUtils.WriteGattChar | BLESPPUtils.py:164 | one attempt consults the oracle, counts once and is recorded |
| Transport.BleSppUtils.AsyncSleep | BLESPPUtils.py:170-184 | a sleep is recorded in the trace |
| Transport.BleSppUtils.WriteChunks | BLESPPUtils.py:154-185 | the loop's outcome, recorded events and attempt count are those of WriteLoop from offset 0 with pause `interval` |
| Transport.BleSppUtils.WriteCharacteristic | BLESPPUtils.py:140-187 | the reply, trace and counter are those of WriteCall (see WriteCallReplies) |
| Transport.BleSppUtils.Send | BLESPPUtils.py:190-202 | returns True; the trace is the four handshake calls followed by the payload's call, each starting where the previous one stopped |
| Imaging.ImageUtils.constructor | ImageUtils.py:47-51 | accepted settings are stored as given |
| Imaging.ImageUtils.Default | ImageUtils.py:47 | the defaults are "dither", "jarvis-judice-ninke", 384 and 1536 |
| Imaging.ImageUtils.Create | ImageUtils.py:47-90 | construction succeeds exactly when all four setters accept their arguments |
| Imaging.ImageUtils.SetChoice | ImageUtils.py:56-61 | only "dither" or "PIL" is stored; any other value raises and the old value is kept |
| Imaging.ImageUtils.SetDitherMethod | ImageUtils.py:66-72 | only the three named methods are stored; any other value raises and the old value is kept |
| Imaging.ImageUtils.SetWidth | ImageUtils.py:77-81 | only a positive width is stored; any other value raises and the old value is kept |
| Imaging.ImageUtils.SetMaxHeight | ImageUtils.py:86-90 | only a positive max height is stored; any other value raises and the old value is kept |
| Imaging.ImageUtils.Crc8 | ImageUtils.py:129-136 | the table loop computes the CRC-8 of Checksum.Crc8; the table index stays in 0..255 |
| Imaging.ImageUtils.PackPixel | ImageUtils.py:159-171 | one pass of the pixel loop is BitPacking.Step, and it grows the bitmap to ceil((bit+1)/8) bytes |
| Imaging.ImageUtils.PackPixels | ImageUtils.py:154-171 | the pixel loop builds exactly the packed row |
| Imaging.ImageUtils.EncodeRow | ImageUtils.py:172-175 | the row command is the frame of the sealed bitmap: its length, the bitmap, its CRC-8 and -1 |
| Imaging.ImageUtils.GenerateImage | ImageUtils.py:138-178 | on valid settings, the output is the header, then the prefix and the row frame for each row in order, then the footer; its properties are ImageIsFrames, ImageChecked, ImageLength, ImageLayout and ImageFits |
| Checksum.Crc8Table | ImageUtils.py:7-30 | CRC8_TABLE, value for value; LookupIsTable and TableIsPoly07 prove it is the CRC-8/0x07 table |
| Checksum.Fold | ImageUtils.py:133-135 | the accumulator loop `crc = CRC8_TABLE[crc ^ byte]`; FoldAppend, FoldModulo and FoldIsBitwise describe it |
| BitPacking.InkBit | ImageUtils.py:166-169 | the ink threshold, grey level at most 0x80; PixelBit, FullBytePixel and PartialByteLowBits place it in the bitmap |
| BitPacking.PackByte | ImageUtils.py:158-171 | the byte up to eight pixels leave behind; PackByteLayout and PackByteBit give its bits |
| Commands.Frame | ImageUtils.py:172-175 | the frame layout `[81, 120, code, 0, n, 0] + payload + [check, -1]`; UnframeFrame and FrameUnframe invert it |
| Commands.CmdHeader | ImageUtils.py:32-36 | CMD_HEADER; HeaderIsFrames and HeaderChecked prove it well formed |
| Commands.CmdFooter | ImageUtils.py:38-44 | CMD_FOOTER; FooterIsFrames and FooterChecked prove it well formed |
| Commands.RowPrefix | ImageUtils.py:153 | the per-row prefix; RowPrefixIsFrame and RowPrefixChecked prove it well formed |
| Commands.RowCommand | ImageUtils.py:172-175 | a row's command, code -65 with the packed bitmap as payload; RowsCommandsChecked |
| Commands.RowBlock | ImageUtils.py:153-176 | what one row adds; RowBlockLength and RowBlockFits |
| Commands.ImageCommands | ImageUtils.py:138-178 | the whole output; ImageIsFrames, ImageChecked, ImageLength, ImageLayout and ImageFits |
| MacAddress.IsValidMac | BLESPPUtils.py:20-24 | `is_valid_mac`; MacValidIff characterises it and the example lemmas exercise it |
| Transport.ToBytes | BLESPPUtils.py:144-152 | the list-to-bytes conversion; ToBytesMod |
| Transport.WriteLoop | BLESPPUtils.py:154-185 | the retry loop from a given offset and streak; WriteLoopDelivers, WriteLoopChunks, WriteLoopPacing, GiveUp, RetryThenSucceed and AttemptBudget |
| Transport.WriteCall | BLESPPUtils.py:140-187 | one `write_characteristic` call; WriteCallReplies |
| Transport.Session | BLESPPUtils.py:190-199 | a series of `write_characteristic` calls; SessionDisconnected, SessionDelivers and SessionDeliversAll |
| Transport.Handshakes | BLESPPUtils.py:193-196 | the four handshake lists; HandshakesFramed and HandshakesFit |
| Transport.BleSppUtils.Pace | BLESPPUtils.py:170 | the pause after a success, `interval` unless `_is_full`; WriteLoopPacing |

## Left out

- `process_image_PIL` and `process_image_dither` (ImageUtils.py:92-127) are left out. They
  load, resize and dither pictures through PIL and OpenCV with floating point.
  `GenerateImage` takes the resulting grey raster and its width instead.
  - Because of that, the `choice` branch between `image[y, x]` and `getpixel` is not
    modelled: both give the same grey level.
  - The `max_height` limit is also not modelled, since only those functions apply it.
- CRC8_TABLE's linearity (`table[a ^ b] == table[a] ^ table[b]`) is not stated on its own.
  The table is instead proved entry by entry equal to the bitwise CRC-8/0x07
  (TableIsPoly07), which implies it.
- The frame's one-value length field is modelled as an unbounded int. A row wider than
  2040 pixels would need a length above 255, which the hex conversion in the writer
  cannot carry; ImageFits shows that narrower rasters are always safe to send.
- The width and max_height setters also refuse non-int values, and dither_method and
  choice refuse non-strings. The model's setters take typed arguments, so that refusal
  does not arise.
- The Bluetooth client is not called:
  - `BleakClient.connect` becomes the `linkUp` parameter of `Connect`;
  - each `write_gatt_char` outcome becomes the `answer` oracle;
  - the client's `disconnect` is assumed to succeed.
  - A client exception raised in `disconnect` is not modelled.
  - If the `BleakClient` constructor itself raises inside `connect`, `_client` stays
    unassigned. The model always records that a client exists after `connect`.
- `asyncio.sleep` is recorded in the trace as a `Sleep` event and not waited for.
  Coroutines, scheduling and concurrency are not modelled.
- Transport.BleSppUtils.Convert, WriteCharacteristic and Send, and the functions
  WriteCall and Session behind them, require every list value to be at most 255 (the
  predicates Fits and Convertible).
  - A larger value formats to more than two hex digits, and `binascii.unhexlify` then
    gives a different byte string or raises.
  - A non-int element would raise.
  - Values below -256 are covered: Python's `%` brings them into 0..255.
- Transport.BleSppUtils.Send: under that requirement `write_characteristic` cannot raise,
  so the `except` branch (BLESPPUtils.py:201-202) is never reached and `Send` always
  returns True.
- Imaging.ImageUtils.GenerateImage requires valid settings. With a `choice` other than
  the two accepted ones, the source leaves the picture and its height unbound and raises;
  the setters make that state unreachable.
- `is_connected`, `start_notify`, `stop_notify`, `read_characteristic` and the read-only
  properties around them are left out. They only forward to the client or print.
- Prints are left out, including the branch that looks for "Access Denied" in the error
  text. They have no effect on the result.
- `interval` and `slow_interval` are modelled as reals, not Python floats or Decimals.
- `_is_full` is never set to True anywhere in the code, so the pause after a success is
  always `interval`. The `slow_interval` branch is kept in `Pace` but never taken.
- test.py, the command-line driver, is not part of this model.
