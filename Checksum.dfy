/** The table-driven CRC-8 that closes every printer frame (ImageUtils.py:7-30, 129-136):
    polynomial x^8 + x^2 + x + 1 (0x07), initial value 0, no reflection, no final XOR,
    with the final accumulator read back as a signed byte. */
module Checksum {

  /** An unsigned byte. */
  type Byte = x: int | 0 <= x < 256

  /** CRC8_TABLE, entry for entry: each bracketed part is one line of the source table
      (lines 8-29), grouped in pairs to keep the nesting shallow. */
  const Crc8Table: seq<Byte> :=
    (
      (
        (
          (
            (
              [0x00, 0x07, 0x0e, 0x09, 0x1c, 0x1b, 0x12, 0x15, 0x38, 0x3f, 0x36, 0x31] +
              [0x24, 0x23, 0x2a, 0x2d, 0x70, 0x77, 0x7e, 0x79, 0x6c, 0x6b, 0x62, 0x65]
            ) +
            [0x48, 0x4f, 0x46, 0x41, 0x54, 0x53, 0x5a, 0x5d, 0xe0, 0xe7, 0xee, 0xe9]
          ) +
          (
            (
              [0xfc, 0xfb, 0xf2, 0xf5, 0xd8, 0xdf, 0xd6, 0xd1, 0xc4, 0xc3, 0xca, 0xcd] +
              [0x90, 0x97, 0x9e, 0x99, 0x8c, 0x8b, 0x82, 0x85, 0xa8, 0xaf, 0xa6, 0xa1]
            ) +
            [0xb4, 0xb3, 0xba, 0xbd, 0xc7, 0xc0, 0xc9, 0xce, 0xdb, 0xdc, 0xd5, 0xd2]
          )
        ) +
        (
          (
            (
              [0xff, 0xf8, 0xf1, 0xf6, 0xe3, 0xe4, 0xed, 0xea, 0xb7, 0xb0, 0xb9, 0xbe] +
              [0xab, 0xac, 0xa5, 0xa2, 0x8f, 0x88, 0x81, 0x86, 0x93, 0x94, 0x9d, 0x9a]
            ) +
            [0x27, 0x20, 0x29, 0x2e, 0x3b, 0x3c, 0x35, 0x32, 0x1f, 0x18, 0x11, 0x16]
          ) +
          (
            [0x03, 0x04, 0x0d, 0x0a, 0x57, 0x50, 0x59, 0x5e, 0x4b, 0x4c, 0x45, 0x42] +
            [0x6f, 0x68, 0x61, 0x66, 0x73, 0x74, 0x7d, 0x7a, 0x89, 0x8e, 0x87, 0x80]
          )
        )
      ) +
      (
        (
          (
            (
              [0x95, 0x92, 0x9b, 0x9c, 0xb1, 0xb6, 0xbf, 0xb8, 0xad, 0xaa, 0xa3, 0xa4] +
              [0xf9, 0xfe, 0xf7, 0xf0, 0xe5, 0xe2, 0xeb, 0xec, 0xc1, 0xc6, 0xcf, 0xc8]
            ) +
            [0xdd, 0xda, 0xd3, 0xd4, 0x69, 0x6e, 0x67, 0x60, 0x75, 0x72, 0x7b, 0x7c]
          ) +
          (
            (
              [0x51, 0x56, 0x5f, 0x58, 0x4d, 0x4a, 0x43, 0x44, 0x19, 0x1e, 0x17, 0x10] +
              [0x05, 0x02, 0x0b, 0x0c, 0x21, 0x26, 0x2f, 0x28, 0x3d, 0x3a, 0x33, 0x34]
            ) +
            [0x4e, 0x49, 0x40, 0x47, 0x52, 0x55, 0x5c, 0x5b, 0x76, 0x71, 0x78, 0x7f]
          )
        ) +
        (
          (
            (
              [0x6a, 0x6d, 0x64, 0x63, 0x3e, 0x39, 0x30, 0x37, 0x22, 0x25, 0x2c, 0x2b] +
              [0x06, 0x01, 0x08, 0x0f, 0x1a, 0x1d, 0x14, 0x13, 0xae, 0xa9, 0xa0, 0xa7]
            ) +
            [0xb2, 0xb5, 0xbc, 0xbb, 0x96, 0x91, 0x98, 0x9f, 0x8a, 0x8d, 0x84, 0x83]
          ) +
          (
            [0xde, 0xd9, 0xd0, 0xd7, 0xc2, 0xc5, 0xcc, 0xcb, 0xe6, 0xe1, 0xe8, 0xef] +
            [0xfa, 0xfd, 0xf4, 0xf3]
          )
        )
      )
    )

  /** The same table as a search on the index: `Lookup(i)` is `CRC8_TABLE[i]`
      (`LookupIsTable`). The search sits behind a short countdown so that the verifier
      expands it only for a known index. */
  function Lookup(i: Byte): Byte
  {
    Search(i, 2)
  }

  function Search(i: Byte, countdown: nat): Byte
    decreases countdown
  {
    if countdown > 0 then Search(i, countdown - 1) else
    if i < 128 then
      if i < 64 then
        if i < 32 then
          if i < 16 then
            if i < 8 then
              if i < 4 then
                if i < 2 then (if i < 1 then 0x00 else 0x07) else (if i < 3 then 0x0e else 0x09)
              else
                if i < 6 then (if i < 5 then 0x1c else 0x1b) else (if i < 7 then 0x12 else 0x15)
            else
              if i < 12 then
                if i < 10 then (if i < 9 then 0x38 else 0x3f) else (if i < 11 then 0x36 else 0x31)
              else
                if i < 14 then (if i < 13 then 0x24 else 0x23) else (if i < 15 then 0x2a else 0x2d)
          else
            if i < 24 then
              if i < 20 then
                if i < 18 then (if i < 17 then 0x70 else 0x77) else (if i < 19 then 0x7e else 0x79)
              else
                if i < 22 then (if i < 21 then 0x6c else 0x6b) else (if i < 23 then 0x62 else 0x65)
            else
              if i < 28 then
                if i < 26 then (if i < 25 then 0x48 else 0x4f) else (if i < 27 then 0x46 else 0x41)
              else
                if i < 30 then (if i < 29 then 0x54 else 0x53) else (if i < 31 then 0x5a else 0x5d)
        else
          if i < 48 then
            if i < 40 then
              if i < 36 then
                if i < 34 then (if i < 33 then 0xe0 else 0xe7) else (if i < 35 then 0xee else 0xe9)
              else
                if i < 38 then (if i < 37 then 0xfc else 0xfb) else (if i < 39 then 0xf2 else 0xf5)
            else
              if i < 44 then
                if i < 42 then (if i < 41 then 0xd8 else 0xdf) else (if i < 43 then 0xd6 else 0xd1)
              else
                if i < 46 then (if i < 45 then 0xc4 else 0xc3) else (if i < 47 then 0xca else 0xcd)
          else
            if i < 56 then
              if i < 52 then
                if i < 50 then (if i < 49 then 0x90 else 0x97) else (if i < 51 then 0x9e else 0x99)
              else
                if i < 54 then (if i < 53 then 0x8c else 0x8b) else (if i < 55 then 0x82 else 0x85)
            else
              if i < 60 then
                if i < 58 then (if i < 57 then 0xa8 else 0xaf) else (if i < 59 then 0xa6 else 0xa1)
              else
                if i < 62 then (if i < 61 then 0xb4 else 0xb3) else (if i < 63 then 0xba else 0xbd)
      else
        if i < 96 then
          if i < 80 then
            if i < 72 then
              if i < 68 then
                if i < 66 then (if i < 65 then 0xc7 else 0xc0) else (if i < 67 then 0xc9 else 0xce)
              else
                if i < 70 then (if i < 69 then 0xdb else 0xdc) else (if i < 71 then 0xd5 else 0xd2)
            else
              if i < 76 then
                if i < 74 then (if i < 73 then 0xff else 0xf8) else (if i < 75 then 0xf1 else 0xf6)
              else
                if i < 78 then (if i < 77 then 0xe3 else 0xe4) else (if i < 79 then 0xed else 0xea)
          else
            if i < 88 then
              if i < 84 then
                if i < 82 then (if i < 81 then 0xb7 else 0xb0) else (if i < 83 then 0xb9 else 0xbe)
              else
                if i < 86 then (if i < 85 then 0xab else 0xac) else (if i < 87 then 0xa5 else 0xa2)
            else
              if i < 92 then
                if i < 90 then (if i < 89 then 0x8f else 0x88) else (if i < 91 then 0x81 else 0x86)
              else
                if i < 94 then (if i < 93 then 0x93 else 0x94) else (if i < 95 then 0x9d else 0x9a)
        else
          if i < 112 then
            if i < 104 then
              if i < 100 then
                if i < 98 then (if i < 97 then 0x27 else 0x20) else (if i < 99 then 0x29 else 0x2e)
              else
                if i < 102 then (if i < 101 then 0x3b else 0x3c) else (if i < 103 then 0x35 else 0x32)
            else
              if i < 108 then
                if i < 106 then (if i < 105 then 0x1f else 0x18) else (if i < 107 then 0x11 else 0x16)
              else
                if i < 110 then (if i < 109 then 0x03 else 0x04) else (if i < 111 then 0x0d else 0x0a)
          else
            if i < 120 then
              if i < 116 then
                if i < 114 then (if i < 113 then 0x57 else 0x50) else (if i < 115 then 0x59 else 0x5e)
              else
                if i < 118 then (if i < 117 then 0x4b else 0x4c) else (if i < 119 then 0x45 else 0x42)
            else
              if i < 124 then
                if i < 122 then (if i < 121 then 0x6f else 0x68) else (if i < 123 then 0x61 else 0x66)
              else
                if i < 126 then (if i < 125 then 0x73 else 0x74) else (if i < 127 then 0x7d else 0x7a)
    else
      if i < 192 then
        if i < 160 then
          if i < 144 then
            if i < 136 then
              if i < 132 then
                if i < 130 then (if i < 129 then 0x89 else 0x8e) else (if i < 131 then 0x87 else 0x80)
              else
                if i < 134 then (if i < 133 then 0x95 else 0x92) else (if i < 135 then 0x9b else 0x9c)
            else
              if i < 140 then
                if i < 138 then (if i < 137 then 0xb1 else 0xb6) else (if i < 139 then 0xbf else 0xb8)
              else
                if i < 142 then (if i < 141 then 0xad else 0xaa) else (if i < 143 then 0xa3 else 0xa4)
          else
            if i < 152 then
              if i < 148 then
                if i < 146 then (if i < 145 then 0xf9 else 0xfe) else (if i < 147 then 0xf7 else 0xf0)
              else
                if i < 150 then (if i < 149 then 0xe5 else 0xe2) else (if i < 151 then 0xeb else 0xec)
            else
              if i < 156 then
                if i < 154 then (if i < 153 then 0xc1 else 0xc6) else (if i < 155 then 0xcf else 0xc8)
              else
                if i < 158 then (if i < 157 then 0xdd else 0xda) else (if i < 159 then 0xd3 else 0xd4)
        else
          if i < 176 then
            if i < 168 then
              if i < 164 then
                if i < 162 then (if i < 161 then 0x69 else 0x6e) else (if i < 163 then 0x67 else 0x60)
              else
                if i < 166 then (if i < 165 then 0x75 else 0x72) else (if i < 167 then 0x7b else 0x7c)
            else
              if i < 172 then
                if i < 170 then (if i < 169 then 0x51 else 0x56) else (if i < 171 then 0x5f else 0x58)
              else
                if i < 174 then (if i < 173 then 0x4d else 0x4a) else (if i < 175 then 0x43 else 0x44)
          else
            if i < 184 then
              if i < 180 then
                if i < 178 then (if i < 177 then 0x19 else 0x1e) else (if i < 179 then 0x17 else 0x10)
              else
                if i < 182 then (if i < 181 then 0x05 else 0x02) else (if i < 183 then 0x0b else 0x0c)
            else
              if i < 188 then
                if i < 186 then (if i < 185 then 0x21 else 0x26) else (if i < 187 then 0x2f else 0x28)
              else
                if i < 190 then (if i < 189 then 0x3d else 0x3a) else (if i < 191 then 0x33 else 0x34)
      else
        if i < 224 then
          if i < 208 then
            if i < 200 then
              if i < 196 then
                if i < 194 then (if i < 193 then 0x4e else 0x49) else (if i < 195 then 0x40 else 0x47)
              else
                if i < 198 then (if i < 197 then 0x52 else 0x55) else (if i < 199 then 0x5c else 0x5b)
            else
              if i < 204 then
                if i < 202 then (if i < 201 then 0x76 else 0x71) else (if i < 203 then 0x78 else 0x7f)
              else
                if i < 206 then (if i < 205 then 0x6a else 0x6d) else (if i < 207 then 0x64 else 0x63)
          else
            if i < 216 then
              if i < 212 then
                if i < 210 then (if i < 209 then 0x3e else 0x39) else (if i < 211 then 0x30 else 0x37)
              else
                if i < 214 then (if i < 213 then 0x22 else 0x25) else (if i < 215 then 0x2c else 0x2b)
            else
              if i < 220 then
                if i < 218 then (if i < 217 then 0x06 else 0x01) else (if i < 219 then 0x08 else 0x0f)
              else
                if i < 222 then (if i < 221 then 0x1a else 0x1d) else (if i < 223 then 0x14 else 0x13)
        else
          if i < 240 then
            if i < 232 then
              if i < 228 then
                if i < 226 then (if i < 225 then 0xae else 0xa9) else (if i < 227 then 0xa0 else 0xa7)
              else
                if i < 230 then (if i < 229 then 0xb2 else 0xb5) else (if i < 231 then 0xbc else 0xbb)
            else
              if i < 236 then
                if i < 234 then (if i < 233 then 0x96 else 0x91) else (if i < 235 then 0x98 else 0x9f)
              else
                if i < 238 then (if i < 237 then 0x8a else 0x8d) else (if i < 239 then 0x84 else 0x83)
          else
            if i < 248 then
              if i < 244 then
                if i < 242 then (if i < 241 then 0xde else 0xd9) else (if i < 243 then 0xd0 else 0xd7)
              else
                if i < 246 then (if i < 245 then 0xc2 else 0xc5) else (if i < 247 then 0xcc else 0xcb)
            else
              if i < 252 then
                if i < 250 then (if i < 249 then 0xe6 else 0xe1) else (if i < 251 then 0xe8 else 0xef)
              else
                if i < 254 then (if i < 253 then 0xfa else 0xfd) else (if i < 255 then 0xf4 else 0xf3)
  }

  /** Line 8 of the source table. */
  lemma TableLine8()
    ensures forall i | 0 <= i < 12 :: Crc8Table[i] == Lookup(i)
  {
    assert Crc8Table[0] == 0x00;
    assert Lookup(0) == 0x00;
    assert Crc8Table[1] == 0x07;
    assert Lookup(1) == 0x07;
    assert Crc8Table[2] == 0x0e;
    assert Lookup(2) == 0x0e;
    assert Crc8Table[3] == 0x09;
    assert Lookup(3) == 0x09;
    assert Crc8Table[4] == 0x1c;
    assert Lookup(4) == 0x1c;
    assert Crc8Table[5] == 0x1b;
    assert Lookup(5) == 0x1b;
    assert Crc8Table[6] == 0x12;
    assert Lookup(6) == 0x12;
    assert Crc8Table[7] == 0x15;
    assert Lookup(7) == 0x15;
    assert Crc8Table[8] == 0x38;
    assert Lookup(8) == 0x38;
    assert Crc8Table[9] == 0x3f;
    assert Lookup(9) == 0x3f;
    assert Crc8Table[10] == 0x36;
    assert Lookup(10) == 0x36;
    assert Crc8Table[11] == 0x31;
    assert Lookup(11) == 0x31;
    forall i | 0 <= i < 12 ensures Crc8Table[i] == Lookup(i) {
      assert i in {0, 1, 2, 3, 4, 5, 6, 7, 8, 9, 10, 11};
    }
  }

  /** Line 9 of the source table. */
  lemma TableLine9()
    ensures forall i | 12 <= i < 24 :: Crc8Table[i] == Lookup(i)
  {
    assert Crc8Table[12] == 0x24;
    assert Lookup(12) == 0x24;
    assert Crc8Table[13] == 0x23;
    assert Lookup(13) == 0x23;
    assert Crc8Table[14] == 0x2a;
    assert Lookup(14) == 0x2a;
    assert Crc8Table[15] == 0x2d;
    assert Lookup(15) == 0x2d;
    assert Crc8Table[16] == 0x70;
    assert Lookup(16) == 0x70;
    assert Crc8Table[17] == 0x77;
    assert Lookup(17) == 0x77;
    assert Crc8Table[18] == 0x7e;
    assert Lookup(18) == 0x7e;
    assert Crc8Table[19] == 0x79;
    assert Lookup(19) == 0x79;
    assert Crc8Table[20] == 0x6c;
    assert Lookup(20) == 0x6c;
    assert Crc8Table[21] == 0x6b;
    assert Lookup(21) == 0x6b;
    assert Crc8Table[22] == 0x62;
    assert Lookup(22) == 0x62;
    assert Crc8Table[23] == 0x65;
    assert Lookup(23) == 0x65;
    forall i | 12 <= i < 24 ensures Crc8Table[i] == Lookup(i) {
      assert i in {12, 13, 14, 15, 16, 17, 18, 19, 20, 21, 22, 23};
    }
  }

  /** Line 10 of the source table. */
  lemma TableLine10()
    ensures forall i | 24 <= i < 36 :: Crc8Table[i] == Lookup(i)
  {
    assert Crc8Table[24] == 0x48;
    assert Lookup(24) == 0x48;
    assert Crc8Table[25] == 0x4f;
    assert Lookup(25) == 0x4f;
    assert Crc8Table[26] == 0x46;
    assert Lookup(26) == 0x46;
    assert Crc8Table[27] == 0x41;
    assert Lookup(27) == 0x41;
    assert Crc8Table[28] == 0x54;
    assert Lookup(28) == 0x54;
    assert Crc8Table[29] == 0x53;
    assert Lookup(29) == 0x53;
    assert Crc8Table[30] == 0x5a;
    assert Lookup(30) == 0x5a;
    assert Crc8Table[31] == 0x5d;
    assert Lookup(31) == 0x5d;
    assert Crc8Table[32] == 0xe0;
    assert Lookup(32) == 0xe0;
    assert Crc8Table[33] == 0xe7;
    assert Lookup(33) == 0xe7;
    assert Crc8Table[34] == 0xee;
    assert Lookup(34) == 0xee;
    assert Crc8Table[35] == 0xe9;
    assert Lookup(35) == 0xe9;
    forall i | 24 <= i < 36 ensures Crc8Table[i] == Lookup(i) {
      assert i in {24, 25, 26, 27, 28, 29, 30, 31, 32, 33, 34, 35};
    }
  }

  /** Line 11 of the source table. */
  lemma TableLine11()
    ensures forall i | 36 <= i < 48 :: Crc8Table[i] == Lookup(i)
  {
    assert Crc8Table[36] == 0xfc;
    assert Lookup(36) == 0xfc;
    assert Crc8Table[37] == 0xfb;
    assert Lookup(37) == 0xfb;
    assert Crc8Table[38] == 0xf2;
    assert Lookup(38) == 0xf2;
    assert Crc8Table[39] == 0xf5;
    assert Lookup(39) == 0xf5;
    assert Crc8Table[40] == 0xd8;
    assert Lookup(40) == 0xd8;
    assert Crc8Table[41] == 0xdf;
    assert Lookup(41) == 0xdf;
    assert Crc8Table[42] == 0xd6;
    assert Lookup(42) == 0xd6;
    assert Crc8Table[43] == 0xd1;
    assert Lookup(43) == 0xd1;
    assert Crc8Table[44] == 0xc4;
    assert Lookup(44) == 0xc4;
    assert Crc8Table[45] == 0xc3;
    assert Lookup(45) == 0xc3;
    assert Crc8Table[46] == 0xca;
    assert Lookup(46) == 0xca;
    assert Crc8Table[47] == 0xcd;
    assert Lookup(47) == 0xcd;
    forall i | 36 <= i < 48 ensures Crc8Table[i] == Lookup(i) {
      assert i in {36, 37, 38, 39, 40, 41, 42, 43, 44, 45, 46, 47};
    }
  }

  /** Line 12 of the source table. */
  lemma TableLine12()
    ensures forall i | 48 <= i < 60 :: Crc8Table[i] == Lookup(i)
  {
    assert Crc8Table[48] == 0x90;
    assert Lookup(48) == 0x90;
    assert Crc8Table[49] == 0x97;
    assert Lookup(49) == 0x97;
    assert Crc8Table[50] == 0x9e;
    assert Lookup(50) == 0x9e;
    assert Crc8Table[51] == 0x99;
    assert Lookup(51) == 0x99;
    assert Crc8Table[52] == 0x8c;
    assert Lookup(52) == 0x8c;
    assert Crc8Table[53] == 0x8b;
    assert Lookup(53) == 0x8b;
    assert Crc8Table[54] == 0x82;
    assert Lookup(54) == 0x82;
    assert Crc8Table[55] == 0x85;
    assert Lookup(55) == 0x85;
    assert Crc8Table[56] == 0xa8;
    assert Lookup(56) == 0xa8;
    assert Crc8Table[57] == 0xaf;
    assert Lookup(57) == 0xaf;
    assert Crc8Table[58] == 0xa6;
    assert Lookup(58) == 0xa6;
    assert Crc8Table[59] == 0xa1;
    assert Lookup(59) == 0xa1;
    forall i | 48 <= i < 60 ensures Crc8Table[i] == Lookup(i) {
      assert i in {48, 49, 50, 51, 52, 53, 54, 55, 56, 57, 58, 59};
    }
  }

  /** Line 13 of the source table. */
  lemma TableLine13()
    ensures forall i | 60 <= i < 72 :: Crc8Table[i] == Lookup(i)
  {
    assert Crc8Table[60] == 0xb4;
    assert Lookup(60) == 0xb4;
    assert Crc8Table[61] == 0xb3;
    assert Lookup(61) == 0xb3;
    assert Crc8Table[62] == 0xba;
    assert Lookup(62) == 0xba;
    assert Crc8Table[63] == 0xbd;
    assert Lookup(63) == 0xbd;
    assert Crc8Table[64] == 0xc7;
    assert Lookup(64) == 0xc7;
    assert Crc8Table[65] == 0xc0;
    assert Lookup(65) == 0xc0;
    assert Crc8Table[66] == 0xc9;
    assert Lookup(66) == 0xc9;
    assert Crc8Table[67] == 0xce;
    assert Lookup(67) == 0xce;
    assert Crc8Table[68] == 0xdb;
    assert Lookup(68) == 0xdb;
    assert Crc8Table[69] == 0xdc;
    assert Lookup(69) == 0xdc;
    assert Crc8Table[70] == 0xd5;
    assert Lookup(70) == 0xd5;
    assert Crc8Table[71] == 0xd2;
    assert Lookup(71) == 0xd2;
    forall i | 60 <= i < 72 ensures Crc8Table[i] == Lookup(i) {
      assert i in {60, 61, 62, 63, 64, 65, 66, 67, 68, 69, 70, 71};
    }
  }

  /** Line 14 of the source table. */
  lemma TableLine14()
    ensures forall i | 72 <= i < 84 :: Crc8Table[i] == Lookup(i)
  {
    assert Crc8Table[72] == 0xff;
    assert Lookup(72) == 0xff;
    assert Crc8Table[73] == 0xf8;
    assert Lookup(73) == 0xf8;
    assert Crc8Table[74] == 0xf1;
    assert Lookup(74) == 0xf1;
    assert Crc8Table[75] == 0xf6;
    assert Lookup(75) == 0xf6;
    assert Crc8Table[76] == 0xe3;
    assert Lookup(76) == 0xe3;
    assert Crc8Table[77] == 0xe4;
    assert Lookup(77) == 0xe4;
    assert Crc8Table[78] == 0xed;
    assert Lookup(78) == 0xed;
    assert Crc8Table[79] == 0xea;
    assert Lookup(79) == 0xea;
    assert Crc8Table[80] == 0xb7;
    assert Lookup(80) == 0xb7;
    assert Crc8Table[81] == 0xb0;
    assert Lookup(81) == 0xb0;
    assert Crc8Table[82] == 0xb9;
    assert Lookup(82) == 0xb9;
    assert Crc8Table[83] == 0xbe;
    assert Lookup(83) == 0xbe;
    forall i | 72 <= i < 84 ensures Crc8Table[i] == Lookup(i) {
      assert i in {72, 73, 74, 75, 76, 77, 78, 79, 80, 81, 82, 83};
    }
  }

  /** Line 15 of the source table. */
  lemma TableLine15()
    ensures forall i | 84 <= i < 96 :: Crc8Table[i] == Lookup(i)
  {
    assert Crc8Table[84] == 0xab;
    assert Lookup(84) == 0xab;
    assert Crc8Table[85] == 0xac;
    assert Lookup(85) == 0xac;
    assert Crc8Table[86] == 0xa5;
    assert Lookup(86) == 0xa5;
    assert Crc8Table[87] == 0xa2;
    assert Lookup(87) == 0xa2;
    assert Crc8Table[88] == 0x8f;
    assert Lookup(88) == 0x8f;
    assert Crc8Table[89] == 0x88;
    assert Lookup(89) == 0x88;
    assert Crc8Table[90] == 0x81;
    assert Lookup(90) == 0x81;
    assert Crc8Table[91] == 0x86;
    assert Lookup(91) == 0x86;
    assert Crc8Table[92] == 0x93;
    assert Lookup(92) == 0x93;
    assert Crc8Table[93] == 0x94;
    assert Lookup(93) == 0x94;
    assert Crc8Table[94] == 0x9d;
    assert Lookup(94) == 0x9d;
    assert Crc8Table[95] == 0x9a;
    assert Lookup(95) == 0x9a;
    forall i | 84 <= i < 96 ensures Crc8Table[i] == Lookup(i) {
      assert i in {84, 85, 86, 87, 88, 89, 90, 91, 92, 93, 94, 95};
    }
  }

  /** Line 16 of the source table. */
  lemma TableLine16()
    ensures forall i | 96 <= i < 108 :: Crc8Table[i] == Lookup(i)
  {
    assert Crc8Table[96] == 0x27;
    assert Lookup(96) == 0x27;
    assert Crc8Table[97] == 0x20;
    assert Lookup(97) == 0x20;
    assert Crc8Table[98] == 0x29;
    assert Lookup(98) == 0x29;
    assert Crc8Table[99] == 0x2e;
    assert Lookup(99) == 0x2e;
    assert Crc8Table[100] == 0x3b;
    assert Lookup(100) == 0x3b;
    assert Crc8Table[101] == 0x3c;
    assert Lookup(101) == 0x3c;
    assert Crc8Table[102] == 0x35;
    assert Lookup(102) == 0x35;
    assert Crc8Table[103] == 0x32;
    assert Lookup(103) == 0x32;
    assert Crc8Table[104] == 0x1f;
    assert Lookup(104) == 0x1f;
    assert Crc8Table[105] == 0x18;
    assert Lookup(105) == 0x18;
    assert Crc8Table[106] == 0x11;
    assert Lookup(106) == 0x11;
    assert Crc8Table[107] == 0x16;
    assert Lookup(107) == 0x16;
    forall i | 96 <= i < 108 ensures Crc8Table[i] == Lookup(i) {
      assert i in {96, 97, 98, 99, 100, 101, 102, 103, 104, 105, 106, 107};
    }
  }

  /** Line 17 of the source table. */
  lemma TableLine17()
    ensures forall i | 108 <= i < 120 :: Crc8Table[i] == Lookup(i)
  {
    assert Crc8Table[108] == 0x03;
    assert Lookup(108) == 0x03;
    assert Crc8Table[109] == 0x04;
    assert Lookup(109) == 0x04;
    assert Crc8Table[110] == 0x0d;
    assert Lookup(110) == 0x0d;
    assert Crc8Table[111] == 0x0a;
    assert Lookup(111) == 0x0a;
    assert Crc8Table[112] == 0x57;
    assert Lookup(112) == 0x57;
    assert Crc8Table[113] == 0x50;
    assert Lookup(113) == 0x50;
    assert Crc8Table[114] == 0x59;
    assert Lookup(114) == 0x59;
    assert Crc8Table[115] == 0x5e;
    assert Lookup(115) == 0x5e;
    assert Crc8Table[116] == 0x4b;
    assert Lookup(116) == 0x4b;
    assert Crc8Table[117] == 0x4c;
    assert Lookup(117) == 0x4c;
    assert Crc8Table[118] == 0x45;
    assert Lookup(118) == 0x45;
    assert Crc8Table[119] == 0x42;
    assert Lookup(119) == 0x42;
    forall i | 108 <= i < 120 ensures Crc8Table[i] == Lookup(i) {
      assert i in {108, 109, 110, 111, 112, 113, 114, 115, 116, 117, 118, 119};
    }
  }

  /** Line 18 of the source table. */
  lemma TableLine18()
    ensures forall i | 120 <= i < 132 :: Crc8Table[i] == Lookup(i)
  {
    assert Crc8Table[120] == 0x6f;
    assert Lookup(120) == 0x6f;
    assert Crc8Table[121] == 0x68;
    assert Lookup(121) == 0x68;
    assert Crc8Table[122] == 0x61;
    assert Lookup(122) == 0x61;
    assert Crc8Table[123] == 0x66;
    assert Lookup(123) == 0x66;
    assert Crc8Table[124] == 0x73;
    assert Lookup(124) == 0x73;
    assert Crc8Table[125] == 0x74;
    assert Lookup(125) == 0x74;
    assert Crc8Table[126] == 0x7d;
    assert Lookup(126) == 0x7d;
    assert Crc8Table[127] == 0x7a;
    assert Lookup(127) == 0x7a;
    assert Crc8Table[128] == 0x89;
    assert Lookup(128) == 0x89;
    assert Crc8Table[129] == 0x8e;
    assert Lookup(129) == 0x8e;
    assert Crc8Table[130] == 0x87;
    assert Lookup(130) == 0x87;
    assert Crc8Table[131] == 0x80;
    assert Lookup(131) == 0x80;
    forall i | 120 <= i < 132 ensures Crc8Table[i] == Lookup(i) {
      assert i in {120, 121, 122, 123, 124, 125, 126, 127, 128, 129, 130, 131};
    }
  }

  /** Line 19 of the source table. */
  lemma TableLine19()
    ensures forall i | 132 <= i < 144 :: Crc8Table[i] == Lookup(i)
  {
    assert Crc8Table[132] == 0x95;
    assert Lookup(132) == 0x95;
    assert Crc8Table[133] == 0x92;
    assert Lookup(133) == 0x92;
    assert Crc8Table[134] == 0x9b;
    assert Lookup(134) == 0x9b;
    assert Crc8Table[135] == 0x9c;
    assert Lookup(135) == 0x9c;
    assert Crc8Table[136] == 0xb1;
    assert Lookup(136) == 0xb1;
    assert Crc8Table[137] == 0xb6;
    assert Lookup(137) == 0xb6;
    assert Crc8Table[138] == 0xbf;
    assert Lookup(138) == 0xbf;
    assert Crc8Table[139] == 0xb8;
    assert Lookup(139) == 0xb8;
    assert Crc8Table[140] == 0xad;
    assert Lookup(140) == 0xad;
    assert Crc8Table[141] == 0xaa;
    assert Lookup(141) == 0xaa;
    assert Crc8Table[142] == 0xa3;
    assert Lookup(142) == 0xa3;
    assert Crc8Table[143] == 0xa4;
    assert Lookup(143) == 0xa4;
    forall i | 132 <= i < 144 ensures Crc8Table[i] == Lookup(i) {
      assert i in {132, 133, 134, 135, 136, 137, 138, 139, 140, 141, 142, 143};
    }
  }

  /** Line 20 of the source table. */
  lemma TableLine20()
    ensures forall i | 144 <= i < 156 :: Crc8Table[i] == Lookup(i)
  {
    assert Crc8Table[144] == 0xf9;
    assert Lookup(144) == 0xf9;
    assert Crc8Table[145] == 0xfe;
    assert Lookup(145) == 0xfe;
    assert Crc8Table[146] == 0xf7;
    assert Lookup(146) == 0xf7;
    assert Crc8Table[147] == 0xf0;
    assert Lookup(147) == 0xf0;
    assert Crc8Table[148] == 0xe5;
    assert Lookup(148) == 0xe5;
    assert Crc8Table[149] == 0xe2;
    assert Lookup(149) == 0xe2;
    assert Crc8Table[150] == 0xeb;
    assert Lookup(150) == 0xeb;
    assert Crc8Table[151] == 0xec;
    assert Lookup(151) == 0xec;
    assert Crc8Table[152] == 0xc1;
    assert Lookup(152) == 0xc1;
    assert Crc8Table[153] == 0xc6;
    assert Lookup(153) == 0xc6;
    assert Crc8Table[154] == 0xcf;
    assert Lookup(154) == 0xcf;
    assert Crc8Table[155] == 0xc8;
    assert Lookup(155) == 0xc8;
    forall i | 144 <= i < 156 ensures Crc8Table[i] == Lookup(i) {
      assert i in {144, 145, 146, 147, 148, 149, 150, 151, 152, 153, 154, 155};
    }
  }

  /** Line 21 of the source table. */
  lemma TableLine21()
    ensures forall i | 156 <= i < 168 :: Crc8Table[i] == Lookup(i)
  {
    assert Crc8Table[156] == 0xdd;
    assert Lookup(156) == 0xdd;
    assert Crc8Table[157] == 0xda;
    assert Lookup(157) == 0xda;
    assert Crc8Table[158] == 0xd3;
    assert Lookup(158) == 0xd3;
    assert Crc8Table[159] == 0xd4;
    assert Lookup(159) == 0xd4;
    assert Crc8Table[160] == 0x69;
    assert Lookup(160) == 0x69;
    assert Crc8Table[161] == 0x6e;
    assert Lookup(161) == 0x6e;
    assert Crc8Table[162] == 0x67;
    assert Lookup(162) == 0x67;
    assert Crc8Table[163] == 0x60;
    assert Lookup(163) == 0x60;
    assert Crc8Table[164] == 0x75;
    assert Lookup(164) == 0x75;
    assert Crc8Table[165] == 0x72;
    assert Lookup(165) == 0x72;
    assert Crc8Table[166] == 0x7b;
    assert Lookup(166) == 0x7b;
    assert Crc8Table[167] == 0x7c;
    assert Lookup(167) == 0x7c;
    forall i | 156 <= i < 168 ensures Crc8Table[i] == Lookup(i) {
      assert i in {156, 157, 158, 159, 160, 161, 162, 163, 164, 165, 166, 167};
    }
  }

  /** Line 22 of the source table. */
  lemma TableLine22()
    ensures forall i | 168 <= i < 180 :: Crc8Table[i] == Lookup(i)
  {
    assert Crc8Table[168] == 0x51;
    assert Lookup(168) == 0x51;
    assert Crc8Table[169] == 0x56;
    assert Lookup(169) == 0x56;
    assert Crc8Table[170] == 0x5f;
    assert Lookup(170) == 0x5f;
    assert Crc8Table[171] == 0x58;
    assert Lookup(171) == 0x58;
    assert Crc8Table[172] == 0x4d;
    assert Lookup(172) == 0x4d;
    assert Crc8Table[173] == 0x4a;
    assert Lookup(173) == 0x4a;
    assert Crc8Table[174] == 0x43;
    assert Lookup(174) == 0x43;
    assert Crc8Table[175] == 0x44;
    assert Lookup(175) == 0x44;
    assert Crc8Table[176] == 0x19;
    assert Lookup(176) == 0x19;
    assert Crc8Table[177] == 0x1e;
    assert Lookup(177) == 0x1e;
    assert Crc8Table[178] == 0x17;
    assert Lookup(178) == 0x17;
    assert Crc8Table[179] == 0x10;
    assert Lookup(179) == 0x10;
    forall i | 168 <= i < 180 ensures Crc8Table[i] == Lookup(i) {
      assert i in {168, 169, 170, 171, 172, 173, 174, 175, 176, 177, 178, 179};
    }
  }

  /** Line 23 of the source table. */
  lemma TableLine23()
    ensures forall i | 180 <= i < 192 :: Crc8Table[i] == Lookup(i)
  {
    assert Crc8Table[180] == 0x05;
    assert Lookup(180) == 0x05;
    assert Crc8Table[181] == 0x02;
    assert Lookup(181) == 0x02;
    assert Crc8Table[182] == 0x0b;
    assert Lookup(182) == 0x0b;
    assert Crc8Table[183] == 0x0c;
    assert Lookup(183) == 0x0c;
    assert Crc8Table[184] == 0x21;
    assert Lookup(184) == 0x21;
    assert Crc8Table[185] == 0x26;
    assert Lookup(185) == 0x26;
    assert Crc8Table[186] == 0x2f;
    assert Lookup(186) == 0x2f;
    assert Crc8Table[187] == 0x28;
    assert Lookup(187) == 0x28;
    assert Crc8Table[188] == 0x3d;
    assert Lookup(188) == 0x3d;
    assert Crc8Table[189] == 0x3a;
    assert Lookup(189) == 0x3a;
    assert Crc8Table[190] == 0x33;
    assert Lookup(190) == 0x33;
    assert Crc8Table[191] == 0x34;
    assert Lookup(191) == 0x34;
    forall i | 180 <= i < 192 ensures Crc8Table[i] == Lookup(i) {
      assert i in {180, 181, 182, 183, 184, 185, 186, 187, 188, 189, 190, 191};
    }
  }

  /** Line 24 of the source table. */
  lemma TableLine24()
    ensures forall i | 192 <= i < 204 :: Crc8Table[i] == Lookup(i)
  {
    assert Crc8Table[192] == 0x4e;
    assert Lookup(192) == 0x4e;
    assert Crc8Table[193] == 0x49;
    assert Lookup(193) == 0x49;
    assert Crc8Table[194] == 0x40;
    assert Lookup(194) == 0x40;
    assert Crc8Table[195] == 0x47;
    assert Lookup(195) == 0x47;
    assert Crc8Table[196] == 0x52;
    assert Lookup(196) == 0x52;
    assert Crc8Table[197] == 0x55;
    assert Lookup(197) == 0x55;
    assert Crc8Table[198] == 0x5c;
    assert Lookup(198) == 0x5c;
    assert Crc8Table[199] == 0x5b;
    assert Lookup(199) == 0x5b;
    assert Crc8Table[200] == 0x76;
    assert Lookup(200) == 0x76;
    assert Crc8Table[201] == 0x71;
    assert Lookup(201) == 0x71;
    assert Crc8Table[202] == 0x78;
    assert Lookup(202) == 0x78;
    assert Crc8Table[203] == 0x7f;
    assert Lookup(203) == 0x7f;
    forall i | 192 <= i < 204 ensures Crc8Table[i] == Lookup(i) {
      assert i in {192, 193, 194, 195, 196, 197, 198, 199, 200, 201, 202, 203};
    }
  }

  /** Line 25 of the source table. */
  lemma TableLine25()
    ensures forall i | 204 <= i < 216 :: Crc8Table[i] == Lookup(i)
  {
    assert Crc8Table[204] == 0x6a;
    assert Lookup(204) == 0x6a;
    assert Crc8Table[205] == 0x6d;
    assert Lookup(205) == 0x6d;
    assert Crc8Table[206] == 0x64;
    assert Lookup(206) == 0x64;
    assert Crc8Table[207] == 0x63;
    assert Lookup(207) == 0x63;
    assert Crc8Table[208] == 0x3e;
    assert Lookup(208) == 0x3e;
    assert Crc8Table[209] == 0x39;
    assert Lookup(209) == 0x39;
    assert Crc8Table[210] == 0x30;
    assert Lookup(210) == 0x30;
    assert Crc8Table[211] == 0x37;
    assert Lookup(211) == 0x37;
    assert Crc8Table[212] == 0x22;
    assert Lookup(212) == 0x22;
    assert Crc8Table[213] == 0x25;
    assert Lookup(213) == 0x25;
    assert Crc8Table[214] == 0x2c;
    assert Lookup(214) == 0x2c;
    assert Crc8Table[215] == 0x2b;
    assert Lookup(215) == 0x2b;
    forall i | 204 <= i < 216 ensures Crc8Table[i] == Lookup(i) {
      assert i in {204, 205, 206, 207, 208, 209, 210, 211, 212, 213, 214, 215};
    }
  }

  /** Line 26 of the source table. */
  lemma TableLine26()
    ensures forall i | 216 <= i < 228 :: Crc8Table[i] == Lookup(i)
  {
    assert Crc8Table[216] == 0x06;
    assert Lookup(216) == 0x06;
    assert Crc8Table[217] == 0x01;
    assert Lookup(217) == 0x01;
    assert Crc8Table[218] == 0x08;
    assert Lookup(218) == 0x08;
    assert Crc8Table[219] == 0x0f;
    assert Lookup(219) == 0x0f;
    assert Crc8Table[220] == 0x1a;
    assert Lookup(220) == 0x1a;
    assert Crc8Table[221] == 0x1d;
    assert Lookup(221) == 0x1d;
    assert Crc8Table[222] == 0x14;
    assert Lookup(222) == 0x14;
    assert Crc8Table[223] == 0x13;
    assert Lookup(223) == 0x13;
    assert Crc8Table[224] == 0xae;
    assert Lookup(224) == 0xae;
    assert Crc8Table[225] == 0xa9;
    assert Lookup(225) == 0xa9;
    assert Crc8Table[226] == 0xa0;
    assert Lookup(226) == 0xa0;
    assert Crc8Table[227] == 0xa7;
    assert Lookup(227) == 0xa7;
    forall i | 216 <= i < 228 ensures Crc8Table[i] == Lookup(i) {
      assert i in {216, 217, 218, 219, 220, 221, 222, 223, 224, 225, 226, 227};
    }
  }

  /** Line 27 of the source table. */
  lemma TableLine27()
    ensures forall i | 228 <= i < 240 :: Crc8Table[i] == Lookup(i)
  {
    assert Crc8Table[228] == 0xb2;
    assert Lookup(228) == 0xb2;
    assert Crc8Table[229] == 0xb5;
    assert Lookup(229) == 0xb5;
    assert Crc8Table[230] == 0xbc;
    assert Lookup(230) == 0xbc;
    assert Crc8Table[231] == 0xbb;
    assert Lookup(231) == 0xbb;
    assert Crc8Table[232] == 0x96;
    assert Lookup(232) == 0x96;
    assert Crc8Table[233] == 0x91;
    assert Lookup(233) == 0x91;
    assert Crc8Table[234] == 0x98;
    assert Lookup(234) == 0x98;
    assert Crc8Table[235] == 0x9f;
    assert Lookup(235) == 0x9f;
    assert Crc8Table[236] == 0x8a;
    assert Lookup(236) == 0x8a;
    assert Crc8Table[237] == 0x8d;
    assert Lookup(237) == 0x8d;
    assert Crc8Table[238] == 0x84;
    assert Lookup(238) == 0x84;
    assert Crc8Table[239] == 0x83;
    assert Lookup(239) == 0x83;
    forall i | 228 <= i < 240 ensures Crc8Table[i] == Lookup(i) {
      assert i in {228, 229, 230, 231, 232, 233, 234, 235, 236, 237, 238, 239};
    }
  }

  /** Line 28 of the source table. */
  lemma TableLine28()
    ensures forall i | 240 <= i < 252 :: Crc8Table[i] == Lookup(i)
  {
    assert Crc8Table[240] == 0xde;
    assert Lookup(240) == 0xde;
    assert Crc8Table[241] == 0xd9;
    assert Lookup(241) == 0xd9;
    assert Crc8Table[242] == 0xd0;
    assert Lookup(242) == 0xd0;
    assert Crc8Table[243] == 0xd7;
    assert Lookup(243) == 0xd7;
    assert Crc8Table[244] == 0xc2;
    assert Lookup(244) == 0xc2;
    assert Crc8Table[245] == 0xc5;
    assert Lookup(245) == 0xc5;
    assert Crc8Table[246] == 0xcc;
    assert Lookup(246) == 0xcc;
    assert Crc8Table[247] == 0xcb;
    assert Lookup(247) == 0xcb;
    assert Crc8Table[248] == 0xe6;
    assert Lookup(248) == 0xe6;
    assert Crc8Table[249] == 0xe1;
    assert Lookup(249) == 0xe1;
    assert Crc8Table[250] == 0xe8;
    assert Lookup(250) == 0xe8;
    assert Crc8Table[251] == 0xef;
    assert Lookup(251) == 0xef;
    forall i | 240 <= i < 252 ensures Crc8Table[i] == Lookup(i) {
      assert i in {240, 241, 242, 243, 244, 245, 246, 247, 248, 249, 250, 251};
    }
  }

  /** Line 29 of the source table. */
  lemma TableLine29()
    ensures forall i | 252 <= i < 256 :: Crc8Table[i] == Lookup(i)
  {
    assert Crc8Table[252] == 0xfa;
    assert Lookup(252) == 0xfa;
    assert Crc8Table[253] == 0xfd;
    assert Lookup(253) == 0xfd;
    assert Crc8Table[254] == 0xf4;
    assert Lookup(254) == 0xf4;
    assert Crc8Table[255] == 0xf3;
    assert Lookup(255) == 0xf3;
    forall i | 252 <= i < 256 ensures Crc8Table[i] == Lookup(i) {
      assert i in {252, 253, 254, 255};
    }
  }

  /** The search form agrees with the table entry for entry. */
  lemma LookupIsTable()
    ensures forall i | 0 <= i < 256 :: Crc8Table[i] == Lookup(i)
  {
    TableLine8(); TableLine9(); TableLine10(); TableLine11(); TableLine12(); TableLine13();
    TableLine14(); TableLine15(); TableLine16(); TableLine17(); TableLine18(); TableLine19();
    TableLine20(); TableLine21(); TableLine22(); TableLine23(); TableLine24(); TableLine25();
    TableLine26(); TableLine27(); TableLine28(); TableLine29();
  }

  /** Python's `(x + 256) % 256` (ImageUtils.py:131): the unsigned byte a stored value stands
      for. Python's `%` floors and Dafny's is Euclidean; for the divisor 256 they agree. */
  function ToUnsigned(x: int): (b: Byte)
    ensures (x - b) % 256 == 0
    ensures 0 <= x < 256 ==> b == x
  {
    (x + 256) % 256
  }

  /** The signed reading of the final accumulator (ImageUtils.py:136). */
  function ToSigned(b: Byte): (s: int)
    ensures -128 <= s < 128
    ensures ToUnsigned(s) == b
  {
    if b < 0x80 then b else b - 0x100
  }

  /** `a ^ b` on two bytes. */
  function Xor(a: Byte, b: Byte): Byte
  {
    XorBits(a, b) as int
  }

  /** The same exclusive or, as an 8-bit vector. */
  function XorBits(a: Byte, b: Byte): bv8
  {
    (a as bv8) ^ (b as bv8)
  }

  /** The accumulator of the table loop after consuming `data`, starting from `acc`
      (ImageUtils.py:133-135): each byte replaces `crc` by `CRC8_TABLE[crc ^ byte]`, read through `Lookup`. */
  function Fold(acc: Byte, data: seq<int>): Byte
    decreases |data|
  {
    if data == [] then acc
    else Lookup(Xor(Fold(acc, data[..|data| - 1]), ToUnsigned(data[|data| - 1])))
  }

  /** `crc8(data)` (ImageUtils.py:129-136). */
  function Crc8(data: seq<int>): (c: int)
    ensures -128 <= c < 128
    ensures ToUnsigned(c) == Fold(0, data)
    ensures data == [] ==> c == 0
  {
    ToSigned(Fold(0, data))
  }

  /** The raw state is a left fold: feeding `a + b` is feeding `b` after `a`. */
  lemma {:induction false} FoldAppend(acc: Byte, a: seq<int>, b: seq<int>)
    ensures Fold(acc, a + b) == Fold(Fold(acc, a), b)
    decreases |b|
  {
    if b == [] {
      assert a + b == a;
    } else {
      var b' := b[..|b| - 1];
      assert (a + b)[..|a + b| - 1] == a + b';
      assert (a + b)[|a + b| - 1] == b[|b| - 1];
      FoldAppend(acc, a, b');
    }
  }

  /** The loop reads each input only modulo 256. */
  lemma {:induction false} FoldModulo(acc: Byte, a: seq<int>, b: seq<int>)
    requires |a| == |b|
    requires forall i | 0 <= i < |a| :: a[i] % 256 == b[i] % 256
    ensures Fold(acc, a) == Fold(acc, b)
    decreases |a|
  {
    if a != [] {
      var n := |a| - 1;
      assert ToUnsigned(a[n]) == ToUnsigned(b[n]);
      FoldModulo(acc, a[..n], b[..n]);
    }
  }

  /** Two lists that agree modulo 256 have the same checksum. */
  lemma Crc8Modulo(a: seq<int>, b: seq<int>)
    requires |a| == |b|
    requires forall i | 0 <= i < |a| :: a[i] % 256 == b[i] % 256
    ensures Crc8(a) == Crc8(b)
  {
    FoldModulo(0, a, b);
  }

  /** Running the loop over a payload followed by its checksum ends in 0, which is how a
      receiver checks a frame. */
  lemma Crc8Residue(data: seq<int>)
    ensures Fold(0, data + [Crc8(data)]) == 0
  {
    var d := data + [Crc8(data)];
    assert d[..|d| - 1] == data;
    assert Xor(Fold(0, data), Fold(0, data)) == 0;
  }

  // ---------------------------------------------------------------------------------
  // The checksums stored in the fixed command blocks.

  lemma Checksum53()
    ensures Crc8([53]) == -117
  {
    assert [53][..0] == [];
  }

  lemma Checksum0()
    ensures Crc8([0]) == 0
  {
    assert [0][..0] == [];
  }

  lemma Checksum1()
    ensures Crc8([1]) == 7
  {
    assert [1][..0] == [];
  }

  lemma Checksum25()
    ensures Crc8([25]) == 79
  {
    assert [25][..0] == [];
  }

  lemma Checksum10()
    ensures Crc8([10]) == 54
  {
    assert [10][..0] == [];
  }

  lemma ChecksumPair1()
    ensures Crc8([-120, 19]) == 103
  {
    assert [-120, 19][..1] == [-120];
    assert [-120][..0] == [];
    assert Fold(0, [-120]) == 0xb1;
  }

  lemma ChecksumPair2()
    ensures Crc8([48, 0]) == -7
  {
    assert [48, 0][..1] == [48];
    assert [48][..0] == [];
    assert Fold(0, [48]) == 0x90;
  }

  // ---------------------------------------------------------------------------------
  // The table is the CRC-8/0x07 table.

  /** One step of the bit-at-a-time CRC: shift left and, when the bit shifted out was set,
      fold in the polynomial's low byte 0x07. */
  function PolyStep(c: bv8): bv8
  {
    if c < 0x80 then c << 1 else (c << 1) ^ 0x07
  }

  /** The bit-at-a-time CRC-8/0x07 of the single byte `b`: eight steps. */
  function BitwiseByte(b: bv8): bv8
  {
    PolyStep(PolyStep(PolyStep(PolyStep(PolyStep(PolyStep(PolyStep(PolyStep(b))))))))
  }

  /** The entries 0 to 7 are the bitwise CRCs of their indices. */
  lemma Poly07Entries0()
    ensures forall b: bv8 | 0 <= b < 8 :: Lookup(b as int) == BitwiseByte(b) as int
  {
    assert Lookup(0) == 0x00 && BitwiseByte(0) == 0x00;
    assert Lookup(1) == 0x07 && BitwiseByte(1) == 0x07;
    assert Lookup(2) == 0x0e && BitwiseByte(2) == 0x0e;
    assert Lookup(3) == 0x09 && BitwiseByte(3) == 0x09;
    assert Lookup(4) == 0x1c && BitwiseByte(4) == 0x1c;
    assert Lookup(5) == 0x1b && BitwiseByte(5) == 0x1b;
    assert Lookup(6) == 0x12 && BitwiseByte(6) == 0x12;
    assert Lookup(7) == 0x15 && BitwiseByte(7) == 0x15;
    forall b: bv8 | 0 <= b < 8 ensures Lookup(b as int) == BitwiseByte(b) as int {
      assert b in {0, 1, 2, 3, 4, 5, 6, 7};
    }
  }

  /** The entries 8 to 15 are the bitwise CRCs of their indices. */
  lemma Poly07Entries8()
    ensures forall b: bv8 | 8 <= b < 16 :: Lookup(b as int) == BitwiseByte(b) as int
  {
    assert Lookup(8) == 0x38 && BitwiseByte(8) == 0x38;
    assert Lookup(9) == 0x3f && BitwiseByte(9) == 0x3f;
    assert Lookup(10) == 0x36 && BitwiseByte(10) == 0x36;
    assert Lookup(11) == 0x31 && BitwiseByte(11) == 0x31;
    assert Lookup(12) == 0x24 && BitwiseByte(12) == 0x24;
    assert Lookup(13) == 0x23 && BitwiseByte(13) == 0x23;
    assert Lookup(14) == 0x2a && BitwiseByte(14) == 0x2a;
    assert Lookup(15) == 0x2d && BitwiseByte(15) == 0x2d;
    forall b: bv8 | 8 <= b < 16 ensures Lookup(b as int) == BitwiseByte(b) as int {
      assert b in {8, 9, 10, 11, 12, 13, 14, 15};
    }
  }

  /** The entries 16 to 23 are the bitwise CRCs of their indices. */
  lemma Poly07Entries16()
    ensures forall b: bv8 | 16 <= b < 24 :: Lookup(b as int) == BitwiseByte(b) as int
  {
    assert Lookup(16) == 0x70 && BitwiseByte(16) == 0x70;
    assert Lookup(17) == 0x77 && BitwiseByte(17) == 0x77;
    assert Lookup(18) == 0x7e && BitwiseByte(18) == 0x7e;
    assert Lookup(19) == 0x79 && BitwiseByte(19) == 0x79;
    assert Lookup(20) == 0x6c && BitwiseByte(20) == 0x6c;
    assert Lookup(21) == 0x6b && BitwiseByte(21) == 0x6b;
    assert Lookup(22) == 0x62 && BitwiseByte(22) == 0x62;
    assert Lookup(23) == 0x65 && BitwiseByte(23) == 0x65;
    forall b: bv8 | 16 <= b < 24 ensures Lookup(b as int) == BitwiseByte(b) as int {
      assert b in {16, 17, 18, 19, 20, 21, 22, 23};
    }
  }

  /** The entries 24 to 31 are the bitwise CRCs of their indices. */
  lemma Poly07Entries24()
    ensures forall b: bv8 | 24 <= b < 32 :: Lookup(b as int) == BitwiseByte(b) as int
  {
    assert Lookup(24) == 0x48 && BitwiseByte(24) == 0x48;
    assert Lookup(25) == 0x4f && BitwiseByte(25) == 0x4f;
    assert Lookup(26) == 0x46 && BitwiseByte(26) == 0x46;
    assert Lookup(27) == 0x41 && BitwiseByte(27) == 0x41;
    assert Lookup(28) == 0x54 && BitwiseByte(28) == 0x54;
    assert Lookup(29) == 0x53 && BitwiseByte(29) == 0x53;
    assert Lookup(30) == 0x5a && BitwiseByte(30) == 0x5a;
    assert Lookup(31) == 0x5d && BitwiseByte(31) == 0x5d;
    forall b: bv8 | 24 <= b < 32 ensures Lookup(b as int) == BitwiseByte(b) as int {
      assert b in {24, 25, 26, 27, 28, 29, 30, 31};
    }
  }

  /** The entries 32 to 39 are the bitwise CRCs of their indices. */
  lemma Poly07Entries32()
    ensures forall b: bv8 | 32 <= b < 40 :: Lookup(b as int) == BitwiseByte(b) as int
  {
    assert Lookup(32) == 0xe0 && BitwiseByte(32) == 0xe0;
    assert Lookup(33) == 0xe7 && BitwiseByte(33) == 0xe7;
    assert Lookup(34) == 0xee && BitwiseByte(34) == 0xee;
    assert Lookup(35) == 0xe9 && BitwiseByte(35) == 0xe9;
    assert Lookup(36) == 0xfc && BitwiseByte(36) == 0xfc;
    assert Lookup(37) == 0xfb && BitwiseByte(37) == 0xfb;
    assert Lookup(38) == 0xf2 && BitwiseByte(38) == 0xf2;
    assert Lookup(39) == 0xf5 && BitwiseByte(39) == 0xf5;
    forall b: bv8 | 32 <= b < 40 ensures Lookup(b as int) == BitwiseByte(b) as int {
      assert b in {32, 33, 34, 35, 36, 37, 38, 39};
    }
  }

  /** The entries 40 to 47 are the bitwise CRCs of their indices. */
  lemma Poly07Entries40()
    ensures forall b: bv8 | 40 <= b < 48 :: Lookup(b as int) == BitwiseByte(b) as int
  {
    assert Lookup(40) == 0xd8 && BitwiseByte(40) == 0xd8;
    assert Lookup(41) == 0xdf && BitwiseByte(41) == 0xdf;
    assert Lookup(42) == 0xd6 && BitwiseByte(42) == 0xd6;
    assert Lookup(43) == 0xd1 && BitwiseByte(43) == 0xd1;
    assert Lookup(44) == 0xc4 && BitwiseByte(44) == 0xc4;
    assert Lookup(45) == 0xc3 && BitwiseByte(45) == 0xc3;
    assert Lookup(46) == 0xca && BitwiseByte(46) == 0xca;
    assert Lookup(47) == 0xcd && BitwiseByte(47) == 0xcd;
    forall b: bv8 | 40 <= b < 48 ensures Lookup(b as int) == BitwiseByte(b) as int {
      assert b in {40, 41, 42, 43, 44, 45, 46, 47};
    }
  }

  /** The entries 48 to 55 are the bitwise CRCs of their indices. */
  lemma Poly07Entries48()
    ensures forall b: bv8 | 48 <= b < 56 :: Lookup(b as int) == BitwiseByte(b) as int
  {
    assert Lookup(48) == 0x90 && BitwiseByte(48) == 0x90;
    assert Lookup(49) == 0x97 && BitwiseByte(49) == 0x97;
    assert Lookup(50) == 0x9e && BitwiseByte(50) == 0x9e;
    assert Lookup(51) == 0x99 && BitwiseByte(51) == 0x99;
    assert Lookup(52) == 0x8c && BitwiseByte(52) == 0x8c;
    assert Lookup(53) == 0x8b && BitwiseByte(53) == 0x8b;
    assert Lookup(54) == 0x82 && BitwiseByte(54) == 0x82;
    assert Lookup(55) == 0x85 && BitwiseByte(55) == 0x85;
    forall b: bv8 | 48 <= b < 56 ensures Lookup(b as int) == BitwiseByte(b) as int {
      assert b in {48, 49, 50, 51, 52, 53, 54, 55};
    }
  }

  /** The entries 56 to 63 are the bitwise CRCs of their indices. */
  lemma Poly07Entries56()
    ensures forall b: bv8 | 56 <= b < 64 :: Lookup(b as int) == BitwiseByte(b) as int
  {
    assert Lookup(56) == 0xa8 && BitwiseByte(56) == 0xa8;
    assert Lookup(57) == 0xaf && BitwiseByte(57) == 0xaf;
    assert Lookup(58) == 0xa6 && BitwiseByte(58) == 0xa6;
    assert Lookup(59) == 0xa1 && BitwiseByte(59) == 0xa1;
    assert Lookup(60) == 0xb4 && BitwiseByte(60) == 0xb4;
    assert Lookup(61) == 0xb3 && BitwiseByte(61) == 0xb3;
    assert Lookup(62) == 0xba && BitwiseByte(62) == 0xba;
    assert Lookup(63) == 0xbd && BitwiseByte(63) == 0xbd;
    forall b: bv8 | 56 <= b < 64 ensures Lookup(b as int) == BitwiseByte(b) as int {
      assert b in {56, 57, 58, 59, 60, 61, 62, 63};
    }
  }

  /** The entries 64 to 71 are the bitwise CRCs of their indices. */
  lemma Poly07Entries64()
    ensures forall b: bv8 | 64 <= b < 72 :: Lookup(b as int) == BitwiseByte(b) as int
  {
    assert Lookup(64) == 0xc7 && BitwiseByte(64) == 0xc7;
    assert Lookup(65) == 0xc0 && BitwiseByte(65) == 0xc0;
    assert Lookup(66) == 0xc9 && BitwiseByte(66) == 0xc9;
    assert Lookup(67) == 0xce && BitwiseByte(67) == 0xce;
    assert Lookup(68) == 0xdb && BitwiseByte(68) == 0xdb;
    assert Lookup(69) == 0xdc && BitwiseByte(69) == 0xdc;
    assert Lookup(70) == 0xd5 && BitwiseByte(70) == 0xd5;
    assert Lookup(71) == 0xd2 && BitwiseByte(71) == 0xd2;
    forall b: bv8 | 64 <= b < 72 ensures Lookup(b as int) == BitwiseByte(b) as int {
      assert b in {64, 65, 66, 67, 68, 69, 70, 71};
    }
  }

  /** The entries 72 to 79 are the bitwise CRCs of their indices. */
  lemma Poly07Entries72()
    ensures forall b: bv8 | 72 <= b < 80 :: Lookup(b as int) == BitwiseByte(b) as int
  {
    assert Lookup(72) == 0xff && BitwiseByte(72) == 0xff;
    assert Lookup(73) == 0xf8 && BitwiseByte(73) == 0xf8;
    assert Lookup(74) == 0xf1 && BitwiseByte(74) == 0xf1;
    assert Lookup(75) == 0xf6 && BitwiseByte(75) == 0xf6;
    assert Lookup(76) == 0xe3 && BitwiseByte(76) == 0xe3;
    assert Lookup(77) == 0xe4 && BitwiseByte(77) == 0xe4;
    assert Lookup(78) == 0xed && BitwiseByte(78) == 0xed;
    assert Lookup(79) == 0xea && BitwiseByte(79) == 0xea;
    forall b: bv8 | 72 <= b < 80 ensures Lookup(b as int) == BitwiseByte(b) as int {
      assert b in {72, 73, 74, 75, 76, 77, 78, 79};
    }
  }

  /** The entries 80 to 87 are the bitwise CRCs of their indices. */
  lemma Poly07Entries80()
    ensures forall b: bv8 | 80 <= b < 88 :: Lookup(b as int) == BitwiseByte(b) as int
  {
    assert Lookup(80) == 0xb7 && BitwiseByte(80) == 0xb7;
    assert Lookup(81) == 0xb0 && BitwiseByte(81) == 0xb0;
    assert Lookup(82) == 0xb9 && BitwiseByte(82) == 0xb9;
    assert Lookup(83) == 0xbe && BitwiseByte(83) == 0xbe;
    assert Lookup(84) == 0xab && BitwiseByte(84) == 0xab;
    assert Lookup(85) == 0xac && BitwiseByte(85) == 0xac;
    assert Lookup(86) == 0xa5 && BitwiseByte(86) == 0xa5;
    assert Lookup(87) == 0xa2 && BitwiseByte(87) == 0xa2;
    forall b: bv8 | 80 <= b < 88 ensures Lookup(b as int) == BitwiseByte(b) as int {
      assert b in {80, 81, 82, 83, 84, 85, 86, 87};
    }
  }

  /** The entries 88 to 95 are the bitwise CRCs of their indices. */
  lemma Poly07Entries88()
    ensures forall b: bv8 | 88 <= b < 96 :: Lookup(b as int) == BitwiseByte(b) as int
  {
    assert Lookup(88) == 0x8f && BitwiseByte(88) == 0x8f;
    assert Lookup(89) == 0x88 && BitwiseByte(89) == 0x88;
    assert Lookup(90) == 0x81 && BitwiseByte(90) == 0x81;
    assert Lookup(91) == 0x86 && BitwiseByte(91) == 0x86;
    assert Lookup(92) == 0x93 && BitwiseByte(92) == 0x93;
    assert Lookup(93) == 0x94 && BitwiseByte(93) == 0x94;
    assert Lookup(94) == 0x9d && BitwiseByte(94) == 0x9d;
    assert Lookup(95) == 0x9a && BitwiseByte(95) == 0x9a;
    forall b: bv8 | 88 <= b < 96 ensures Lookup(b as int) == BitwiseByte(b) as int {
      assert b in {88, 89, 90, 91, 92, 93, 94, 95};
    }
  }

  /** The entries 96 to 103 are the bitwise CRCs of their indices. */
  lemma Poly07Entries96()
    ensures forall b: bv8 | 96 <= b < 104 :: Lookup(b as int) == BitwiseByte(b) as int
  {
    assert Lookup(96) == 0x27 && BitwiseByte(96) == 0x27;
    assert Lookup(97) == 0x20 && BitwiseByte(97) == 0x20;
    assert Lookup(98) == 0x29 && BitwiseByte(98) == 0x29;
    assert Lookup(99) == 0x2e && BitwiseByte(99) == 0x2e;
    assert Lookup(100) == 0x3b && BitwiseByte(100) == 0x3b;
    assert Lookup(101) == 0x3c && BitwiseByte(101) == 0x3c;
    assert Lookup(102) == 0x35 && BitwiseByte(102) == 0x35;
    assert Lookup(103) == 0x32 && BitwiseByte(103) == 0x32;
    forall b: bv8 | 96 <= b < 104 ensures Lookup(b as int) == BitwiseByte(b) as int {
      assert b in {96, 97, 98, 99, 100, 101, 102, 103};
    }
  }

  /** The entries 104 to 111 are the bitwise CRCs of their indices. */
  lemma Poly07Entries104()
    ensures forall b: bv8 | 104 <= b < 112 :: Lookup(b as int) == BitwiseByte(b) as int
  {
    assert Lookup(104) == 0x1f && BitwiseByte(104) == 0x1f;
    assert Lookup(105) == 0x18 && BitwiseByte(105) == 0x18;
    assert Lookup(106) == 0x11 && BitwiseByte(106) == 0x11;
    assert Lookup(107) == 0x16 && BitwiseByte(107) == 0x16;
    assert Lookup(108) == 0x03 && BitwiseByte(108) == 0x03;
    assert Lookup(109) == 0x04 && BitwiseByte(109) == 0x04;
    assert Lookup(110) == 0x0d && BitwiseByte(110) == 0x0d;
    assert Lookup(111) == 0x0a && BitwiseByte(111) == 0x0a;
    forall b: bv8 | 104 <= b < 112 ensures Lookup(b as int) == BitwiseByte(b) as int {
      assert b in {104, 105, 106, 107, 108, 109, 110, 111};
    }
  }

  /** The entries 112 to 119 are the bitwise CRCs of their indices. */
  lemma Poly07Entries112()
    ensures forall b: bv8 | 112 <= b < 120 :: Lookup(b as int) == BitwiseByte(b) as int
  {
    assert Lookup(112) == 0x57 && BitwiseByte(112) == 0x57;
    assert Lookup(113) == 0x50 && BitwiseByte(113) == 0x50;
    assert Lookup(114) == 0x59 && BitwiseByte(114) == 0x59;
    assert Lookup(115) == 0x5e && BitwiseByte(115) == 0x5e;
    assert Lookup(116) == 0x4b && BitwiseByte(116) == 0x4b;
    assert Lookup(117) == 0x4c && BitwiseByte(117) == 0x4c;
    assert Lookup(118) == 0x45 && BitwiseByte(118) == 0x45;
    assert Lookup(119) == 0x42 && BitwiseByte(119) == 0x42;
    forall b: bv8 | 112 <= b < 120 ensures Lookup(b as int) == BitwiseByte(b) as int {
      assert b in {112, 113, 114, 115, 116, 117, 118, 119};
    }
  }

  /** The entries 120 to 127 are the bitwise CRCs of their indices. */
  lemma Poly07Entries120()
    ensures forall b: bv8 | 120 <= b < 128 :: Lookup(b as int) == BitwiseByte(b) as int
  {
    assert Lookup(120) == 0x6f && BitwiseByte(120) == 0x6f;
    assert Lookup(121) == 0x68 && BitwiseByte(121) == 0x68;
    assert Lookup(122) == 0x61 && BitwiseByte(122) == 0x61;
    assert Lookup(123) == 0x66 && BitwiseByte(123) == 0x66;
    assert Lookup(124) == 0x73 && BitwiseByte(124) == 0x73;
    assert Lookup(125) == 0x74 && BitwiseByte(125) == 0x74;
    assert Lookup(126) == 0x7d && BitwiseByte(126) == 0x7d;
    assert Lookup(127) == 0x7a && BitwiseByte(127) == 0x7a;
    forall b: bv8 | 120 <= b < 128 ensures Lookup(b as int) == BitwiseByte(b) as int {
      assert b in {120, 121, 122, 123, 124, 125, 126, 127};
    }
  }

  /** The entries 128 to 135 are the bitwise CRCs of their indices. */
  lemma Poly07Entries128()
    ensures forall b: bv8 | 128 <= b < 136 :: Lookup(b as int) == BitwiseByte(b) as int
  {
    assert Lookup(128) == 0x89 && BitwiseByte(128) == 0x89;
    assert Lookup(129) == 0x8e && BitwiseByte(129) == 0x8e;
    assert Lookup(130) == 0x87 && BitwiseByte(130) == 0x87;
    assert Lookup(131) == 0x80 && BitwiseByte(131) == 0x80;
    assert Lookup(132) == 0x95 && BitwiseByte(132) == 0x95;
    assert Lookup(133) == 0x92 && BitwiseByte(133) == 0x92;
    assert Lookup(134) == 0x9b && BitwiseByte(134) == 0x9b;
    assert Lookup(135) == 0x9c && BitwiseByte(135) == 0x9c;
    forall b: bv8 | 128 <= b < 136 ensures Lookup(b as int) == BitwiseByte(b) as int {
      assert b in {128, 129, 130, 131, 132, 133, 134, 135};
    }
  }

  /** The entries 136 to 143 are the bitwise CRCs of their indices. */
  lemma Poly07Entries136()
    ensures forall b: bv8 | 136 <= b < 144 :: Lookup(b as int) == BitwiseByte(b) as int
  {
    assert Lookup(136) == 0xb1 && BitwiseByte(136) == 0xb1;
    assert Lookup(137) == 0xb6 && BitwiseByte(137) == 0xb6;
    assert Lookup(138) == 0xbf && BitwiseByte(138) == 0xbf;
    assert Lookup(139) == 0xb8 && BitwiseByte(139) == 0xb8;
    assert Lookup(140) == 0xad && BitwiseByte(140) == 0xad;
    assert Lookup(141) == 0xaa && BitwiseByte(141) == 0xaa;
    assert Lookup(142) == 0xa3 && BitwiseByte(142) == 0xa3;
    assert Lookup(143) == 0xa4 && BitwiseByte(143) == 0xa4;
    forall b: bv8 | 136 <= b < 144 ensures Lookup(b as int) == BitwiseByte(b) as int {
      assert b in {136, 137, 138, 139, 140, 141, 142, 143};
    }
  }

  /** The entries 144 to 151 are the bitwise CRCs of their indices. */
  lemma Poly07Entries144()
    ensures forall b: bv8 | 144 <= b < 152 :: Lookup(b as int) == BitwiseByte(b) as int
  {
    assert Lookup(144) == 0xf9 && BitwiseByte(144) == 0xf9;
    assert Lookup(145) == 0xfe && BitwiseByte(145) == 0xfe;
    assert Lookup(146) == 0xf7 && BitwiseByte(146) == 0xf7;
    assert Lookup(147) == 0xf0 && BitwiseByte(147) == 0xf0;
    assert Lookup(148) == 0xe5 && BitwiseByte(148) == 0xe5;
    assert Lookup(149) == 0xe2 && BitwiseByte(149) == 0xe2;
    assert Lookup(150) == 0xeb && BitwiseByte(150) == 0xeb;
    assert Lookup(151) == 0xec && BitwiseByte(151) == 0xec;
    forall b: bv8 | 144 <= b < 152 ensures Lookup(b as int) == BitwiseByte(b) as int {
      assert b in {144, 145, 146, 147, 148, 149, 150, 151};
    }
  }

  /** The entries 152 to 159 are the bitwise CRCs of their indices. */
  lemma Poly07Entries152()
    ensures forall b: bv8 | 152 <= b < 160 :: Lookup(b as int) == BitwiseByte(b) as int
  {
    assert Lookup(152) == 0xc1 && BitwiseByte(152) == 0xc1;
    assert Lookup(153) == 0xc6 && BitwiseByte(153) == 0xc6;
    assert Lookup(154) == 0xcf && BitwiseByte(154) == 0xcf;
    assert Lookup(155) == 0xc8 && BitwiseByte(155) == 0xc8;
    assert Lookup(156) == 0xdd && BitwiseByte(156) == 0xdd;
    assert Lookup(157) == 0xda && BitwiseByte(157) == 0xda;
    assert Lookup(158) == 0xd3 && BitwiseByte(158) == 0xd3;
    assert Lookup(159) == 0xd4 && BitwiseByte(159) == 0xd4;
    forall b: bv8 | 152 <= b < 160 ensures Lookup(b as int) == BitwiseByte(b) as int {
      assert b in {152, 153, 154, 155, 156, 157, 158, 159};
    }
  }

  /** The entries 160 to 167 are the bitwise CRCs of their indices. */
  lemma Poly07Entries160()
    ensures forall b: bv8 | 160 <= b < 168 :: Lookup(b as int) == BitwiseByte(b) as int
  {
    assert Lookup(160) == 0x69 && BitwiseByte(160) == 0x69;
    assert Lookup(161) == 0x6e && BitwiseByte(161) == 0x6e;
    assert Lookup(162) == 0x67 && BitwiseByte(162) == 0x67;
    assert Lookup(163) == 0x60 && BitwiseByte(163) == 0x60;
    assert Lookup(164) == 0x75 && BitwiseByte(164) == 0x75;
    assert Lookup(165) == 0x72 && BitwiseByte(165) == 0x72;
    assert Lookup(166) == 0x7b && BitwiseByte(166) == 0x7b;
    assert Lookup(167) == 0x7c && BitwiseByte(167) == 0x7c;
    forall b: bv8 | 160 <= b < 168 ensures Lookup(b as int) == BitwiseByte(b) as int {
      assert b in {160, 161, 162, 163, 164, 165, 166, 167};
    }
  }

  /** The entries 168 to 175 are the bitwise CRCs of their indices. */
  lemma Poly07Entries168()
    ensures forall b: bv8 | 168 <= b < 176 :: Lookup(b as int) == BitwiseByte(b) as int
  {
    assert Lookup(168) == 0x51 && BitwiseByte(168) == 0x51;
    assert Lookup(169) == 0x56 && BitwiseByte(169) == 0x56;
    assert Lookup(170) == 0x5f && BitwiseByte(170) == 0x5f;
    assert Lookup(171) == 0x58 && BitwiseByte(171) == 0x58;
    assert Lookup(172) == 0x4d && BitwiseByte(172) == 0x4d;
    assert Lookup(173) == 0x4a && BitwiseByte(173) == 0x4a;
    assert Lookup(174) == 0x43 && BitwiseByte(174) == 0x43;
    assert Lookup(175) == 0x44 && BitwiseByte(175) == 0x44;
    forall b: bv8 | 168 <= b < 176 ensures Lookup(b as int) == BitwiseByte(b) as int {
      assert b in {168, 169, 170, 171, 172, 173, 174, 175};
    }
  }

  /** The entries 176 to 183 are the bitwise CRCs of their indices. */
  lemma Poly07Entries176()
    ensures forall b: bv8 | 176 <= b < 184 :: Lookup(b as int) == BitwiseByte(b) as int
  {
    assert Lookup(176) == 0x19 && BitwiseByte(176) == 0x19;
    assert Lookup(177) == 0x1e && BitwiseByte(177) == 0x1e;
    assert Lookup(178) == 0x17 && BitwiseByte(178) == 0x17;
    assert Lookup(179) == 0x10 && BitwiseByte(179) == 0x10;
    assert Lookup(180) == 0x05 && BitwiseByte(180) == 0x05;
    assert Lookup(181) == 0x02 && BitwiseByte(181) == 0x02;
    assert Lookup(182) == 0x0b && BitwiseByte(182) == 0x0b;
    assert Lookup(183) == 0x0c && BitwiseByte(183) == 0x0c;
    forall b: bv8 | 176 <= b < 184 ensures Lookup(b as int) == BitwiseByte(b) as int {
      assert b in {176, 177, 178, 179, 180, 181, 182, 183};
    }
  }

  /** The entries 184 to 191 are the bitwise CRCs of their indices. */
  lemma Poly07Entries184()
    ensures forall b: bv8 | 184 <= b < 192 :: Lookup(b as int) == BitwiseByte(b) as int
  {
    assert Lookup(184) == 0x21 && BitwiseByte(184) == 0x21;
    assert Lookup(185) == 0x26 && BitwiseByte(185) == 0x26;
    assert Lookup(186) == 0x2f && BitwiseByte(186) == 0x2f;
    assert Lookup(187) == 0x28 && BitwiseByte(187) == 0x28;
    assert Lookup(188) == 0x3d && BitwiseByte(188) == 0x3d;
    assert Lookup(189) == 0x3a && BitwiseByte(189) == 0x3a;
    assert Lookup(190) == 0x33 && BitwiseByte(190) == 0x33;
    assert Lookup(191) == 0x34 && BitwiseByte(191) == 0x34;
    forall b: bv8 | 184 <= b < 192 ensures Lookup(b as int) == BitwiseByte(b) as int {
      assert b in {184, 185, 186, 187, 188, 189, 190, 191};
    }
  }

  /** The entries 192 to 199 are the bitwise CRCs of their indices. */
  lemma Poly07Entries192()
    ensures forall b: bv8 | 192 <= b < 200 :: Lookup(b as int) == BitwiseByte(b) as int
  {
    assert Lookup(192) == 0x4e && BitwiseByte(192) == 0x4e;
    assert Lookup(193) == 0x49 && BitwiseByte(193) == 0x49;
    assert Lookup(194) == 0x40 && BitwiseByte(194) == 0x40;
    assert Lookup(195) == 0x47 && BitwiseByte(195) == 0x47;
    assert Lookup(196) == 0x52 && BitwiseByte(196) == 0x52;
    assert Lookup(197) == 0x55 && BitwiseByte(197) == 0x55;
    assert Lookup(198) == 0x5c && BitwiseByte(198) == 0x5c;
    assert Lookup(199) == 0x5b && BitwiseByte(199) == 0x5b;
    forall b: bv8 | 192 <= b < 200 ensures Lookup(b as int) == BitwiseByte(b) as int {
      assert b in {192, 193, 194, 195, 196, 197, 198, 199};
    }
  }

  /** The entries 200 to 207 are the bitwise CRCs of their indices. */
  lemma Poly07Entries200()
    ensures forall b: bv8 | 200 <= b < 208 :: Lookup(b as int) == BitwiseByte(b) as int
  {
    assert Lookup(200) == 0x76 && BitwiseByte(200) == 0x76;
    assert Lookup(201) == 0x71 && BitwiseByte(201) == 0x71;
    assert Lookup(202) == 0x78 && BitwiseByte(202) == 0x78;
    assert Lookup(203) == 0x7f && BitwiseByte(203) == 0x7f;
    assert Lookup(204) == 0x6a && BitwiseByte(204) == 0x6a;
    assert Lookup(205) == 0x6d && BitwiseByte(205) == 0x6d;
    assert Lookup(206) == 0x64 && BitwiseByte(206) == 0x64;
    assert Lookup(207) == 0x63 && BitwiseByte(207) == 0x63;
    forall b: bv8 | 200 <= b < 208 ensures Lookup(b as int) == BitwiseByte(b) as int {
      assert b in {200, 201, 202, 203, 204, 205, 206, 207};
    }
  }

  /** The entries 208 to 215 are the bitwise CRCs of their indices. */
  lemma Poly07Entries208()
    ensures forall b: bv8 | 208 <= b < 216 :: Lookup(b as int) == BitwiseByte(b) as int
  {
    assert Lookup(208) == 0x3e && BitwiseByte(208) == 0x3e;
    assert Lookup(209) == 0x39 && BitwiseByte(209) == 0x39;
    assert Lookup(210) == 0x30 && BitwiseByte(210) == 0x30;
    assert Lookup(211) == 0x37 && BitwiseByte(211) == 0x37;
    assert Lookup(212) == 0x22 && BitwiseByte(212) == 0x22;
    assert Lookup(213) == 0x25 && BitwiseByte(213) == 0x25;
    assert Lookup(214) == 0x2c && BitwiseByte(214) == 0x2c;
    assert Lookup(215) == 0x2b && BitwiseByte(215) == 0x2b;
    forall b: bv8 | 208 <= b < 216 ensures Lookup(b as int) == BitwiseByte(b) as int {
      assert b in {208, 209, 210, 211, 212, 213, 214, 215};
    }
  }

  /** The entries 216 to 223 are the bitwise CRCs of their indices. */
  lemma Poly07Entries216()
    ensures forall b: bv8 | 216 <= b < 224 :: Lookup(b as int) == BitwiseByte(b) as int
  {
    assert Lookup(216) == 0x06 && BitwiseByte(216) == 0x06;
    assert Lookup(217) == 0x01 && BitwiseByte(217) == 0x01;
    assert Lookup(218) == 0x08 && BitwiseByte(218) == 0x08;
    assert Lookup(219) == 0x0f && BitwiseByte(219) == 0x0f;
    assert Lookup(220) == 0x1a && BitwiseByte(220) == 0x1a;
    assert Lookup(221) == 0x1d && BitwiseByte(221) == 0x1d;
    assert Lookup(222) == 0x14 && BitwiseByte(222) == 0x14;
    assert Lookup(223) == 0x13 && BitwiseByte(223) == 0x13;
    forall b: bv8 | 216 <= b < 224 ensures Lookup(b as int) == BitwiseByte(b) as int {
      assert b in {216, 217, 218, 219, 220, 221, 222, 223};
    }
  }

  /** The entries 224 to 231 are the bitwise CRCs of their indices. */
  lemma Poly07Entries224()
    ensures forall b: bv8 | 224 <= b < 232 :: Lookup(b as int) == BitwiseByte(b) as int
  {
    assert Lookup(224) == 0xae && BitwiseByte(224) == 0xae;
    assert Lookup(225) == 0xa9 && BitwiseByte(225) == 0xa9;
    assert Lookup(226) == 0xa0 && BitwiseByte(226) == 0xa0;
    assert Lookup(227) == 0xa7 && BitwiseByte(227) == 0xa7;
    assert Lookup(228) == 0xb2 && BitwiseByte(228) == 0xb2;
    assert Lookup(229) == 0xb5 && BitwiseByte(229) == 0xb5;
    assert Lookup(230) == 0xbc && BitwiseByte(230) == 0xbc;
    assert Lookup(231) == 0xbb && BitwiseByte(231) == 0xbb;
    forall b: bv8 | 224 <= b < 232 ensures Lookup(b as int) == BitwiseByte(b) as int {
      assert b in {224, 225, 226, 227, 228, 229, 230, 231};
    }
  }

  /** The entries 232 to 239 are the bitwise CRCs of their indices. */
  lemma Poly07Entries232()
    ensures forall b: bv8 | 232 <= b < 240 :: Lookup(b as int) == BitwiseByte(b) as int
  {
    assert Lookup(232) == 0x96 && BitwiseByte(232) == 0x96;
    assert Lookup(233) == 0x91 && BitwiseByte(233) == 0x91;
    assert Lookup(234) == 0x98 && BitwiseByte(234) == 0x98;
    assert Lookup(235) == 0x9f && BitwiseByte(235) == 0x9f;
    assert Lookup(236) == 0x8a && BitwiseByte(236) == 0x8a;
    assert Lookup(237) == 0x8d && BitwiseByte(237) == 0x8d;
    assert Lookup(238) == 0x84 && BitwiseByte(238) == 0x84;
    assert Lookup(239) == 0x83 && BitwiseByte(239) == 0x83;
    forall b: bv8 | 232 <= b < 240 ensures Lookup(b as int) == BitwiseByte(b) as int {
      assert b in {232, 233, 234, 235, 236, 237, 238, 239};
    }
  }

  /** The entries 240 to 247 are the bitwise CRCs of their indices. */
  lemma Poly07Entries240()
    ensures forall b: bv8 | 240 <= b < 248 :: Lookup(b as int) == BitwiseByte(b) as int
  {
    assert Lookup(240) == 0xde && BitwiseByte(240) == 0xde;
    assert Lookup(241) == 0xd9 && BitwiseByte(241) == 0xd9;
    assert Lookup(242) == 0xd0 && BitwiseByte(242) == 0xd0;
    assert Lookup(243) == 0xd7 && BitwiseByte(243) == 0xd7;
    assert Lookup(244) == 0xc2 && BitwiseByte(244) == 0xc2;
    assert Lookup(245) == 0xc5 && BitwiseByte(245) == 0xc5;
    assert Lookup(246) == 0xcc && BitwiseByte(246) == 0xcc;
    assert Lookup(247) == 0xcb && BitwiseByte(247) == 0xcb;
    forall b: bv8 | 240 <= b < 248 ensures Lookup(b as int) == BitwiseByte(b) as int {
      assert b in {240, 241, 242, 243, 244, 245, 246, 247};
    }
  }

  /** The entries 248 to 255 are the bitwise CRCs of their indices. */
  lemma Poly07Entries248()
    ensures forall b: bv8 | 248 <= b :: Lookup(b as int) == BitwiseByte(b) as int
  {
    assert Lookup(248) == 0xe6 && BitwiseByte(248) == 0xe6;
    assert Lookup(249) == 0xe1 && BitwiseByte(249) == 0xe1;
    assert Lookup(250) == 0xe8 && BitwiseByte(250) == 0xe8;
    assert Lookup(251) == 0xef && BitwiseByte(251) == 0xef;
    assert Lookup(252) == 0xfa && BitwiseByte(252) == 0xfa;
    assert Lookup(253) == 0xfd && BitwiseByte(253) == 0xfd;
    assert Lookup(254) == 0xf4 && BitwiseByte(254) == 0xf4;
    assert Lookup(255) == 0xf3 && BitwiseByte(255) == 0xf3;
    forall b: bv8 | 248 <= b ensures Lookup(b as int) == BitwiseByte(b) as int {
      assert b in {248, 249, 250, 251, 252, 253, 254, 255};
    }
  }

  /** Every table entry is the bitwise CRC-8/0x07 of its index. */
  lemma TableIsPoly07()
    ensures forall b: bv8 :: Lookup(b as int) == BitwiseByte(b) as int
  {
    Poly07Entries0(); Poly07Entries8(); Poly07Entries16(); Poly07Entries24();
    Poly07Entries32(); Poly07Entries40(); Poly07Entries48(); Poly07Entries56();
    Poly07Entries64(); Poly07Entries72(); Poly07Entries80(); Poly07Entries88();
    Poly07Entries96(); Poly07Entries104(); Poly07Entries112(); Poly07Entries120();
    Poly07Entries128(); Poly07Entries136(); Poly07Entries144(); Poly07Entries152();
    Poly07Entries160(); Poly07Entries168(); Poly07Entries176(); Poly07Entries184();
    Poly07Entries192(); Poly07Entries200(); Poly07Entries208(); Poly07Entries216();
    Poly07Entries224(); Poly07Entries232(); Poly07Entries240(); Poly07Entries248();
  }

  /** The message-level bit-at-a-time CRC-8/0x07, without a table: xor each byte into the
      register, then run eight polynomial steps. */
  function BitwiseFold(acc: Byte, data: seq<int>): Byte
    decreases |data|
  {
    if data == [] then acc
    else BitwiseByte(XorBits(BitwiseFold(acc, data[..|data| - 1]), ToUnsigned(data[|data| - 1]))) as int
  }

  /** The table-driven loop computes the bitwise CRC-8/0x07 of every input. */
  lemma {:induction false} FoldIsBitwise(acc: Byte, data: seq<int>)
    ensures Fold(acc, data) == BitwiseFold(acc, data)
    decreases |data|
  {
    if data != [] {
      var n := |data| - 1;
      FoldIsBitwise(acc, data[..n]);
      TableIsPoly07();
    }
  }
}
