/** The code table of RFC 7541 Appendix B, and the one geometric fact about it
    that everything else follows from.

    Left-justify every code to 30 bits. A code of length `len` then owns the
    `2^(30 - len)` consecutive 30-bit words that begin with it: its tile. Read
    from left to right the 257 tiles lie edge to edge and fill [0, 2^30)
    exactly, so no code is a prefix of another and no bit path is a dead end. */
module HuffmanCode {
  import opened Octets

  /** A code aligned to the least significant bit of `bits`, and its length. */
  datatype Code = Code(bits: nat, len: nat)

  /** An octet value, or the end-of-string symbol. */
  type Symbol = s: nat | s < 257

  const EOS: Symbol := 256

  /** How many 30-bit words begin with a code of length `len`. */
  function Width(len: nat): (w: nat) {
    match len
    case 5 => 0x2000000 case 6 => 0x1000000 case 7 => 0x800000 case 8 => 0x400000 case 9 => 0x200000 case 10 => 0x100000
    case 11 => 0x80000 case 12 => 0x40000 case 13 => 0x20000 case 14 => 0x10000 case 15 => 0x8000 case 16 => 0x4000
    case 17 => 0x2000 case 18 => 0x1000 case 19 => 0x800 case 20 => 0x400 case 21 => 0x200 case 22 => 0x100
    case 23 => 0x80 case 24 => 0x40 case 25 => 0x20 case 26 => 0x10 case 27 => 0x8 case 28 => 0x4
    case 29 => 0x2
    case _ => 1
  }

  /** The tile of `s` is [Left(s), Right(s)). */
  function Left(s: Symbol): int {
    CodeOf(s).bits * Width(CodeOf(s).len)
  }

  function Right(s: Symbol): int {
    (CodeOf(s).bits + 1) * Width(CodeOf(s).len)
  }

  /** The bits of a symbol's code, most significant first. */
  function CodeBits(s: Symbol): (bs: seq<bool>)
    ensures |bs| == CodeOf(s).len
  {
    BitsOf(CodeOf(s).bits, CodeOf(s).len)
  }

  /** Code and length per symbol, in octet order with EOS last. */
  function CodeOf(s: int): Code {
    if s < 16 then CodeOf0(s)
    else if s < 32 then CodeOf1(s)
    else if s < 48 then CodeOf2(s)
    else if s < 64 then CodeOf3(s)
    else if s < 80 then CodeOf4(s)
    else if s < 96 then CodeOf5(s)
    else if s < 112 then CodeOf6(s)
    else if s < 128 then CodeOf7(s)
    else if s < 144 then CodeOf8(s)
    else if s < 160 then CodeOf9(s)
    else if s < 176 then CodeOf10(s)
    else if s < 192 then CodeOf11(s)
    else if s < 208 then CodeOf12(s)
    else if s < 224 then CodeOf13(s)
    else if s < 240 then CodeOf14(s)
    else if s < 256 then CodeOf15(s)
    else Code(0x3fffffff, 30)
  }

  function CodeOf0(s: int): Code {
    match s
    case 0 => Code(0x1ff8, 13) case 1 => Code(0x7fffd8, 23) case 2 => Code(0xfffffe2, 28)
    case 3 => Code(0xfffffe3, 28) case 4 => Code(0xfffffe4, 28) case 5 => Code(0xfffffe5, 28)
    case 6 => Code(0xfffffe6, 28) case 7 => Code(0xfffffe7, 28) case 8 => Code(0xfffffe8, 28)
    case 9 => Code(0xffffea, 24) case 10 => Code(0x3ffffffc, 30) case 11 => Code(0xfffffe9, 28)
    case 12 => Code(0xfffffea, 28) case 13 => Code(0x3ffffffd, 30) case 14 => Code(0xfffffeb, 28)
    case _ => Code(0xfffffec, 28)
  }

  function CodeOf1(s: int): Code {
    match s
    case 16 => Code(0xfffffed, 28) case 17 => Code(0xfffffee, 28) case 18 => Code(0xfffffef, 28)
    case 19 => Code(0xffffff0, 28) case 20 => Code(0xffffff1, 28) case 21 => Code(0xffffff2, 28)
    case 22 => Code(0x3ffffffe, 30) case 23 => Code(0xffffff3, 28) case 24 => Code(0xffffff4, 28)
    case 25 => Code(0xffffff5, 28) case 26 => Code(0xffffff6, 28) case 27 => Code(0xffffff7, 28)
    case 28 => Code(0xffffff8, 28) case 29 => Code(0xffffff9, 28) case 30 => Code(0xffffffa, 28)
    case _ => Code(0xffffffb, 28)
  }

  function CodeOf2(s: int): Code {
    match s
    case 32 => Code(0x14, 6) case 33 => Code(0x3f8, 10) case 34 => Code(0x3f9, 10)
    case 35 => Code(0xffa, 12) case 36 => Code(0x1ff9, 13) case 37 => Code(0x15, 6)
    case 38 => Code(0xf8, 8) case 39 => Code(0x7fa, 11) case 40 => Code(0x3fa, 10)
    case 41 => Code(0x3fb, 10) case 42 => Code(0xf9, 8) case 43 => Code(0x7fb, 11)
    case 44 => Code(0xfa, 8) case 45 => Code(0x16, 6) case 46 => Code(0x17, 6)
    case _ => Code(0x18, 6)
  }

  function CodeOf3(s: int): Code {
    match s
    case 48 => Code(0x0, 5) case 49 => Code(0x1, 5) case 50 => Code(0x2, 5)
    case 51 => Code(0x19, 6) case 52 => Code(0x1a, 6) case 53 => Code(0x1b, 6)
    case 54 => Code(0x1c, 6) case 55 => Code(0x1d, 6) case 56 => Code(0x1e, 6)
    case 57 => Code(0x1f, 6) case 58 => Code(0x5c, 7) case 59 => Code(0xfb, 8)
    case 60 => Code(0x7ffc, 15) case 61 => Code(0x20, 6) case 62 => Code(0xffb, 12)
    case _ => Code(0x3fc, 10)
  }

  function CodeOf4(s: int): Code {
    match s
    case 64 => Code(0x1ffa, 13) case 65 => Code(0x21, 6) case 66 => Code(0x5d, 7)
    case 67 => Code(0x5e, 7) case 68 => Code(0x5f, 7) case 69 => Code(0x60, 7)
    case 70 => Code(0x61, 7) case 71 => Code(0x62, 7) case 72 => Code(0x63, 7)
    case 73 => Code(0x64, 7) case 74 => Code(0x65, 7) case 75 => Code(0x66, 7)
    case 76 => Code(0x67, 7) case 77 => Code(0x68, 7) case 78 => Code(0x69, 7)
    case _ => Code(0x6a, 7)
  }

  function CodeOf5(s: int): Code {
    match s
    case 80 => Code(0x6b, 7) case 81 => Code(0x6c, 7) case 82 => Code(0x6d, 7)
    case 83 => Code(0x6e, 7) case 84 => Code(0x6f, 7) case 85 => Code(0x70, 7)
    case 86 => Code(0x71, 7) case 87 => Code(0x72, 7) case 88 => Code(0xfc, 8)
    case 89 => Code(0x73, 7) case 90 => Code(0xfd, 8) case 91 => Code(0x1ffb, 13)
    case 92 => Code(0x7fff0, 19) case 93 => Code(0x1ffc, 13) case 94 => Code(0x3ffc, 14)
    case _ => Code(0x22, 6)
  }

  function CodeOf6(s: int): Code {
    match s
    case 96 => Code(0x7ffd, 15) case 97 => Code(0x3, 5) case 98 => Code(0x23, 6)
    case 99 => Code(0x4, 5) case 100 => Code(0x24, 6) case 101 => Code(0x5, 5)
    case 102 => Code(0x25, 6) case 103 => Code(0x26, 6) case 104 => Code(0x27, 6)
    case 105 => Code(0x6, 5) case 106 => Code(0x74, 7) case 107 => Code(0x75, 7)
    case 108 => Code(0x28, 6) case 109 => Code(0x29, 6) case 110 => Code(0x2a, 6)
    case _ => Code(0x7, 5)
  }

  function CodeOf7(s: int): Code {
    match s
    case 112 => Code(0x2b, 6) case 113 => Code(0x76, 7) case 114 => Code(0x2c, 6)
    case 115 => Code(0x8, 5) case 116 => Code(0x9, 5) case 117 => Code(0x2d, 6)
    case 118 => Code(0x77, 7) case 119 => Code(0x78, 7) case 120 => Code(0x79, 7)
    case 121 => Code(0x7a, 7) case 122 => Code(0x7b, 7) case 123 => Code(0x7ffe, 15)
    case 124 => Code(0x7fc, 11) case 125 => Code(0x3ffd, 14) case 126 => Code(0x1ffd, 13)
    case _ => Code(0xffffffc, 28)
  }

  function CodeOf8(s: int): Code {
    match s
    case 128 => Code(0xfffe6, 20) case 129 => Code(0x3fffd2, 22) case 130 => Code(0xfffe7, 20)
    case 131 => Code(0xfffe8, 20) case 132 => Code(0x3fffd3, 22) case 133 => Code(0x3fffd4, 22)
    case 134 => Code(0x3fffd5, 22) case 135 => Code(0x7fffd9, 23) case 136 => Code(0x3fffd6, 22)
    case 137 => Code(0x7fffda, 23) case 138 => Code(0x7fffdb, 23) case 139 => Code(0x7fffdc, 23)
    case 140 => Code(0x7fffdd, 23) case 141 => Code(0x7fffde, 23) case 142 => Code(0xffffeb, 24)
    case _ => Code(0x7fffdf, 23)
  }

  function CodeOf9(s: int): Code {
    match s
    case 144 => Code(0xffffec, 24) case 145 => Code(0xffffed, 24) case 146 => Code(0x3fffd7, 22)
    case 147 => Code(0x7fffe0, 23) case 148 => Code(0xffffee, 24) case 149 => Code(0x7fffe1, 23)
    case 150 => Code(0x7fffe2, 23) case 151 => Code(0x7fffe3, 23) case 152 => Code(0x7fffe4, 23)
    case 153 => Code(0x1fffdc, 21) case 154 => Code(0x3fffd8, 22) case 155 => Code(0x7fffe5, 23)
    case 156 => Code(0x3fffd9, 22) case 157 => Code(0x7fffe6, 23) case 158 => Code(0x7fffe7, 23)
    case _ => Code(0xffffef, 24)
  }

  function CodeOf10(s: int): Code {
    match s
    case 160 => Code(0x3fffda, 22) case 161 => Code(0x1fffdd, 21) case 162 => Code(0xfffe9, 20)
    case 163 => Code(0x3fffdb, 22) case 164 => Code(0x3fffdc, 22) case 165 => Code(0x7fffe8, 23)
    case 166 => Code(0x7fffe9, 23) case 167 => Code(0x1fffde, 21) case 168 => Code(0x7fffea, 23)
    case 169 => Code(0x3fffdd, 22) case 170 => Code(0x3fffde, 22) case 171 => Code(0xfffff0, 24)
    case 172 => Code(0x1fffdf, 21) case 173 => Code(0x3fffdf, 22) case 174 => Code(0x7fffeb, 23)
    case _ => Code(0x7fffec, 23)
  }

  function CodeOf11(s: int): Code {
    match s
    case 176 => Code(0x1fffe0, 21) case 177 => Code(0x1fffe1, 21) case 178 => Code(0x3fffe0, 22)
    case 179 => Code(0x1fffe2, 21) case 180 => Code(0x7fffed, 23) case 181 => Code(0x3fffe1, 22)
    case 182 => Code(0x7fffee, 23) case 183 => Code(0x7fffef, 23) case 184 => Code(0xfffea, 20)
    case 185 => Code(0x3fffe2, 22) case 186 => Code(0x3fffe3, 22) case 187 => Code(0x3fffe4, 22)
    case 188 => Code(0x7ffff0, 23) case 189 => Code(0x3fffe5, 22) case 190 => Code(0x3fffe6, 22)
    case _ => Code(0x7ffff1, 23)
  }

  function CodeOf12(s: int): Code {
    match s
    case 192 => Code(0x3ffffe0, 26) case 193 => Code(0x3ffffe1, 26) case 194 => Code(0xfffeb, 20)
    case 195 => Code(0x7fff1, 19) case 196 => Code(0x3fffe7, 22) case 197 => Code(0x7ffff2, 23)
    case 198 => Code(0x3fffe8, 22) case 199 => Code(0x1ffffec, 25) case 200 => Code(0x3ffffe2, 26)
    case 201 => Code(0x3ffffe3, 26) case 202 => Code(0x3ffffe4, 26) case 203 => Code(0x7ffffde, 27)
    case 204 => Code(0x7ffffdf, 27) case 205 => Code(0x3ffffe5, 26) case 206 => Code(0xfffff1, 24)
    case _ => Code(0x1ffffed, 25)
  }

  function CodeOf13(s: int): Code {
    match s
    case 208 => Code(0x7fff2, 19) case 209 => Code(0x1fffe3, 21) case 210 => Code(0x3ffffe6, 26)
    case 211 => Code(0x7ffffe0, 27) case 212 => Code(0x7ffffe1, 27) case 213 => Code(0x3ffffe7, 26)
    case 214 => Code(0x7ffffe2, 27) case 215 => Code(0xfffff2, 24) case 216 => Code(0x1fffe4, 21)
    case 217 => Code(0x1fffe5, 21) case 218 => Code(0x3ffffe8, 26) case 219 => Code(0x3ffffe9, 26)
    case 220 => Code(0xffffffd, 28) case 221 => Code(0x7ffffe3, 27) case 222 => Code(0x7ffffe4, 27)
    case _ => Code(0x7ffffe5, 27)
  }

  function CodeOf14(s: int): Code {
    match s
    case 224 => Code(0xfffec, 20) case 225 => Code(0xfffff3, 24) case 226 => Code(0xfffed, 20)
    case 227 => Code(0x1fffe6, 21) case 228 => Code(0x3fffe9, 22) case 229 => Code(0x1fffe7, 21)
    case 230 => Code(0x1fffe8, 21) case 231 => Code(0x7ffff3, 23) case 232 => Code(0x3fffea, 22)
    case 233 => Code(0x3fffeb, 22) case 234 => Code(0x1ffffee, 25) case 235 => Code(0x1ffffef, 25)
    case 236 => Code(0xfffff4, 24) case 237 => Code(0xfffff5, 24) case 238 => Code(0x3ffffea, 26)
    case _ => Code(0x7ffff4, 23)
  }

  function CodeOf15(s: int): Code {
    match s
    case 240 => Code(0x3ffffeb, 26) case 241 => Code(0x7ffffe6, 27) case 242 => Code(0x3ffffec, 26)
    case 243 => Code(0x3ffffed, 26) case 244 => Code(0x7ffffe7, 27) case 245 => Code(0x7ffffe8, 27)
    case 246 => Code(0x7ffffe9, 27) case 247 => Code(0x7ffffea, 27) case 248 => Code(0x7ffffeb, 27)
    case 249 => Code(0xffffffe, 28) case 250 => Code(0x7ffffec, 27) case 251 => Code(0x7ffffed, 27)
    case 252 => Code(0x7ffffee, 27) case 253 => Code(0x7ffffef, 27) case 254 => Code(0x7fffff0, 27)
    case _ => Code(0x3ffffee, 26)
  }

  /** The symbols in the order their tiles appear, left to right: by length, and
      within a length by octet value. */
  function Leaf(s: int): Symbol {
    if s < 16 then Leaf0(s)
    else if s < 32 then Leaf1(s)
    else if s < 48 then Leaf2(s)
    else if s < 64 then Leaf3(s)
    else if s < 80 then Leaf4(s)
    else if s < 96 then Leaf5(s)
    else if s < 112 then Leaf6(s)
    else if s < 128 then Leaf7(s)
    else if s < 144 then Leaf8(s)
    else if s < 160 then Leaf9(s)
    else if s < 176 then Leaf10(s)
    else if s < 192 then Leaf11(s)
    else if s < 208 then Leaf12(s)
    else if s < 224 then Leaf13(s)
    else if s < 240 then Leaf14(s)
    else if s < 256 then Leaf15(s)
    else 256
  }

  function Leaf0(s: int): Symbol {
    match s
    case 0 => 48 case 1 => 49 case 2 => 50 case 3 => 97 case 4 => 99 case 5 => 101 case 6 => 105 case 7 => 111
    case 8 => 115 case 9 => 116 case 10 => 32 case 11 => 37 case 12 => 45 case 13 => 46 case 14 => 47 case _ => 51
  }

  function Leaf1(s: int): Symbol {
    match s
    case 16 => 52 case 17 => 53 case 18 => 54 case 19 => 55 case 20 => 56 case 21 => 57 case 22 => 61 case 23 => 65
    case 24 => 95 case 25 => 98 case 26 => 100 case 27 => 102 case 28 => 103 case 29 => 104 case 30 => 108 case _ => 109
  }

  function Leaf2(s: int): Symbol {
    match s
    case 32 => 110 case 33 => 112 case 34 => 114 case 35 => 117 case 36 => 58 case 37 => 66 case 38 => 67 case 39 => 68
    case 40 => 69 case 41 => 70 case 42 => 71 case 43 => 72 case 44 => 73 case 45 => 74 case 46 => 75 case _ => 76
  }

  function Leaf3(s: int): Symbol {
    match s
    case 48 => 77 case 49 => 78 case 50 => 79 case 51 => 80 case 52 => 81 case 53 => 82 case 54 => 83 case 55 => 84
    case 56 => 85 case 57 => 86 case 58 => 87 case 59 => 89 case 60 => 106 case 61 => 107 case 62 => 113 case _ => 118
  }

  function Leaf4(s: int): Symbol {
    match s
    case 64 => 119 case 65 => 120 case 66 => 121 case 67 => 122 case 68 => 38 case 69 => 42 case 70 => 44 case 71 => 59
    case 72 => 88 case 73 => 90 case 74 => 33 case 75 => 34 case 76 => 40 case 77 => 41 case 78 => 63 case _ => 39
  }

  function Leaf5(s: int): Symbol {
    match s
    case 80 => 43 case 81 => 124 case 82 => 35 case 83 => 62 case 84 => 0 case 85 => 36 case 86 => 64 case 87 => 91
    case 88 => 93 case 89 => 126 case 90 => 94 case 91 => 125 case 92 => 60 case 93 => 96 case 94 => 123 case _ => 92
  }

  function Leaf6(s: int): Symbol {
    match s
    case 96 => 195 case 97 => 208 case 98 => 128 case 99 => 130 case 100 => 131 case 101 => 162 case 102 => 184 case 103 => 194
    case 104 => 224 case 105 => 226 case 106 => 153 case 107 => 161 case 108 => 167 case 109 => 172 case 110 => 176 case _ => 177
  }

  function Leaf7(s: int): Symbol {
    match s
    case 112 => 179 case 113 => 209 case 114 => 216 case 115 => 217 case 116 => 227 case 117 => 229 case 118 => 230 case 119 => 129
    case 120 => 132 case 121 => 133 case 122 => 134 case 123 => 136 case 124 => 146 case 125 => 154 case 126 => 156 case _ => 160
  }

  function Leaf8(s: int): Symbol {
    match s
    case 128 => 163 case 129 => 164 case 130 => 169 case 131 => 170 case 132 => 173 case 133 => 178 case 134 => 181 case 135 => 185
    case 136 => 186 case 137 => 187 case 138 => 189 case 139 => 190 case 140 => 196 case 141 => 198 case 142 => 228 case _ => 232
  }

  function Leaf9(s: int): Symbol {
    match s
    case 144 => 233 case 145 => 1 case 146 => 135 case 147 => 137 case 148 => 138 case 149 => 139 case 150 => 140 case 151 => 141
    case 152 => 143 case 153 => 147 case 154 => 149 case 155 => 150 case 156 => 151 case 157 => 152 case 158 => 155 case _ => 157
  }

  function Leaf10(s: int): Symbol {
    match s
    case 160 => 158 case 161 => 165 case 162 => 166 case 163 => 168 case 164 => 174 case 165 => 175 case 166 => 180 case 167 => 182
    case 168 => 183 case 169 => 188 case 170 => 191 case 171 => 197 case 172 => 231 case 173 => 239 case 174 => 9 case _ => 142
  }

  function Leaf11(s: int): Symbol {
    match s
    case 176 => 144 case 177 => 145 case 178 => 148 case 179 => 159 case 180 => 171 case 181 => 206 case 182 => 215 case 183 => 225
    case 184 => 236 case 185 => 237 case 186 => 199 case 187 => 207 case 188 => 234 case 189 => 235 case 190 => 192 case _ => 193
  }

  function Leaf12(s: int): Symbol {
    match s
    case 192 => 200 case 193 => 201 case 194 => 202 case 195 => 205 case 196 => 210 case 197 => 213 case 198 => 218 case 199 => 219
    case 200 => 238 case 201 => 240 case 202 => 242 case 203 => 243 case 204 => 255 case 205 => 203 case 206 => 204 case _ => 211
  }

  function Leaf13(s: int): Symbol {
    match s
    case 208 => 212 case 209 => 214 case 210 => 221 case 211 => 222 case 212 => 223 case 213 => 241 case 214 => 244 case 215 => 245
    case 216 => 246 case 217 => 247 case 218 => 248 case 219 => 250 case 220 => 251 case 221 => 252 case 222 => 253 case _ => 254
  }

  function Leaf14(s: int): Symbol {
    match s
    case 224 => 2 case 225 => 3 case 226 => 4 case 227 => 5 case 228 => 6 case 229 => 7 case 230 => 8 case 231 => 11
    case 232 => 12 case 233 => 14 case 234 => 15 case 235 => 16 case 236 => 17 case 237 => 18 case 238 => 19 case _ => 20
  }

  function Leaf15(s: int): Symbol {
    match s
    case 240 => 21 case 241 => 23 case 242 => 24 case 243 => 25 case 244 => 26 case 245 => 27 case 246 => 28 case 247 => 29
    case 248 => 30 case 249 => 31 case 250 => 127 case 251 => 220 case 252 => 249 case 253 => 10 case 254 => 13 case _ => 22
  }

  /** Where each symbol's tile stands in that order. */
  function Place(s: int): nat {
    if s < 16 then Place0(s)
    else if s < 32 then Place1(s)
    else if s < 48 then Place2(s)
    else if s < 64 then Place3(s)
    else if s < 80 then Place4(s)
    else if s < 96 then Place5(s)
    else if s < 112 then Place6(s)
    else if s < 128 then Place7(s)
    else if s < 144 then Place8(s)
    else if s < 160 then Place9(s)
    else if s < 176 then Place10(s)
    else if s < 192 then Place11(s)
    else if s < 208 then Place12(s)
    else if s < 224 then Place13(s)
    else if s < 240 then Place14(s)
    else if s < 256 then Place15(s)
    else 256
  }

  function Place0(s: int): nat {
    match s
    case 0 => 84 case 1 => 145 case 2 => 224 case 3 => 225 case 4 => 226 case 5 => 227 case 6 => 228 case 7 => 229
    case 8 => 230 case 9 => 174 case 10 => 253 case 11 => 231 case 12 => 232 case 13 => 254 case 14 => 233 case _ => 234
  }

  function Place1(s: int): nat {
    match s
    case 16 => 235 case 17 => 236 case 18 => 237 case 19 => 238 case 20 => 239 case 21 => 240 case 22 => 255 case 23 => 241
    case 24 => 242 case 25 => 243 case 26 => 244 case 27 => 245 case 28 => 246 case 29 => 247 case 30 => 248 case _ => 249
  }

  function Place2(s: int): nat {
    match s
    case 32 => 10 case 33 => 74 case 34 => 75 case 35 => 82 case 36 => 85 case 37 => 11 case 38 => 68 case 39 => 79
    case 40 => 76 case 41 => 77 case 42 => 69 case 43 => 80 case 44 => 70 case 45 => 12 case 46 => 13 case _ => 14
  }

  function Place3(s: int): nat {
    match s
    case 48 => 0 case 49 => 1 case 50 => 2 case 51 => 15 case 52 => 16 case 53 => 17 case 54 => 18 case 55 => 19
    case 56 => 20 case 57 => 21 case 58 => 36 case 59 => 71 case 60 => 92 case 61 => 22 case 62 => 83 case _ => 78
  }

  function Place4(s: int): nat {
    match s
    case 64 => 86 case 65 => 23 case 66 => 37 case 67 => 38 case 68 => 39 case 69 => 40 case 70 => 41 case 71 => 42
    case 72 => 43 case 73 => 44 case 74 => 45 case 75 => 46 case 76 => 47 case 77 => 48 case 78 => 49 case _ => 50
  }

  function Place5(s: int): nat {
    match s
    case 80 => 51 case 81 => 52 case 82 => 53 case 83 => 54 case 84 => 55 case 85 => 56 case 86 => 57 case 87 => 58
    case 88 => 72 case 89 => 59 case 90 => 73 case 91 => 87 case 92 => 95 case 93 => 88 case 94 => 90 case _ => 24
  }

  function Place6(s: int): nat {
    match s
    case 96 => 93 case 97 => 3 case 98 => 25 case 99 => 4 case 100 => 26 case 101 => 5 case 102 => 27 case 103 => 28
    case 104 => 29 case 105 => 6 case 106 => 60 case 107 => 61 case 108 => 30 case 109 => 31 case 110 => 32 case _ => 7
  }

  function Place7(s: int): nat {
    match s
    case 112 => 33 case 113 => 62 case 114 => 34 case 115 => 8 case 116 => 9 case 117 => 35 case 118 => 63 case 119 => 64
    case 120 => 65 case 121 => 66 case 122 => 67 case 123 => 94 case 124 => 81 case 125 => 91 case 126 => 89 case _ => 250
  }

  function Place8(s: int): nat {
    match s
    case 128 => 98 case 129 => 119 case 130 => 99 case 131 => 100 case 132 => 120 case 133 => 121 case 134 => 122 case 135 => 146
    case 136 => 123 case 137 => 147 case 138 => 148 case 139 => 149 case 140 => 150 case 141 => 151 case 142 => 175 case _ => 152
  }

  function Place9(s: int): nat {
    match s
    case 144 => 176 case 145 => 177 case 146 => 124 case 147 => 153 case 148 => 178 case 149 => 154 case 150 => 155 case 151 => 156
    case 152 => 157 case 153 => 106 case 154 => 125 case 155 => 158 case 156 => 126 case 157 => 159 case 158 => 160 case _ => 179
  }

  function Place10(s: int): nat {
    match s
    case 160 => 127 case 161 => 107 case 162 => 101 case 163 => 128 case 164 => 129 case 165 => 161 case 166 => 162 case 167 => 108
    case 168 => 163 case 169 => 130 case 170 => 131 case 171 => 180 case 172 => 109 case 173 => 132 case 174 => 164 case _ => 165
  }

  function Place11(s: int): nat {
    match s
    case 176 => 110 case 177 => 111 case 178 => 133 case 179 => 112 case 180 => 166 case 181 => 134 case 182 => 167 case 183 => 168
    case 184 => 102 case 185 => 135 case 186 => 136 case 187 => 137 case 188 => 169 case 189 => 138 case 190 => 139 case _ => 170
  }

  function Place12(s: int): nat {
    match s
    case 192 => 190 case 193 => 191 case 194 => 103 case 195 => 96 case 196 => 140 case 197 => 171 case 198 => 141 case 199 => 186
    case 200 => 192 case 201 => 193 case 202 => 194 case 203 => 205 case 204 => 206 case 205 => 195 case 206 => 181 case _ => 187
  }

  function Place13(s: int): nat {
    match s
    case 208 => 97 case 209 => 113 case 210 => 196 case 211 => 207 case 212 => 208 case 213 => 197 case 214 => 209 case 215 => 182
    case 216 => 114 case 217 => 115 case 218 => 198 case 219 => 199 case 220 => 251 case 221 => 210 case 222 => 211 case _ => 212
  }

  function Place14(s: int): nat {
    match s
    case 224 => 104 case 225 => 183 case 226 => 105 case 227 => 116 case 228 => 142 case 229 => 117 case 230 => 118 case 231 => 172
    case 232 => 143 case 233 => 144 case 234 => 188 case 235 => 189 case 236 => 184 case 237 => 185 case 238 => 200 case _ => 173
  }

  function Place15(s: int): nat {
    match s
    case 240 => 201 case 241 => 213 case 242 => 202 case 243 => 203 case 244 => 214 case 245 => 215 case 246 => 216 case 247 => 217
    case 248 => 218 case 249 => 252 case 250 => 219 case 251 => 220 case 252 => 221 case 253 => 222 case 254 => 223 case _ => 204
  }

  // -------------------------------------------------------------------------
  // Facts read off the table, a run of rows at a time.
  // -------------------------------------------------------------------------

  lemma {:induction false} WidthIsPow2(len: nat)
    requires 5 <= len <= 30
    ensures Width(len) == Pow2(30 - len)
  {
    assert Pow2(5) == 32;
    assert Pow2(10) == 0x400 by { Pow2Add(5, 5); }
    assert Pow2(20) == 0x10_0000 by { Pow2Add(10, 10); }
    if len <= 10 {
      Pow2Add(20, 10 - len);
    } else if len <= 20 {
      Pow2Add(10, 20 - len);
    }
  }

  lemma CodeLength(s: Symbol)
    ensures 5 <= CodeOf(s).len <= 30
  {
  }

  /** Each tile starts where the one before it ends. */
  lemma TileStep(k: nat)
    requires k < 256
    ensures Right(Leaf(k)) == Left(Leaf(k + 1))
  {
    if k < 16 { TileStep0(k); }
    else if k < 32 { TileStep1(k); }
    else if k < 48 { TileStep2(k); }
    else if k < 64 { TileStep3(k); }
    else if k < 80 { TileStep4(k); }
    else if k < 96 { TileStep5(k); }
    else if k < 112 { TileStep6(k); }
    else if k < 128 { TileStep7(k); }
    else if k < 144 { TileStep8(k); }
    else if k < 160 { TileStep9(k); }
    else if k < 176 { TileStep10(k); }
    else if k < 192 { TileStep11(k); }
    else if k < 208 { TileStep12(k); }
    else if k < 224 { TileStep13(k); }
    else if k < 240 { TileStep14(k); }
    else { TileStep15(k); }
  }

  lemma TileStep0(k: nat)
    requires 0 <= k < 16
    ensures Right(Leaf(k)) == Left(Leaf(k + 1))
  {
  }

  lemma TileStep1(k: nat)
    requires 16 <= k < 32
    ensures Right(Leaf(k)) == Left(Leaf(k + 1))
  {
  }

  lemma TileStep2(k: nat)
    requires 32 <= k < 48
    ensures Right(Leaf(k)) == Left(Leaf(k + 1))
  {
  }

  lemma TileStep3(k: nat)
    requires 48 <= k < 64
    ensures Right(Leaf(k)) == Left(Leaf(k + 1))
  {
  }

  lemma TileStep4(k: nat)
    requires 64 <= k < 80
    ensures Right(Leaf(k)) == Left(Leaf(k + 1))
  {
  }

  lemma TileStep5(k: nat)
    requires 80 <= k < 96
    ensures Right(Leaf(k)) == Left(Leaf(k + 1))
  {
  }

  lemma TileStep6(k: nat)
    requires 96 <= k < 112
    ensures Right(Leaf(k)) == Left(Leaf(k + 1))
  {
  }

  lemma TileStep7(k: nat)
    requires 112 <= k < 128
    ensures Right(Leaf(k)) == Left(Leaf(k + 1))
  {
  }

  lemma TileStep8(k: nat)
    requires 128 <= k < 144
    ensures Right(Leaf(k)) == Left(Leaf(k + 1))
  {
  }

  lemma TileStep9(k: nat)
    requires 144 <= k < 160
    ensures Right(Leaf(k)) == Left(Leaf(k + 1))
  {
  }

  lemma TileStep10(k: nat)
    requires 160 <= k < 176
    ensures Right(Leaf(k)) == Left(Leaf(k + 1))
  {
  }

  lemma TileStep11(k: nat)
    requires 176 <= k < 192
    ensures Right(Leaf(k)) == Left(Leaf(k + 1))
  {
  }

  lemma TileStep12(k: nat)
    requires 192 <= k < 208
    ensures Right(Leaf(k)) == Left(Leaf(k + 1))
  {
  }

  lemma TileStep13(k: nat)
    requires 208 <= k < 224
    ensures Right(Leaf(k)) == Left(Leaf(k + 1))
  {
  }

  lemma TileStep14(k: nat)
    requires 224 <= k < 240
    ensures Right(Leaf(k)) == Left(Leaf(k + 1))
  {
  }

  lemma TileStep15(k: nat)
    requires 240 <= k < 256
    ensures Right(Leaf(k)) == Left(Leaf(k + 1))
  {
  }

  /** Every symbol has a tile. */
  lemma PlaceOfLeaf(s: Symbol)
    ensures Place(s) < 257 && Leaf(Place(s)) == s
  {
    if s < 64 { PlaceOfLeaf0(s); }
    else if s < 128 { PlaceOfLeaf1(s); }
    else if s < 192 { PlaceOfLeaf2(s); }
    else { PlaceOfLeaf3(s); }
  }

  lemma PlaceOfLeaf0(s: Symbol)
    requires 0 <= s < 64
    ensures Place(s) < 257 && Leaf(Place(s)) == s
  {
  }

  lemma PlaceOfLeaf1(s: Symbol)
    requires 64 <= s < 128
    ensures Place(s) < 257 && Leaf(Place(s)) == s
  {
  }

  lemma PlaceOfLeaf2(s: Symbol)
    requires 128 <= s < 192
    ensures Place(s) < 257 && Leaf(Place(s)) == s
  {
  }

  lemma PlaceOfLeaf3(s: Symbol)
    requires 192 <= s
    ensures Place(s) < 257 && Leaf(Place(s)) == s
  {
  }

  // -------------------------------------------------------------------------
  // The tiling.
  // -------------------------------------------------------------------------

  lemma {:induction false} TilesInOrder(j: nat, k: nat)
    requires j < k < 257
    ensures Right(Leaf(j)) <= Left(Leaf(k))
  {
    TileStep(k - 1);
    if j < k - 1 {
      TilesInOrder(j, k - 1);
      TileNonEmpty(Leaf(k - 1));
    }
  }

  lemma TileNonEmpty(s: Symbol)
    ensures Right(s) == Left(s) + Width(CodeOf(s).len) && Width(CodeOf(s).len) >= 1
  {
    hide CodeOf;
    var w := Width(CodeOf(s).len);
    assert w >= 1;
    hide Width;
    assert (CodeOf(s).bits + 1) * w == CodeOf(s).bits * w + w;
  }

  lemma TilesDisjoint(s: Symbol, t: Symbol)
    requires s != t
    ensures Right(s) <= Left(t) || Right(t) <= Left(s)
  {
    PlaceOfLeaf(s);
    PlaceOfLeaf(t);
    if Place(s) < Place(t) {
      TilesInOrder(Place(s), Place(t));
    } else {
      TilesInOrder(Place(t), Place(s));
    }
  }

  /** The tiles up to place `k` cover everything before the end of tile `k`. */
  lemma {:induction false} TileCover(k: nat, x: nat) returns (s: Symbol)
    requires k < 257 && x < Right(Leaf(k))
    ensures Left(s) <= x < Right(s)
  {
    if Left(Leaf(k)) <= x {
      s := Leaf(k);
    } else {
      assert Left(Leaf(0)) == 0;
      TileStep(k - 1);
      s := TileCover(k - 1, x);
    }
  }

  lemma TilesFillTheLine(x: nat) returns (s: Symbol)
    requires x < 0x4000_0000
    ensures Left(s) <= x < Right(s)
  {
    s := TileCover(256, x);
  }

  lemma TileInLine(s: Symbol)
    ensures Right(s) <= 0x4000_0000
  {
    PlaceOfLeaf(s);
    assert Right(Leaf(256)) == 0x4000_0000;
    if Place(s) < 256 {
      TilesInOrder(Place(s), 256);
      TileNonEmpty(Leaf(256));
    }
  }

  lemma CodeFits(s: Symbol)
    ensures CodeOf(s).bits < Pow2(CodeOf(s).len)
    ensures Value(CodeBits(s)) == CodeOf(s).bits
  {
    hide CodeOf, Width;
    var c := CodeOf(s);
    CodeLength(s);
    TileInLine(s);
    TileNonEmpty(s);
    WidthIsPow2(c.len);
    Pow2Add(c.len, 30 - c.len);
    LineLength();
    hide Pow2, BitsOf, Value;
    ProductOrder(c.bits, Pow2(c.len), Width(c.len));
    CodeValue(c.bits, c.len);
  }

  lemma CodeValue(bits: nat, len: nat)
    requires bits < Pow2(len)
    ensures Value(BitsOf(bits, len)) == bits
  {
    ValueOfBits(bits, len);
  }

  lemma LineLength()
    ensures Pow2(30) == 0x4000_0000
  {
    WidthIsPow2(5);
    Pow2Add(5, 25);
  }

  lemma ProductOrder(a: int, b: int, w: int)
    requires w >= 1 && a * w < b * w
    ensures a < b
  {
    ScaleBound(w, a - b);
    assert a * w - b * w == w * (a - b);
  }

  // -------------------------------------------------------------------------
  // Prefixes are tiles inside tiles.
  // -------------------------------------------------------------------------

  /** The first 30-bit word that begins with `bs`. */
  function Start(bs: seq<bool>): nat
    requires |bs| <= 30
  {
    Value(bs) * Pow2(30 - |bs|)
  }

  /** The words beginning with `bs` lie inside those beginning with a prefix of it. */
  lemma {:induction false} StartInside(bs: seq<bool>, n: nat)
    requires n <= |bs| <= 30
    ensures Start(bs[..n]) <= Start(bs)
    ensures Start(bs) + Pow2(30 - |bs|) <= Start(bs[..n]) + Pow2(30 - n)
  {
    hide Pow2, Value;
    var rest := bs[n..];
    assert bs == bs[..n] + rest;
    ValueConcat(bs[..n], rest);
    ValueBound(rest);
    Pow2Add(|rest|, 30 - |bs|);
    SlotInside(Value(bs[..n]), Pow2(|rest|), Value(rest), Pow2(30 - |bs|));
  }

  /** Slot `r` of the `p` slots of width `w` that make up block `v`. */
  lemma SlotInside(v: nat, p: nat, r: nat, w: nat)
    requires r < p
    ensures v * (p * w) <= (v * p + r) * w
    ensures (v * p + r) * w + w <= v * (p * w) + p * w
  {
    assert (v * p + r) * w == v * (p * w) + r * w;
    assert (r + 1) * w + (p - r - 1) * w == p * w;
    assert (p - r - 1) * w >= 0;
  }

  lemma {:induction false} PrefixInside(a: seq<bool>, b: seq<bool>)
    requires a <= b && |b| <= 30
    ensures Start(a) <= Start(b) && Start(b) + Pow2(30 - |b|) <= Start(a) + Pow2(30 - |a|)
  {
    hide Pow2, Value;
    assert b[..|a|] == a;
    StartInside(b, |a|);
  }

  lemma CodeStart(s: Symbol)
    ensures |CodeBits(s)| <= 30
    ensures Start(CodeBits(s)) == Left(s)
    ensures Start(CodeBits(s)) + Pow2(30 - |CodeBits(s)|) == Right(s)
  {
    hide CodeOf, Width, BitsOf;
    CodeLength(s);
    CodeFits(s);
    TileNonEmpty(s);
    WidthIsPow2(CodeOf(s).len);
  }

  /** No code is a prefix of another. */
  lemma PrefixFree(s: Symbol, t: Symbol)
    requires s != t
    ensures !(CodeBits(s) <= CodeBits(t))
  {
    hide CodeOf, Left, Right;
    CodeStart(s);
    CodeStart(t);
    TilesDisjoint(s, t);
    if CodeBits(s) <= CodeBits(t) {
      PrefixInside(CodeBits(s), CodeBits(t));
    }
  }

  lemma SharedSlot(a: int, b: int, w: int)
    requires w >= 1 && a * w < b * w + w && b * w < a * w + w
    ensures a == b
  {
    assert b * w + w == (b + 1) * w;
    assert a * w + w == (a + 1) * w;
    ProductOrder(a, b + 1, w);
    ProductOrder(b, a + 1, w);
  }

  /** Two runs of bits of one length that share a word are the same run. */
  lemma {:induction false} SameLengthSameWord(a: seq<bool>, b: seq<bool>)
    requires |a| == |b| <= 30
    requires Start(a) < Start(b) + Pow2(30 - |b|)
    requires Start(b) < Start(a) + Pow2(30 - |a|)
    ensures a == b
  {
    SharedSlot(Value(a), Value(b), Pow2(30 - |a|));
    ValueInjective(a, b);
  }

  lemma StartInLine(bs: seq<bool>)
    requires |bs| <= 30
    ensures Start(bs) < 0x4000_0000
  {
    ValueBound(bs);
    Pow2Add(|bs|, 30 - |bs|);
    LineLength();
    SlotInside(0, Pow2(|bs|), Value(bs), Pow2(30 - |bs|));
  }

  /** Any run of at most 30 bits either begins with a code or begins one. */
  lemma BeginsOrExtends(bs: seq<bool>) returns (s: Symbol)
    requires |bs| <= 30
    ensures CodeBits(s) <= bs || bs <= CodeBits(s)
  {
    hide CodeOf, Left, Right;
    StartInLine(bs);
    s := TilesFillTheLine(Start(bs));
    CodeStart(s);
    var c := CodeBits(s);
    if |c| <= |bs| {
      StartInside(bs, |c|);
      SameLengthSameWord(bs[..|c|], c);
    } else {
      StartInside(c, |bs|);
      SameLengthSameWord(c[..|bs|], bs);
    }
  }

  /** Where a code has not ended, both next bits go on to some code: the code is
      complete, so no bit path dead-ends. */
  lemma Complete(s: Symbol, n: nat, bit: bool) returns (t: Symbol)
    requires n < |CodeBits(s)|
    ensures CodeBits(s)[..n] + [bit] <= CodeBits(t)
  {
    hide CodeOf;
    var bs := CodeBits(s)[..n] + [bit];
    CodeLength(s);
    t := BeginsOrExtends(bs);
    if CodeBits(t) <= bs && CodeBits(t) != bs {
      assert CodeBits(t) <= CodeBits(s);
      assert t != s by { assert |CodeBits(t)| <= n; }
      PrefixFree(t, s);
    }
  }
}
