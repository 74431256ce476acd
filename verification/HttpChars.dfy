/** The character classes of the HTTP parser. */
module HttpChars {
  import opened Bytes

  // Named characters: C_ is the capital letter, LOW_C the small one.
  const TAB: byte := 9
  const LF: byte := 10
  const CR: byte := 13
  const SP: byte := 32
  const HASH: byte := 35
  const STAR: byte := 42
  const DASH: byte := 45
  const DOT: byte := 46
  const SLASH: byte := 47
  const DIGIT_0: byte := 48
  const DIGIT_9: byte := 57
  const COLON: byte := 58
  const SEMICOLON: byte := 59
  const QUESTION: byte := 63
  const UNDERSCORE: byte := 95

  const A_: byte := 65
  const B_: byte := 66
  const C_: byte := 67
  const D_: byte := 68
  const E_: byte := 69
  const F_: byte := 70
  const G_: byte := 71
  const H_: byte := 72
  const I_: byte := 73
  const K_: byte := 75
  const L_: byte := 76
  const M_: byte := 77
  const N_: byte := 78
  const O_: byte := 79
  const P_: byte := 80
  const R_: byte := 82
  const S_: byte := 83
  const T_: byte := 84
  const U_: byte := 85
  const V_: byte := 86
  const Y_: byte := 89

  const LOW_A: byte := 97
  const LOW_C: byte := 99
  const LOW_D: byte := 100
  const LOW_E: byte := 101
  const LOW_F: byte := 102
  const LOW_G: byte := 103
  const LOW_H: byte := 104
  const LOW_I: byte := 105
  const LOW_K: byte := 107
  const LOW_L: byte := 108
  const LOW_N: byte := 110
  const LOW_O: byte := 111
  const LOW_P: byte := 112
  const LOW_R: byte := 114
  const LOW_S: byte := 115
  const LOW_T: byte := 116
  const LOW_U: byte := 117
  const LOW_V: byte := 118
  const LOW_X: byte := 120
  const LOW_Y: byte := 121

  // The header names and values the parser looks for, in lower case.
  const PROXY_CONNECTION: seq<byte> :=
    [LOW_P, LOW_R, LOW_O, LOW_X, LOW_Y, DASH,
     LOW_C, LOW_O, LOW_N, LOW_N, LOW_E, LOW_C, LOW_T, LOW_I, LOW_O, LOW_N]
  const CONNECTION: seq<byte> := [LOW_C, LOW_O, LOW_N, LOW_N, LOW_E, LOW_C, LOW_T, LOW_I, LOW_O, LOW_N]
  const CONTENT_LENGTH: seq<byte> :=
    [LOW_C, LOW_O, LOW_N, LOW_T, LOW_E, LOW_N, LOW_T, DASH, LOW_L, LOW_E, LOW_N, LOW_G, LOW_T, LOW_H]
  const TRANSFER_ENCODING: seq<byte> :=
    [LOW_T, LOW_R, LOW_A, LOW_N, LOW_S, LOW_F, LOW_E, LOW_R, DASH,
     LOW_E, LOW_N, LOW_C, LOW_O, LOW_D, LOW_I, LOW_N, LOW_G]
  const UPGRADE: seq<byte> := [LOW_U, LOW_P, LOW_G, LOW_R, LOW_A, LOW_D, LOW_E]
  const CHUNKED: seq<byte> := [LOW_C, LOW_H, LOW_U, LOW_N, LOW_K, LOW_E, LOW_D]
  const KEEP_ALIVE: seq<byte> := [LOW_K, LOW_E, LOW_E, LOW_P, DASH, LOW_A, LOW_L, LOW_I, LOW_V, LOW_E]
  const CLOSE: seq<byte> := [LOW_C, LOW_L, LOW_O, LOW_S, LOW_E]

  /** The byte with bit 5 set. */
  function Lower(b: byte): byte {
    if b % 64 < 32 then b + 32 else b
  }

  predicate IsAlpha(b: byte) { LOW_A <= Lower(b) <= 122 }

  predicate IsNum(b: byte) { DIGIT_0 <= b <= DIGIT_9 }

  predicate IsAlphaNum(b: byte) { IsAlpha(b) || IsNum(b) }

  /** The token table: the lower-cased byte, or 0 when the byte may not occur in a header name.
      Space, double quote and slash are tokens here. */
  function Token(b: byte): byte {
    if SP <= b <= 39 || b == STAR || b == 43 || DASH <= b <= DIGIT_9 || 94 <= b <= 122 || 124 <= b <= 126 then b
    else if A_ <= b <= 90 then b + 32
    else 0
  }

  /** Bytes from 128 on read as digit 0: the table only initialises its first half. */
  function Unhex(b: byte): (v: int)
    ensures -1 <= v < 16
  {
    if IsNum(b) then b - DIGIT_0
    else if A_ <= b <= F_ then b - A_ + 10
    else if LOW_A <= b <= LOW_F then b - LOW_A + 10
    else if b >= 128 then 0
    else -1
  }

  predicate IsUrlChar(strict: bool, b: byte) {
    33 <= b <= 34 || 36 <= b <= 62 || 64 <= b <= 126 || (!strict && b >= 128)
  }

  predicate IsHostChar(strict: bool, b: byte) {
    IsAlphaNum(b) || b == DOT || b == DASH || (!strict && b == UNDERSCORE)
  }
}
