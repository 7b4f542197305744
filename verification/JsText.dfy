/** JavaScript strings: sequences of 16-bit code units, lone surrogates included. */
module JsText {
  type Unit = n: nat | n < 0x1_0000
  type Text = seq<Unit>

  const LF: Unit := 10
  const CR: Unit := 13
  const SPACE: Unit := 32
  const QUOTE: Unit := 34
  const APOSTROPHE: Unit := 39
  const PLUS: Unit := 43
  const COMMA: Unit := 44
  const MINUS: Unit := 45
  const ZERO: Unit := 48
  const NINE: Unit := 57
  const EQUALS: Unit := 61
  const AT: Unit := 64
}
