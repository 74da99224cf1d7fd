/** JavaScript strings: sequences of UTF-16 code units. */
module JsText {
  newtype CodeUnit = x: int | 0 <= x < 0x1_0000

  type Text = seq<CodeUnit>
}
