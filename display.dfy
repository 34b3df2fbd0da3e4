/** The cell-to-glyph mapping `redraw` applies before drawing each cell. */
module Display {
  import opened Wrappers

  /** Rust's `char::is_control`: the Unicode category Cc, code points
      0 to 0x1F and 0x7F to 0x9F. */
  function IsControl(c: char): (b: bool)
    ensures b ==> c as int < 0xA0
    ensures c as int < 0x20 || c as int == 0x7F ==> b
    ensures 0x20 <= c as int < 0x7F ==> !b
  {
    c as int <= 0x1F || 0x7F <= c as int <= 0x9F
  }

  /** An unset cell or a control character is drawn as a space; any other
      character as itself. */
  function Glyph(cell: Option<char>): (g: char)
    ensures !IsControl(g)
    ensures cell.Some? && !IsControl(cell.value) ==> g == cell.value
    ensures cell.None? || IsControl(cell.value) ==> g == ' '
  {
    match cell
    case Some(c) => if !IsControl(c) then c else ' '
    case None => ' '
  }

  /** A corollary of `Glyph`'s contract: a drawn glyph, stored back into a
      cell, draws as itself. */
  lemma GlyphIdempotent(cell: Option<char>)
    ensures Glyph(Some(Glyph(cell))) == Glyph(cell)
  {
  }
}
