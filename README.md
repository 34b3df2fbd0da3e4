# toyterm terminal grid, in Dafny

toyterm is a small X11 terminal emulator. Its shell writes bytes to a
pseudoterminal, and toyterm keeps them in a character grid, `Term<T>`. The grid
has a fixed width and height, a cursor `(x, y)` and `height` rows of `width`
optional cells. This project models that grid and proves its behaviour:

- `carriage_return` moves the cursor to column 0.
- `line_feed` moves the cursor down one row. Past the bottom row it scrolls:
  `rotate_buffer(1)` drops the top row and appends a blank one.
- `push_element` writes a cell under the cursor and advances the cursor. At
  the right margin it wraps and line-feeds. If the cursor is not on a cell it
  fails with `CantPushElement` and changes nothing.
- The byte loop of `run` sends `\r` and `\n` to the first two operations and
  pushes every other byte as a character.
- `redraw` maps each cell to the glyph it draws.

Layout:

- `wrappers.dfy`: module `Wrappers`, Rust's `Option` and `Result`.
- `grid.dfy`: module `Grid`. A snapshot `State<T>` of the struct's fields and
  one function per operation, with its contract. `Shaped` is the shape every
  terminal keeps whatever its cursor: positive dimensions, `height` rows of
  `width` cells. `Valid` is `Shaped` plus a cursor inside the grid.
- `terminal.dfy`: module `Terminal`. The class `Term<T>`, whose methods update
  `x`, `y` and `buffers` in place as the Rust methods do. Each method's
  contract ties the new state (`View()`) to the `Grid` function of the old
  state. Also the row-building loops, the byte dispatch, and the byte loop of
  `run`.
- `laws.dfy`: module `GridLaws`. The invariant over a whole byte stream, the
  wrap law, the scroll law, and boundary scenarios on a 3 by 2 grid.
- `display.dfy`: module `Display`, the cell-to-glyph mapping.

The operations require only `Shaped`, so the error branch of `push_element`
can be reached (cursor off the grid) and is proved to leave the state
unchanged. From a `Valid` state every operation stays `Valid`, and the error
branch is proved unreachable. The source's error test looks at the rows
themselves (`get_mut(y)`, then `get_mut(x)`); the model does the same. Under
`Shaped` this is the same as `x >= width || y >= height`.

## Model

| member | source | states |
|---|---|---|
| `Grid.BlankRow` | src/main.rs:148-151 | the row the `buffer.push(None)` loop builds has `width` cells, all unset |
| `Grid.BlankRows` | src/main.rs:165-174 | the rows `default` builds: `height` rows of `width` unset cells |
| `Grid.Initial` | src/main.rs:160-184 | the default grid is valid, blank everywhere, with the cursor at (0,0) and the given dimensions |
| `Grid.SaturatingSub` | src/main.rs:119 | `saturating_sub` is exact subtraction when there is no underflow, and 0 otherwise |
| `Grid.Evict` | src/main.rs:146-153 | one pass of the rotation loop keeps the row count and the row length `width` |
| `Grid.Rotated` | src/main.rs:144-157 | `rotate_buffer(n)` keeps the row count and, for rows of length `width`, every row's length; it needs a row unless `n` is 0, since `remove(0)` panics on an empty vector |
| `Grid.RotatedAt` | src/main.rs:144-157 | after `n` rotations row `i` is old row `i + n`, or a blank row once the old rows run out |
| `Grid.Put` | src/main.rs:124-130 | the assignment through `get_mut` sets cell (y, x) to the value and changes no other cell or row length |
| `Grid.CarriageReturn` | src/main.rs:109-111 | x becomes 0; y, the rows and the dimensions are unchanged; it keeps the shape, and validity when y is in range |
| `Grid.LineFeed` | src/main.rs:113-121 | if y+1 < height, y goes up by one and the rows stay the same; otherwise the rows become the old rows minus the first, plus one blank row, and y = height-1; x is unchanged and the result is shaped, with y in range |
| `Grid.Push` | src/main.rs:123-142 | fails with `CantPushElement` exactly when the cursor is off the grid; otherwise the result is valid: cell (y,x) is written and x advances, or at the margin x wraps to 0 and y advances or the grid scrolls; from a valid grid it never fails |
| `Grid.CharOf` | src/main.rs:468 | `c.into()` from `u8` to `char` gives the character whose code point is the byte's value (U+0000 to U+00FF) |
| `Grid.Feed` | src/main.rs:462-470 | dispatching a byte keeps the shape; it fails only on a pushed byte (not `\r` or `\n`) with the cursor off the grid; from a valid grid it succeeds and stays valid |
| `Grid.FeedAll` | src/main.rs:454-473 | processing a stream of bytes in order keeps the shape and the dimensions |
| `GridLaws.FeedAllValid` | src/main.rs:462-470 | from a valid grid, every byte stream is processed without error and leaves a valid grid |
| `GridLaws.LineFeeds` | src/main.rs:113-121 | repeated line feeds keep the shape and the dimensions |
| `GridLaws.LineFeedsAt` | src/main.rs:113-121 | n line feeds from row y reach row y+n with the rows unchanged, or stop on the last row after one scroll per line feed past it |
| `GridLaws.ScrollLaw` | src/main.rs:113-157 | `height` line feeds from row 0 evict the top row, append one blank row, keep the grid valid and leave y = height-1 |
| `GridLaws.FillFrom` | src/main.rs:123-138 | once the first k bytes of a full row are in place, the remaining bytes finish the row and line-feed |
| `GridLaws.WrapLaw` | src/main.rs:123-138 | pushing `width` non-control bytes from (0,y) fills row y and ends at (0,y+1), or, on the last row, scrolls with the filled row moving up |
| `GridLaws.CarriageReturnOverwrite` | src/main.rs:109-138 | `\r` then a pushed byte overwrites column 0 of the cursor's row and leaves y unchanged, with x = 1 |
| `GridLaws.ScenarioWrap` | src/main.rs:123-138 | on a 3 by 2 grid, `a`, `b`, `c` move the cursor through (1,0) and (2,0), wrap to (0,1), and fill row 0 |
| `GridLaws.ScenarioScroll` | src/main.rs:113-138 | from that state, `d` then `\n` on the last row scroll: the old row 1 becomes row 0, row 1 is blank, and the cursor stays on row 1 |
| `Terminal.NewBlankRow` | src/main.rs:148-151 | the loop builds exactly `BlankRow(width)` |
| `Terminal.NewBlankRows` | src/main.rs:165-174 | the nested loops build exactly `height` blank rows of `width` cells |
| `Terminal.Term.constructor` | src/main.rs:160-184 | a terminal of any positive size starts as `Initial(width, height)`: valid, blank, cursor at the origin |
| `Terminal.Term.Default` | src/main.rs:160-184 | `Default::default` starts as `Initial(80, 25)` |
| `Terminal.Term.X` | src/main.rs:97-99 | the getter returns a column inside the grid when the terminal is valid |
| `Terminal.Term.Y` | src/main.rs:101-103 | the getter returns a row inside the grid when the terminal is valid |
| `Terminal.Term.Buffers` | src/main.rs:105-107 | the getter returns `height` rows of `width` cells when the terminal is shaped |
| `Terminal.Term.CarriageReturn` | src/main.rs:109-111 | the new state is `Grid.CarriageReturn` of the old one (only x changes, to 0), and validity is kept |
| `Terminal.Term.LineFeed` | src/main.rs:113-121 | the new state is `Grid.LineFeed` of the old one, and validity is kept |
| `Terminal.Term.PushElement` | src/main.rs:123-142 | on success the new state is `Grid.Push` of the old one; on `CantPushElement` the state is unchanged; from a valid state it succeeds and stays valid |
| `Terminal.Term.RotateBuffer` | src/main.rs:144-157 | the buffer becomes `Rotated(old buffer, width, n)` and the result is always `Ok` |
| `Terminal.Dispatch` | src/main.rs:462-470 | `\r` acts exactly as `carriage_return`, `\n` exactly as `line_feed`, and any other byte as `push_element(Some(byte as char))`, including its error with the state unchanged |
| `Terminal.Run` | src/main.rs:454-473 | the bytes are handled in order; the end of the stream ends the loop with `Ok` and the state `FeedAll` gives; a failed push ends it with that error |
| `Display.IsControl` | src/main.rs:345 | `char::is_control` holds only below U+00A0, holds for every C0 control and for DEL, and fails for every printable ASCII character |
| `Display.Glyph` | src/main.rs:344-347 | the glyph is never a control character; a non-control character draws as itself, and an unset cell or a control character draws as a space |
| `Display.GlyphIdempotent` | src/main.rs:344-347 | a corollary of `Glyph`'s contract: a drawn glyph stored back in a cell draws as itself |

## Left out

- `Pty::new`, `spawn` and `set_term_size` (src/main.rs:56-79, 407-447) are left out. They are pseudoterminal allocation, fork/exec and an ioctl, all operating-system calls.
- `X11::new` and the drawing in `redraw` (src/main.rs:196-381) are left out. They are X11 library calls: display, fonts, colours, window and drawing. Only the cell-to-glyph mapping is modelled, in `Display.Glyph`.
- `rw_key` (src/main.rs:383-405) is left out. It decodes keys with `XLookupString` and writes the bytes to the master descriptor one by one.
- The `select` wait, the X event drain and the `redraw` call after each byte (src/main.rs:449-491) are left out. They are blocking I/O on two descriptors. `Terminal.Run` keeps only the per-byte handling, over a finite input sequence.
- Terminal.Run: the end of the input stands for the failed `read` that ends the loop with `Ok`. A `read` that returns zero bytes without failing is not modelled.
- The `Display` strings of `Error` (src/main.rs:36-46) are left out. They are diagnostic text only. The error kinds themselves are `Grid.Error`.
- The `width()` and `height()` getters of the `Dimention` trait (src/main.rs:186-194) are the constant fields `width` and `height` of `Terminal.Term`. No separate function models them.
- Terminal.Term.LineFeed: does not model the `u32` overflow of `y += 1`. Integers here are unbounded. Overflow needs y = 2^32-1, and every shaped state reached by these operations has y < height.
- Terminal.Term.PushElement: does not model the `u32` overflow of `x += 1`. The increment follows a successful access, so x is already less than the row length `width`.
- `Term::new` (src/main.rs:93-95) is the same as `Default::default`, so `Terminal.Term.Default` covers both.
