/**
 * The terminal grid as a value: its fixed dimensions, its cursor and its
 * rows of optional cells, with one function per operation of `Term<T>`
 * (src/main.rs). The class `Terminal.Term` is proved against these
 * functions; the laws about several operations are in module `GridLaws`.
 */
module Grid {
  import opened Wrappers

  /** One byte read from the pseudoterminal master. */
  newtype byte = b: int | 0 <= b < 256

  /** `b'\r'` and `b'\n'`, the two bytes the dispatch treats specially. */
  const CR: byte := 13
  const LF: byte := 10

  /** The program's error kinds; the grid can only fail with CantPushElement. */
  datatype Error = CantOpenDisplay | CantLoadBgColor | CantLoadFgColor | CantSpawn | CantPushElement

  type Row<T> = seq<Option<T>>

  /** A snapshot of a `Term<T>`: every field of the Rust struct. */
  datatype State<T> = State(width: nat, height: nat, x: nat, y: nat, rows: seq<Row<T>>)

  /** Every row has `width` cells. */
  predicate RowsShaped<T>(rows: seq<Row<T>>, width: nat) {
    forall i :: 0 <= i < |rows| ==> |rows[i]| == width
  }

  /** The shape every terminal keeps whatever its cursor: positive dimensions,
      `height` rows of `width` cells each. */
  predicate Shaped<T>(g: State<T>) {
    g.width > 0 && g.height > 0 && |g.rows| == g.height && RowsShaped(g.rows, g.width)
  }

  /** The full invariant: the shape, and the cursor inside the grid. */
  predicate Valid<T>(g: State<T>) {
    Shaped(g) && g.x < g.width && g.y < g.height
  }

  /** `u32::saturating_sub`: subtraction that stops at zero. */
  function SaturatingSub(a: nat, b: nat): (r: nat)
    ensures a >= b ==> r + b == a
    ensures a < b ==> r == 0
  {
    if a >= b then a - b else 0
  }

  /** A row of `width` unset cells, as the inner loops of `default` and
      `rotate_buffer` build it. */
  function BlankRow<T>(width: nat): (r: Row<T>)
    ensures |r| == width
    ensures forall i :: 0 <= i < width ==> r[i] == None
    decreases width
  {
    if width == 0 then [] else BlankRow(width - 1) + [None]
  }

  /** `height` blank rows of `width` cells. */
  function BlankRows<T>(width: nat, height: nat): (r: seq<Row<T>>)
    ensures |r| == height && RowsShaped(r, width)
    ensures forall i :: 0 <= i < height ==> r[i] == BlankRow(width)
    decreases height
  {
    if height == 0 then [] else BlankRows(width, height - 1) + [BlankRow(width)]
  }

  /** The grid `Default::default` builds, for any dimensions. */
  function Initial<T>(width: nat, height: nat): (g: State<T>)
    requires width > 0 && height > 0
    ensures Valid(g) && g.x == 0 && g.y == 0
    ensures g.width == width && g.height == height
    ensures forall i, j :: 0 <= i < height && 0 <= j < width ==> g.rows[i][j] == None
  {
    State(width, height, 0, 0, BlankRows(width, height))
  }

  /** One pass of the `rotate_buffer` loop: `remove(0)`, then push a blank row. */
  function Evict<T>(rows: seq<Row<T>>, width: nat): (r: seq<Row<T>>)
    requires |rows| > 0
    ensures |r| == |rows|
    ensures RowsShaped(rows, width) ==> RowsShaped(r, width)
  {
    rows[1..] + [BlankRow(width)]
  }

  /** `rotate_buffer(n)`: `n` evictions in a row. `remove(0)` panics on an
      empty vector, so rows must exist unless nothing is rotated. */
  function Rotated<T>(rows: seq<Row<T>>, width: nat, n: nat): (r: seq<Row<T>>)
    requires n == 0 || |rows| > 0
    ensures |r| == |rows|
    ensures RowsShaped(rows, width) ==> RowsShaped(r, width)
    decreases n
  {
    if n == 0 then rows else Evict(Rotated(rows, width, n - 1), width)
  }

  /** Closed form of `n` evictions: row `i` is the old row `i + n`, or blank
      once the old rows are used up. */
  lemma {:induction false} RotatedAt<T>(rows: seq<Row<T>>, width: nat, n: nat, i: nat)
    requires n == 0 || |rows| > 0
    requires i < |rows|
    ensures Rotated(rows, width, n)[i] == if i + n < |rows| then rows[i + n] else BlankRow(width)
    decreases n
  {
    if n > 0 && i < |rows| - 1 {
      RotatedAt(rows, width, n - 1, i + 1);
    }
  }

  /** Setting one cell: the element assignment through `get_mut`. */
  function Put<T>(rows: seq<Row<T>>, y: nat, x: nat, v: Option<T>): (r: seq<Row<T>>)
    requires y < |rows| && x < |rows[y]|
    ensures |r| == |rows| && forall i :: 0 <= i < |rows| ==> |r[i]| == |rows[i]|
    ensures r[y][x] == v
    ensures forall i, j :: 0 <= i < |rows| && 0 <= j < |rows[i]| && (i != y || j != x) ==>
      r[i][j] == rows[i][j]
  {
    rows[y := rows[y][x := v]]
  }

  /** `carriage_return`. */
  function CarriageReturn<T>(g: State<T>): (r: State<T>)
    ensures r.x == 0 && r.y == g.y && r.rows == g.rows
    ensures r.width == g.width && r.height == g.height
    ensures Shaped(g) ==> Shaped(r)
    ensures Shaped(g) && g.y < g.height ==> Valid(r)
  {
    g.(x := 0)
  }

  /** `line_feed`: the cursor moves down a row; past the bottom the grid
      scrolls by one row and the cursor stays on the last row. */
  function LineFeed<T>(g: State<T>): (r: State<T>)
    requires Shaped(g)
    ensures Shaped(r) && r.y < r.height
    ensures r.width == g.width && r.height == g.height && r.x == g.x
    ensures g.y + 1 < g.height ==> r.y == g.y + 1 && r.rows == g.rows
    ensures g.y + 1 >= g.height ==>
      r.y == g.height - 1 && r.rows == g.rows[1..] + [BlankRow(g.width)]
    ensures Valid(g) ==> Valid(r)
  {
    if g.y + 1 < g.height then g.(y := g.y + 1)
    else g.(rows := Rotated(g.rows, g.width, 1), y := SaturatingSub(g.height, 1))
  }

  /** `push_element`: write `v` under the cursor and advance it, wrapping to the
      next line at the right margin. Fails, changing nothing, when the cursor
      does not name a cell. */
  function Push<T>(g: State<T>, v: Option<T>): (r: Result<State<T>, Error>)
    requires Shaped(g)
    ensures r.Err? <==> g.x >= g.width || g.y >= g.height
    ensures r.Err? ==> r.error == CantPushElement
    ensures r.Ok? ==> Valid(r.value) && r.value.width == g.width && r.value.height == g.height
    ensures r.Ok? && g.x + 1 < g.width ==>
      r.value == g.(rows := Put(g.rows, g.y, g.x, v), x := g.x + 1)
    ensures r.Ok? && g.x + 1 == g.width && g.y + 1 < g.height ==>
      r.value == g.(rows := Put(g.rows, g.y, g.x, v), x := 0, y := g.y + 1)
    ensures r.Ok? && g.x + 1 == g.width && g.y + 1 == g.height ==>
      r.value == g.(rows := Put(g.rows, g.y, g.x, v)[1..] + [BlankRow(g.width)], x := 0)
    ensures Valid(g) ==> r.Ok?
  {
    if g.y < |g.rows| && g.x < |g.rows[g.y]| then
      var w := g.(rows := Put(g.rows, g.y, g.x, v), x := g.x + 1);
      if w.x >= w.width then Ok(LineFeed(w.(x := 0))) else Ok(w)
    else
      Err(CantPushElement)
  }

  /** The character a byte becomes (`u8` into `char`: code points 0 to 255). */
  function CharOf(b: byte): (c: char)
    ensures c as int == b as int
  {
    (b as int) as char
  }

  /** The per-byte `match` in `run`: `\r` is a carriage return, `\n` a line
      feed, and every other byte is pushed as a character. */
  function Feed(g: State<char>, b: byte): (r: Result<State<char>, Error>)
    requires Shaped(g)
    ensures r.Ok? ==> Shaped(r.value) && r.value.width == g.width && r.value.height == g.height
    ensures r.Err? ==> b != CR && b != LF && (g.x >= g.width || g.y >= g.height)
    ensures r.Err? ==> r.error == CantPushElement
    ensures Valid(g) ==> r.Ok? && Valid(r.value)
  {
    if b == CR then Ok(CarriageReturn(g))
    else if b == LF then Ok(LineFeed(g))
    else Push(g, Some(CharOf(b)))
  }

  /** The bytes of a stream handled one by one; the first error ends the
      stream, as `?` ends `run`. */
  function FeedAll(g: State<char>, bs: seq<byte>): (r: Result<State<char>, Error>)
    requires Shaped(g)
    ensures r.Ok? ==> Shaped(r.value) && r.value.width == g.width && r.value.height == g.height
    decreases |bs|
  {
    if bs == [] then Ok(g)
    else
      match Feed(g, bs[0])
      case Err(e) => Err(e)
      case Ok(g') => FeedAll(g', bs[1..])
  }
}
