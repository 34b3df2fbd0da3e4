/**
 * `Term<T>` of src/main.rs: a fixed-size buffer of optional cells with a
 * cursor, updated in place. Every method is proved against the function
 * of module `Grid` that gives its meaning on a snapshot of the fields.
 */
module Terminal {
  import opened Wrappers
  import opened Grid

  /** The inner `for _ in 0..width { buffer.push(None) }` loop. */
  method NewBlankRow<T>(width: nat) returns (row: Row<T>)
    ensures row == BlankRow(width)
  {
    row := [];
    for i := 0 to width
      invariant |row| == i
      invariant forall j :: 0 <= j < i ==> row[j] == None
    {
      row := row + [None];
    }
  }

  /** The nested loops of `Default::default`: `height` pushes of a blank row. */
  method NewBlankRows<T>(width: nat, height: nat) returns (rows: seq<Row<T>>)
    ensures rows == BlankRows(width, height)
  {
    rows := [];
    for i := 0 to height
      invariant |rows| == i
      invariant forall j :: 0 <= j < i ==> rows[j] == BlankRow(width)
    {
      var row := NewBlankRow(width);
      rows := rows + [row];
    }
  }

  class Term<T> {
    const width: nat
    const height: nat
    var x: nat
    var y: nat
    var buffers: seq<Row<T>>

    /** The whole state as a value. */
    function View(): (s: State<T>)
      reads this
    {
      State(width, height, x, y, buffers)
    }

    predicate Shaped()
      reads this
    {
      Grid.Shaped(View())
    }

    predicate Valid()
      reads this
    {
      Grid.Valid(View())
    }

    /** A grid of any positive size, blank, with the cursor at the origin. */
    constructor (width: nat, height: nat)
      requires width > 0 && height > 0
      ensures View() == Initial(width, height)
      ensures Valid()
    {
      this.width := width;
      this.height := height;
      x, y := 0, 0;
      var rows := NewBlankRows(width, height);
      buffers := rows;
    }

    /** `Default::default` (and `Term::new`): 25 rows of 80 blank cells. */
    constructor Default()
      ensures View() == Initial(80, 25)
      ensures Valid()
    {
      width := 80;
      height := 25;
      x, y := 0, 0;
      var rows := NewBlankRows(80, 25);
      buffers := rows;
    }

    /** The getter `x()`. */
    function X(): (r: nat)
      reads this
      ensures Valid() ==> r < width
    {
      x
    }

    /** The getter `y()`. */
    function Y(): (r: nat)
      reads this
      ensures Valid() ==> r < height
    {
      y
    }

    /** The getter `buffers()`. */
    function Buffers(): (r: seq<Row<T>>)
      reads this
      ensures Shaped() ==> |r| == height && RowsShaped(r, width)
    {
      buffers
    }

    method CarriageReturn()
      modifies this`x
      ensures View() == Grid.CarriageReturn(old(View()))
      ensures old(Valid()) ==> Valid()
    {
      x := 0;
    }

    method LineFeed()
      requires Shaped()
      modifies this`y, this`buffers
      ensures View() == Grid.LineFeed(old(View()))
      ensures old(Valid()) ==> Valid()
    {
      y := y + 1;
      if y >= height {
        var _ := RotateBuffer(1);
        y := SaturatingSub(height, 1);
      }
    }

    method PushElement(v: Option<T>) returns (r: Result<(), Error>)
      requires Shaped()
      modifies this`x, this`y, this`buffers
      ensures match Grid.Push(old(View()), v)
        case Ok(g) => r == Ok(()) && View() == g
        case Err(e) => r == Err(e) && View() == old(View())
      ensures old(Valid()) ==> r.Ok? && Valid()
    {
      if y < |buffers| && x < |buffers[y]| {
        buffers := buffers[y := buffers[y][x := v]];
        x := x + 1;
        if x >= width {
          x := 0;
          LineFeed();
        }
        r := Ok(());
      } else {
        r := Err(CantPushElement);
      }
    }

    method RotateBuffer(n: nat) returns (r: Result<(), Error>)
      requires n == 0 || |buffers| > 0
      modifies this`buffers
      ensures buffers == Rotated(old(buffers), width, n)
      ensures r == Ok(())
    {
      for i := 0 to n
        invariant buffers == Rotated(old(buffers), width, i)
      {
        var rest := buffers[1..];
        var row := NewBlankRow(width);
        buffers := rest + [row];
      }
      r := Ok(());
    }
  }

  /** The `match buf[0]` in `run`, applied to the terminal of the window. */
  method Dispatch(t: Term<char>, b: byte) returns (r: Result<(), Error>)
    requires t.Shaped()
    modifies t
    ensures b == CR ==> r == Ok(()) && t.View() == Grid.CarriageReturn(old(t.View()))
    ensures b == LF ==> r == Ok(()) && t.View() == Grid.LineFeed(old(t.View()))
    ensures b != CR && b != LF ==> match Push(old(t.View()), Some(CharOf(b)))
      case Ok(g) => r == Ok(()) && t.View() == g
      case Err(e) => r == Err(e) && t.View() == old(t.View())
    ensures match Feed(old(t.View()), b)
      case Ok(g) => r == Ok(()) && t.View() == g
      case Err(e) => r == Err(e) && t.View() == old(t.View())
  {
    if b == CR {
      t.CarriageReturn();
      r := Ok(());
    } else if b == LF {
      t.LineFeed();
      r := Ok(());
    } else {
      r := t.PushElement(Some(CharOf(b)));
    }
  }

  /** The byte-handling part of `run`: bytes of the shell's output, in order,
      until the stream ends (success) or a push fails (the error propagates). */
  method Run(t: Term<char>, input: seq<byte>) returns (r: Result<(), Error>)
    requires t.Shaped()
    modifies t
    ensures match FeedAll(old(t.View()), input)
      case Ok(g) => r == Ok(()) && t.View() == g
      case Err(e) => r == Err(e)
  {
    var i := 0;
    while i < |input|
      invariant i <= |input| && t.Shaped()
      invariant FeedAll(old(t.View()), input) == FeedAll(t.View(), input[i..])
    {
      assert input[i..][1..] == input[i + 1..];
      r := Dispatch(t, input[i]);
      if r.Err? {
        return;
      }
      i := i + 1;
    }
    r := Ok(());
  }
}
