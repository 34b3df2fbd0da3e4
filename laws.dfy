/**
 * Laws about sequences of grid operations: the invariant over a whole byte
 * stream, the wrap law for a full row of bytes, the scroll law for repeated
 * line feeds, and the small boundary scenarios of a 3 by 2 grid.
 */
module GridLaws {
  import opened Wrappers
  import opened Grid

  /** No byte of `bs` is `\r` or `\n`, so each one is pushed. */
  predicate Printable(bs: seq<byte>) {
    forall i :: 0 <= i < |bs| ==> bs[i] != CR && bs[i] != LF
  }

  /** The cells a run of pushed bytes leaves in a row. */
  function Cells(bs: seq<byte>): (r: Row<char>)
    ensures |r| == |bs|
    ensures forall i :: 0 <= i < |bs| ==> r[i] == Some(CharOf(bs[i]))
  {
    seq(|bs|, i requires 0 <= i < |bs| => Some(CharOf(bs[i])))
  }

  /** From a valid grid, no byte stream ever reaches the error of
      `push_element`, and the grid stays valid. */
  lemma {:induction false} FeedAllValid(g: State<char>, bs: seq<byte>)
    requires Valid(g)
    ensures FeedAll(g, bs).Ok? && Valid(FeedAll(g, bs).value)
    decreases |bs|
  {
    if bs != [] {
      FeedAllValid(Feed(g, bs[0]).value, bs[1..]);
    }
  }

  /** `n` line feeds one after the other. */
  function LineFeeds<T>(g: State<T>, n: nat): (r: State<T>)
    requires Shaped(g)
    ensures Shaped(r) && r.width == g.width && r.height == g.height
    decreases n
  {
    if n == 0 then g else LineFeed(LineFeeds(g, n - 1))
  }

  /** `n` line feeds from row `y` reach row `y + n`, or stop on the last row
      having scrolled once for every line feed past it. */
  lemma {:induction false} LineFeedsAt<T>(g: State<T>, n: nat)
    requires Shaped(g) && g.y < g.height
    ensures LineFeeds(g, n).x == g.x
    ensures g.y + n < g.height ==> LineFeeds(g, n).y == g.y + n && LineFeeds(g, n).rows == g.rows
    ensures g.y + n >= g.height ==>
      LineFeeds(g, n).y == g.height - 1 &&
      LineFeeds(g, n).rows == Rotated(g.rows, g.width, g.y + n - (g.height - 1))
    decreases n
  {
    if n > 0 {
      LineFeedsAt(g, n - 1);
    }
  }

  /** Scroll law: `height` line feeds from the top row evict the original top
      row, append one blank row and leave the cursor on the last row. */
  lemma ScrollLaw<T>(g: State<T>)
    requires Valid(g) && g.y == 0
    ensures Valid(LineFeeds(g, g.height))
    ensures LineFeeds(g, g.height).y == g.height - 1
    ensures LineFeeds(g, g.height).rows == g.rows[1..] + [BlankRow(g.width)]
  {
    LineFeedsAt(g, g.height);
  }

  /** The row being filled, from column `k` on, when the first `k` bytes of a
      full row have been pushed. */
  lemma {:induction false} FillFrom(g: State<char>, bs: seq<byte>, k: nat)
    requires Valid(g) && g.x == k && |bs| == g.width && k < |bs| && Printable(bs)
    requires forall j :: 0 <= j < k ==> g.rows[g.y][j] == Some(CharOf(bs[j]))
    ensures FeedAll(g, bs[k..]) == Ok(LineFeed(g.(x := 0, rows := g.rows[g.y := Cells(bs)])))
    decreases |bs| - k
  {
    assert bs[k..][0] == bs[k];
    assert bs[k..][1..] == bs[k + 1..];
    var g1 := Feed(g, bs[k]).value;
    if k + 1 < |bs| {
      assert g1 == g.(rows := Put(g.rows, g.y, k, Some(CharOf(bs[k]))), x := k + 1);
      assert g1.(x := 0, rows := g1.rows[g.y := Cells(bs)]) == g.(x := 0, rows := g.rows[g.y := Cells(bs)]);
      FillFrom(g1, bs, k + 1);
    } else {
      assert Put(g.rows, g.y, k, Some(CharOf(bs[k])))[g.y] == Cells(bs);
      assert Put(g.rows, g.y, k, Some(CharOf(bs[k]))) == g.rows[g.y := Cells(bs)];
      assert bs[k + 1..] == [];
    }
  }

  /** Wrap law: pushing `width` bytes from column 0 fills the cursor's row and
      wraps to column 0 of the next row, scrolling when it was the last. */
  lemma WrapLaw(g: State<char>, bs: seq<byte>)
    requires Valid(g) && g.x == 0 && |bs| == g.width && Printable(bs)
    ensures var r := LineFeed(g.(rows := g.rows[g.y := Cells(bs)]));
      && FeedAll(g, bs) == Ok(r)
      && r.x == 0
      && (g.y + 1 < g.height ==> r.y == g.y + 1 && r.rows == g.rows[g.y := Cells(bs)])
      && (g.y + 1 == g.height ==> r.y == g.y && r.rows == g.rows[g.y := Cells(bs)][1..] + [BlankRow(g.width)])
  {
    assert bs[0..] == bs;
    FillFrom(g, bs, 0);
  }

  /** A carriage return followed by a printable byte overwrites column 0 of the
      cursor's row and leaves the row index alone. */
  lemma CarriageReturnOverwrite(g: State<char>, b: byte)
    requires Valid(g) && g.width > 1 && b != CR && b != LF
    ensures FeedAll(g, [CR, b]) == Ok(g.(x := 1, rows := Put(g.rows, g.y, 0, Some(CharOf(b)))))
  {
    var g1 := CarriageReturn(g);
    assert [CR, b][1..] == [b];
    assert [b][1..] == [];
    assert FeedAll(g, [CR, b]) == FeedAll(g1, [b]);
    assert FeedAll(g1, [b]) == Push(g1, Some(CharOf(b)));
  }

  // Boundary scenarios on a grid 3 cells wide and 2 rows high.

  /** Pushing `a`, `b`, `c` on a blank 3 by 2 grid moves the cursor through
      (1,0) and (2,0), then wraps to (0,1); row 0 holds the three letters. */
  lemma ScenarioWrap()
    ensures Push(Initial<char>(3, 2), Some('a')).value.x == 1
    ensures Push(Initial<char>(3, 2), Some('a')).value.y == 0
    ensures Push(Push(Initial<char>(3, 2), Some('a')).value, Some('b')).value.x == 2
    ensures Push(Push(Initial<char>(3, 2), Some('a')).value, Some('b')).value.y == 0
    ensures FeedAll(Initial(3, 2), [97, 98, 99]) ==
      Ok(State(3, 2, 0, 1, [[Some('a'), Some('b'), Some('c')], [None, None, None]]))
  {
    var g: State<char> := Initial(3, 2);
    var bs: seq<byte> := [97, 98, 99];
    WrapLaw(g, bs);
    assert Cells(bs) == [Some('a'), Some('b'), Some('c')];
    assert g.rows[1] == [None, None, None];
    assert g.rows[0 := Cells(bs)] == [Cells(bs), g.rows[1]];
  }

  /** From there, `d` and a line feed on the last row scroll: the old row 1
      becomes row 0, a blank row 1 appears, and the cursor stays on row 1. */
  lemma ScenarioScroll()
    ensures FeedAll(State(3, 2, 0, 1, [[Some('a'), Some('b'), Some('c')], [None, None, None]]), [100, LF]) ==
      Ok(State(3, 2, 1, 1, [[Some('d'), None, None], [None, None, None]]))
  {
    var g: State<char> := State(3, 2, 0, 1, [[Some('a'), Some('b'), Some('c')], [None, None, None]]);
    var bs: seq<byte> := [100, LF];
    assert bs[1..] == [LF];
    assert [LF][1..] == [];
    assert CharOf(100) == 'd';
    var g1 := Push(g, Some('d')).value;
    assert g1 == g.(rows := Put(g.rows, 1, 0, Some('d')), x := 1);
    assert g.rows[1][0 := Some('d')] == [Some('d'), None, None];
    assert Put(g.rows, 1, 0, Some('d')) == [[Some('a'), Some('b'), Some('c')], [Some('d'), None, None]];
    assert g1.rows[1..] == [[Some('d'), None, None]];
    assert FeedAll(g, bs) == FeedAll(g1, [LF]);
    assert FeedAll(g1, [LF]) == Ok(LineFeed(g1));
    assert BlankRow<char>(3) == [None, None, None];
    assert LineFeed(g1) == State(3, 2, 1, 1, [[Some('d'), None, None], [None, None, None]]);
  }
}
