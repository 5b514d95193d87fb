/**
  The numpy array reshapes of `_read_main_framebuffer` (renderer.py): a flat
  readback buffer laid out row by row, and the vertical flip that puts the
  image's top row first (OpenGL reads the bottom row first).
 */
module Images {
  /** Position of element (row, col) in a buffer laid out row by row with
      `width` elements per row. */
  function Offset(row: nat, width: nat, col: nat): nat {
    row * width + col
  }

  /** `buf.reshape((height, width))`: `height` rows of `width` consecutive elements. */
  function Reshape<T>(buf: seq<T>, height: nat, width: nat): (rows: seq<seq<T>>)
    requires |buf| == height * width
    ensures |rows| == height
    ensures forall i :: 0 <= i < height ==> |rows[i]| == width
    decreases height
  {
    if height == 0 then []
    else
      assert height * width == (height - 1) * width + width;
      [buf[..width]] + Reshape(buf[width..], height - 1, width)
  }

  /** Element (i, j) of the reshaped buffer is element i * width + j of the flat buffer. */
  lemma {:induction false} ReshapeAt<T>(buf: seq<T>, height: nat, width: nat, i: nat, j: nat)
    requires |buf| == height * width
    requires i < height && j < width
    ensures Offset(i, width, j) < |buf|
    ensures Reshape(buf, height, width)[i][j] == buf[Offset(i, width, j)]
  {
    assert height * width == (height - 1) * width + width;
    var rest := buf[width..];
    assert Reshape(buf, height, width) == [buf[..width]] + Reshape(rest, height - 1, width);
    if i > 0 {
      ReshapeAt(rest, height - 1, width, i - 1, j);
      assert (i - 1) * width + j + width == i * width + j;
      assert rest[(i - 1) * width + j] == buf[i * width + j];
    }
  }

  /** Every cell of the reshaped buffer, at once (see ReshapeAt). */
  lemma ReshapeCells<T>(buf: seq<T>, height: nat, width: nat)
    requires |buf| == height * width
    ensures forall i, j :: 0 <= i < height && 0 <= j < width ==>
      Offset(i, width, j) < |buf| && Reshape(buf, height, width)[i][j] == buf[Offset(i, width, j)]
  {
    forall i, j | 0 <= i < height && 0 <= j < width
      ensures Offset(i, width, j) < |buf| && Reshape(buf, height, width)[i][j] == buf[Offset(i, width, j)]
    {
      ReshapeAt(buf, height, width, i, j);
    }
  }

  /** A property every element of the flat buffer has, every element of the
      reshaped buffer has. */
  lemma {:induction false} ReshapeKeeps<T>(buf: seq<T>, height: nat, width: nat, p: T -> bool)
    requires |buf| == height * width
    requires forall k :: 0 <= k < |buf| ==> p(buf[k])
    ensures forall i, j :: 0 <= i < height && 0 <= j < width ==> p(Reshape(buf, height, width)[i][j])
    decreases height
  {
    if height > 0 {
      assert height * width == (height - 1) * width + width;
      var rest := buf[width..];
      ReshapeKeeps(rest, height - 1, width, p);
      assert Reshape(buf, height, width) == [buf[..width]] + Reshape(rest, height - 1, width);
    }
  }

  /** `np.flip(rows, axis=0)`: row i of the result is row |rows| - 1 - i of the input. */
  function FlipRows<T>(rows: seq<seq<T>>): (flipped: seq<seq<T>>)
    ensures |flipped| == |rows|
    ensures forall i :: 0 <= i < |rows| ==> flipped[i] == rows[|rows| - 1 - i]
  {
    if rows == [] then [] else FlipRows(rows[1..]) + [rows[0]]
  }

  /** Reshaping then flipping: cell (i, j) is element (height - 1 - i) *
      width + j of the flat buffer. */
  lemma FlippedAt<T>(buf: seq<T>, height: nat, width: nat, i: nat, j: nat)
    requires |buf| == height * width
    requires i < height && j < width
    ensures Offset(height - 1 - i, width, j) < |buf|
    ensures FlipRows(Reshape(buf, height, width))[i][j] == buf[Offset(height - 1 - i, width, j)]
  {
    ReshapeAt(buf, height, width, height - 1 - i, j);
  }
}
