/**
 * `mono_to_stereo`: a mono signal, as a torch tensor or a numpy array of
 * shape `(n,)` or `(n, 1)`, becomes a tensor of shape `(1, 2, n)` holding
 * the signal twice. The tensor path tiles columns (`repeat(1, 2)`), the
 * numpy path repeats each column in place (`np.repeat(.., 2, axis=1)`).
 */
module Stereo {
  import opened Common

  /** An input array of rank 1, or of rank 2 given row by row with `width` columns. */
  datatype Array = Flat(samples: seq<real>) | Grid(width: nat, rows: seq<seq<real>>)
  {
    /** Every row of a rank-2 array has `width` entries. */
    predicate WellFormed() {
      Grid? ==> forall i :: 0 <= i < |rows| ==> |rows[i]| == width
    }
  }

  /** The runtime type of the argument. */
  datatype Audio = TorchTensor(data: Array) | NumpyArray(data: Array) | OtherValue

  datatype TypeError = TypeError(message: string)

  /** A rank-3 result: `batch[b][c][t]`. */
  type Tensor3 = seq<seq<seq<real>>>

  /** `unsqueeze(1)` / `np.expand_dims(.., axis=1)`: `(n,)` becomes `(n, 1)`. */
  function AsColumn(x: seq<real>): (r: seq<seq<real>>)
    ensures |r| == |x| && forall i :: 0 <= i < |x| ==> r[i] == [x[i]]
  {
    seq(|x|, i requires 0 <= i < |x| => [x[i]])
  }

  /** A rank-2 view of the input. */
  function AsGrid(a: Array): (g: Array)
    ensures g.Grid?
    ensures a.WellFormed() ==> g.WellFormed()
  {
    match a
    case Flat(x) => Grid(1, AsColumn(x))
    case Grid(_, _) => a
  }

  /** `t.repeat(1, 2)` on one row: the row followed by itself. */
  function Tile(row: seq<real>): (r: seq<real>)
    ensures |r| == 2 * |row|
  {
    row + row
  }

  /** `np.repeat(row, 2)`: every entry twice in a row. */
  function Interleave(row: seq<real>): (r: seq<real>)
    ensures |r| == 2 * |row|
    ensures forall j :: 0 <= j < |r| ==> r[j] == row[j / 2]
  {
    seq(2 * |row|, j requires 0 <= j < 2 * |row| => row[j / 2])
  }

  /** Transpose of a `width`-column array given by rows. */
  function Transpose(width: nat, rows: seq<seq<real>>): (t: seq<seq<real>>)
    requires forall i :: 0 <= i < |rows| ==> |rows[i]| == width
    ensures |t| == width
    ensures forall c :: 0 <= c < width ==> |t[c]| == |rows| && forall i :: 0 <= i < |rows| ==> t[c][i] == rows[i][c]
  {
    seq(width, c requires 0 <= c < width => seq(|rows|, i requires 0 <= i < |rows| => rows[i][c]))
  }

  /** `repeat(1, 2)` on a rank-2 tensor. */
  function TileRows(rows: seq<seq<real>>): (r: seq<seq<real>>)
    ensures |r| == |rows| && forall i :: 0 <= i < |rows| ==> r[i] == Tile(rows[i])
  {
    seq(|rows|, i requires 0 <= i < |rows| => Tile(rows[i]))
  }

  /** `np.repeat(.., 2, axis=1)` on a rank-2 array. */
  function InterleaveRows(rows: seq<seq<real>>): (r: seq<seq<real>>)
    ensures |r| == |rows| && forall i :: 0 <= i < |rows| ==> r[i] == Interleave(rows[i])
  {
    seq(|rows|, i requires 0 <= i < |rows| => Interleave(rows[i]))
  }

  /** The tensor path: widen to rank 2, tile, transpose, add the batch axis. */
  function TorchPath(a: Array): Tensor3
    requires a.WellFormed()
  {
    var g := AsGrid(a);
    [Transpose(2 * g.width, TileRows(g.rows))]
  }

  /** The numpy path: widen to rank 2, repeat each column, transpose, add the batch axis. */
  function NumpyPath(a: Array): Tensor3
    requires a.WellFormed()
  {
    var g := AsGrid(a);
    [Transpose(2 * g.width, InterleaveRows(g.rows))]
  }

  /** `mono_to_stereo(audio)`; anything but a tensor or an ndarray raises `TypeError`. */
  function MonoToStereo(audio: Audio): (r: Result<Tensor3, TypeError>)
    requires !audio.OtherValue? ==> audio.data.WellFormed()
    ensures r.Err? <==> audio.OtherValue?
    ensures r.Ok? ==> |r.value| == 1 && |r.value[0]| == 2 * AsGrid(audio.data).width
    ensures r.Ok? ==> forall c :: 0 <= c < |r.value[0]| ==> |r.value[0][c]| == |AsGrid(audio.data).rows|
  {
    match audio
    case TorchTensor(a) => Ok(TorchPath(a))
    case NumpyArray(a) => Ok(NumpyPath(a))
    case OtherValue => Err(TypeError("audio must be either a torch.Tensor or a numpy.ndarray"))
  }

  // ---------------------------------------------------------------------
  // Properties

  /** A rank-1 signal of length n becomes `(1, 2, n)` with both channels equal to the signal, in order, on either path. */
  lemma MonoDuplicated(x: seq<real>)
    ensures MonoToStereo(TorchTensor(Flat(x))) == Ok([[x, x]])
    ensures MonoToStereo(NumpyArray(Flat(x))) == Ok([[x, x]])
  {
    var col := AsColumn(x);
    var tiled := TileRows(col);
    var spread := InterleaveRows(col);
    assert tiled == spread by {
      forall i | 0 <= i < |col| ensures tiled[i] == spread[i] {
        assert tiled[i] == [x[i], x[i]];
      }
    }
    var t := Transpose(2, tiled);
    assert t[0] == x;
    assert t[1] == x;
    assert t == [x, x];
  }

  /** `(n,)` widened to `(n, 1)` and transposed is the signal as one row. */
  lemma AsColumnTransposed(x: seq<real>)
    ensures Transpose(1, AsColumn(x)) == [x]
  {
    var t := Transpose(1, AsColumn(x));
    assert t[0] == x;
  }

  /** `np.repeat(row, 2)` holds entry i at positions 2i and 2i + 1. */
  lemma InterleavePairs(row: seq<real>)
    ensures forall i :: 0 <= i < |row| ==> Interleave(row)[2 * i] == row[i] && Interleave(row)[2 * i + 1] == row[i]
  {
    forall i | 0 <= i < |row|
      ensures Interleave(row)[2 * i] == row[i] && Interleave(row)[2 * i + 1] == row[i]
    {
      assert (2 * i) / 2 == i;
      assert (2 * i + 1) / 2 == i;
    }
  }

  /** Transposing twice gives the array back. */
  lemma TransposeInvolution(width: nat, rows: seq<seq<real>>)
    requires forall i :: 0 <= i < |rows| ==> |rows[i]| == width
    ensures Transpose(|rows|, Transpose(width, rows)) == rows
  {
    var t := Transpose(width, rows);
    var back := Transpose(|rows|, t);
    forall i | 0 <= i < |rows| ensures back[i] == rows[i] {
      assert |back[i]| == width;
    }
  }

  /** An `(n, 1)` input gives exactly what the `(n,)` input with the same samples gives. */
  lemma ColumnSameAsFlat(x: seq<real>)
    ensures MonoToStereo(TorchTensor(Grid(1, AsColumn(x)))) == MonoToStereo(TorchTensor(Flat(x)))
    ensures MonoToStereo(NumpyArray(Grid(1, AsColumn(x)))) == MonoToStereo(NumpyArray(Flat(x)))
  {
  }

  /** For at most one column the numpy path gives the same shape and values as the tensor path. */
  lemma NumpyAgreesOnMono(a: Array)
    requires a.WellFormed() && AsGrid(a).width <= 1
    ensures MonoToStereo(NumpyArray(a)) == MonoToStereo(TorchTensor(a))
  {
    var g := AsGrid(a);
    var tiled := TileRows(g.rows);
    var spread := InterleaveRows(g.rows);
    assert tiled == spread by {
      forall i | 0 <= i < |g.rows| ensures tiled[i] == spread[i] {
        if g.width == 1 {
          assert g.rows[i] == [g.rows[i][0]];
        }
      }
    }
  }

  /** Column `c` of a `width`-column array given by rows. */
  function Column(rows: seq<seq<real>>, c: nat): (col: seq<real>)
    requires forall i :: 0 <= i < |rows| ==> c < |rows[i]|
    ensures |col| == |rows| && forall i :: 0 <= i < |rows| ==> col[i] == rows[i][c]
  {
    seq(|rows|, i requires 0 <= i < |rows| => rows[i][c])
  }

  /**
   * With two columns a and b the paths disagree: tiling gives the channels
   * a, b, a, b and repeating gives a, a, b, b.
   */
  lemma PathsDifferOnTwoColumns(rows: seq<seq<real>>)
    requires forall i :: 0 <= i < |rows| ==> |rows[i]| == 2
    ensures var a, b := Column(rows, 0), Column(rows, 1);
      MonoToStereo(TorchTensor(Grid(2, rows))) == Ok([[a, b, a, b]])
    ensures var a, b := Column(rows, 0), Column(rows, 1);
      MonoToStereo(NumpyArray(Grid(2, rows))) == Ok([[a, a, b, b]])
  {
    var a, b := Column(rows, 0), Column(rows, 1);
    var tiled := TileRows(rows);
    var spread := InterleaveRows(rows);
    forall i | 0 <= i < |rows|
      ensures tiled[i] == [rows[i][0], rows[i][1], rows[i][0], rows[i][1]]
      ensures spread[i] == [rows[i][0], rows[i][0], rows[i][1], rows[i][1]]
    {
      assert rows[i] == [rows[i][0], rows[i][1]];
      assert |spread[i]| == 4;
      assert spread[i][1] == rows[i][1 / 2];
      assert spread[i][3] == rows[i][3 / 2];
    }
    var t := Transpose(4, tiled);
    assert t[0] == a && t[1] == b && t[2] == a && t[3] == b;
    assert t == [a, b, a, b];
    var n := Transpose(4, spread);
    assert n[0] == a && n[1] == a && n[2] == b && n[3] == b;
    assert n == [a, a, b, b];
  }
}
