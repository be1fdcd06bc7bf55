/** The watermark scan of ParticleSystem.createWatermark
    (js/particles.js:135-177): the RGBA bytes of a 1000 x 200 canvas are
    sampled on a stride-8 grid and every bright cell becomes one point far
    behind the card. The text rendering that fills the canvas is not modelled:
    the image bytes are the input. */
module Watermark {
  import opened MathModel

  newtype byte = b: int | 0 <= b < 256

  /** canvas.width * canvas.height * 4: the length of the ImageData array. */
  const ImageBytes: nat := 1000 * 200 * 4

  /** The grid has 125 columns (x = 0, 8, ..., 992) and 25 rows
      (y = 0, 8, ..., 192); cell k is column k % 125 of row k / 125, so cell
      order is the loops' row-major order. */
  const Columns: nat := 125
  const Cells: nat := 125 * 25

  function CellX(k: nat): nat {
    8 * (k % Columns)
  }

  function CellY(k: nat): nat {
    8 * (k / Columns)
  }

  /** `(y * canvas.width + x) * 4`: the red byte of the cell's pixel. */
  function RedIndex(k: nat): nat {
    (CellY(k) * 1000 + CellX(k)) * 4
  }

  /** Every byte the scan reads, and the whole RGBA pixel around it, is inside
      the image. */
  lemma RedIndexInBounds(k: nat)
    requires k < Cells
    ensures RedIndex(k) + 3 < ImageBytes
  {
  }

  predicate Bright(data: seq<byte>, k: nat)
    requires |data| == ImageBytes && k < Cells
  {
    RedIndexInBounds(k);
    data[RedIndex(k)] > 128
  }

  /** The point pushed for cell k: centred, scaled by 0.3 and at z = -150. */
  function CellPoint(k: nat): Vec3 {
    Vec3((CellX(k) as real - 500.0) * 0.3, (100.0 - CellY(k) as real) * 0.3, -150.0)
  }

  /** watermarkPoints after the scan has visited the first k cells. */
  function Scan(data: seq<byte>, k: nat): seq<Vec3>
    requires |data| == ImageBytes && k <= Cells
  {
    if k == 0 then []
    else Scan(data, k - 1) + (if Bright(data, k - 1) then [CellPoint(k - 1)] else [])
  }

  /** The loops of createWatermark, over the given ImageData bytes. */
  method CreateWatermark(data: seq<byte>) returns (watermarkPoints: seq<Vec3>)
    requires |data| == ImageBytes
    ensures watermarkPoints == Scan(data, Cells)
  {
    watermarkPoints := [];
    var y := 0;
    ghost var row, k := 0, 0;
    while y < 200
      invariant 0 <= row <= 25 && y == 8 * row && k == 125 * row
      invariant watermarkPoints == Scan(data, k)
    {
      var x := 0;
      ghost var col := 0;
      while x < 1000
        invariant 0 <= col <= 125 && x == 8 * col && k == 125 * row + col
        invariant watermarkPoints == Scan(data, k)
      {
        ScanStep(data, k, row, col, x, y);
        if data[(y * 1000 + x) * 4] > 128 {
          watermarkPoints := watermarkPoints + [Vec3((x as real - 500.0) * 0.3, (100.0 - y as real) * 0.3, -150.0)];
        }
        x, col, k := x + 8, col + 1, k + 1;
      }
      y, row := y + 8, row + 1;
    }
  }

  /** Visiting the pixel (x, y) = (8 col, 8 row), which is cell
      k = 125 row + col, extends the scan by that cell. */
  lemma ScanStep(data: seq<byte>, k: nat, row: nat, col: nat, x: int, y: int)
    requires |data| == ImageBytes && row < 25 && x < 1000 && k == 125 * row + col
    requires x == 8 * col && y == 8 * row
    ensures 0 <= (y * 1000 + x) * 4 < |data|
    ensures k < Cells
    ensures Scan(data, k + 1) ==
              Scan(data, k) +
              (if data[(y * 1000 + x) * 4] > 128
               then [Vec3((x as real - 500.0) * 0.3, (100.0 - y as real) * 0.3, -150.0)]
               else [])
  {
    assert k / 125 == row && k % 125 == col;
    assert RedIndex(k) == (y * 1000 + x) * 4;
    assert CellPoint(k) == Vec3((x as real - 500.0) * 0.3, (100.0 - y as real) * 0.3, -150.0);
    assert Scan(data, k + 1) == Scan(data, k) + (if Bright(data, k) then [CellPoint(k)] else []);
  }

  /** At most one point per cell: no more than 125 x 25 in all. */
  lemma {:induction false} ScanLength(data: seq<byte>, k: nat)
    requires |data| == ImageBytes && k <= Cells
    ensures |Scan(data, k)| <= k
  {
    if k > 0 {
      ScanLength(data, k - 1);
    }
  }

  /** Each point comes from a bright cell already visited, and lies at z = -150. */
  lemma {:induction false} ScanMember(data: seq<byte>, k: nat, j: nat) returns (c: nat)
    requires |data| == ImageBytes && k <= Cells && j < |Scan(data, k)|
    ensures c < k && Bright(data, c) && Scan(data, k)[j] == CellPoint(c)
    ensures Scan(data, k)[j].z == -150.0
  {
    if j < |Scan(data, k - 1)| {
      c := ScanMember(data, k - 1, j);
    } else {
      c := k - 1;
    }
  }

  /** Each bright cell visited yields its point. */
  lemma {:induction false} ScanComplete(data: seq<byte>, k: nat, c: nat)
    requires |data| == ImageBytes && k <= Cells && c < k
    requires Bright(data, c)
    ensures CellPoint(c) in Scan(data, k)
  {
    if c < k - 1 {
      ScanComplete(data, k - 1, c);
    }
  }

  /** An image with no red byte above 128 yields no points, whatever its
      green, blue and alpha bytes hold. */
  lemma {:induction false} DarkImageEmpty(data: seq<byte>, k: nat)
    requires |data| == ImageBytes && k <= Cells
    requires forall i :: 0 <= i < |data| && i % 4 == 0 ==> data[i] <= 128
    ensures Scan(data, k) == []
  {
    if k > 0 {
      RedIndexInBounds(k - 1);
      DarkImageEmpty(data, k - 1);
    }
  }

  /** Row-major order: a later point lies lower on screen, or on the same
      row further right. */
  predicate Before(a: Vec3, b: Vec3) {
    a.y > b.y || (a.y == b.y && a.x < b.x)
  }

  lemma CellBefore(c1: nat, c2: nat)
    requires c1 < c2
    ensures Before(CellPoint(c1), CellPoint(c2))
  {
    var r1, r2 := c1 / Columns, c2 / Columns;
    assert c1 == r1 * Columns + c1 % Columns;
    assert c2 == r2 * Columns + c2 % Columns;
    assert r1 <= r2;
  }

  lemma {:induction false} ScanOrdered(data: seq<byte>, k: nat)
    requires |data| == ImageBytes && k <= Cells
    ensures forall j1, j2 :: 0 <= j1 < j2 < |Scan(data, k)| ==>
              Before(Scan(data, k)[j1], Scan(data, k)[j2])
  {
    if k > 0 {
      ScanOrdered(data, k - 1);
      var prev := Scan(data, k - 1);
      var s := Scan(data, k);
      if Bright(data, k - 1) {
        forall j1 | 0 <= j1 < |prev|
          ensures Before(s[j1], s[|prev|])
        {
          var c := ScanMember(data, k - 1, j1);
          CellBefore(c, k - 1);
        }
      }
    }
  }
}
