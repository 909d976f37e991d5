/**
 * Centroid, second-order central moments and the orientation guard of a
 * blob (cvCentroid, cvCentralMoments, cvAngle).
 */
module Moments {
  import opened BlobTypes

  /** The three accumulators u11, u20, u02. */
  datatype Sums = Sums(u11: real, u20: real, u02: real)

  function Zero(): Sums
  {
    Sums(0.0, 0.0, 0.0)
  }

  function Add(a: Sums, b: Sums): Sums
  {
    Sums(a.u11 + b.u11, a.u20 + b.u20, a.u02 + b.u02)
  }

  /** What the pixel at column c, row r adds, measured from the centroid. */
  function PixelTerm(c: nat, r: nat, centroid: Point): Sums
  {
    var tx := c as real - centroid.x;
    var ty := r as real - centroid.y;
    Sums(tx * ty, tx * tx, ty * ty)
  }

  /** The pixel at row r, column c of a row-major buffer with stride `width` holds `lbl`. */
  predicate Member(data: seq<Label>, width: nat, lbl: Label, r: nat, c: nat)
  {
    Offset(width, r, c) < |data| && data[Offset(width, r, c)] == lbl
  }

  /** The buffer index of row r, column c. */
  function Offset(width: nat, r: nat, c: nat): nat
  {
    r * width + c
  }

  /**
   * The accumulators after the scan of row r has visited columns minx .. c-1,
   * starting from `acc`: each of the blob's own pixels adds its term, in
   * column order, and every other pixel is skipped.
   */
  function RowScan(acc: Sums, s: BlobState, data: seq<Label>, width: nat, r: nat, c: nat): Sums
    decreases c
  {
    if c <= s.minx then acc
    else if Member(data, width, s.lbl, r, c - 1) then
      Add(RowScan(acc, s, data, width, r, c - 1), PixelTerm(c - 1, r, s.centroid))
    else RowScan(acc, s, data, width, r, c - 1)
  }

  /** The accumulators, from zero, after the scan has visited rows miny .. r-1 of the half-open box. */
  function BoxScan(s: BlobState, data: seq<Label>, width: nat, r: nat): Sums
    decreases r
  {
    if r <= s.miny then Zero()
    else RowScan(BoxScan(s, data, width, r - 1), s, data, width, r - 1, s.maxx)
  }

  /** The fields cvCentralMoments may write. */
  function WithSums(s: BlobState, m: Sums, computed: bool): BlobState
  {
    s.(u11 := m.u11, u20 := m.u20, u02 := m.u02, centralMoments := computed)
  }

  /**
   * The blob after cvCentralMoments: nothing happens when the moments are
   * cached or the image is not a label image; otherwise the accumulators
   * are the sums over the blob's pixels in [minx,maxx) x [miny,maxy) and
   * the flag is set.
   */
  function CentralMomentsOf(s: BlobState, img: LabelImage): (t: BlobState)
    ensures s.centralMoments ==> t == s
    ensures !IsLabelFormat(img.format) ==> t == s
    ensures t.centralMoments <==> s.centralMoments || IsLabelFormat(img.format)
    ensures WithSums(t, Sums(s.u11, s.u20, s.u02), s.centralMoments) == s
    ensures !s.centralMoments && IsLabelFormat(img.format) ==> t.u20 >= 0.0 && t.u02 >= 0.0
  {
    if s.centralMoments || !IsLabelFormat(img.format) then s
    else
      BoxScanNonNegative(s, img.data, img.width, s.maxy);
      WithSums(s, BoxScan(s, img.data, img.width, s.maxy), true)
  }

  lemma PixelTermNonNegative(c: nat, r: nat, centroid: Point)
    ensures PixelTerm(c, r, centroid).u20 >= 0.0 && PixelTerm(c, r, centroid).u02 >= 0.0
  {
    SquareNonNegative(c as real - centroid.x);
    SquareNonNegative(r as real - centroid.y);
  }

  lemma {:induction false} RowScanNonNegative(acc: Sums, s: BlobState, data: seq<Label>, width: nat, r: nat, c: nat)
    requires acc.u20 >= 0.0 && acc.u02 >= 0.0
    ensures RowScan(acc, s, data, width, r, c).u20 >= 0.0 && RowScan(acc, s, data, width, r, c).u02 >= 0.0
    decreases c
  {
    if c > s.minx {
      RowScanNonNegative(acc, s, data, width, r, c - 1);
      PixelTermNonNegative(c - 1, r, s.centroid);
    }
  }

  lemma {:induction false} BoxScanNonNegative(s: BlobState, data: seq<Label>, width: nat, r: nat)
    ensures BoxScan(s, data, width, r).u20 >= 0.0 && BoxScan(s, data, width, r).u02 >= 0.0
    decreases r
  {
    if r > s.miny {
      BoxScanNonNegative(s, data, width, r - 1);
      RowScanNonNegative(BoxScan(s, data, width, r - 1), s, data, width, r - 1, s.maxx);
    }
  }

  lemma SquareNonNegative(x: real)
    ensures x * x >= 0.0
  {
    if x < 0.0 {
      assert x * x == (-x) * (-x);
    }
  }

  /**
   * Two label buffers that agree, pixel by pixel inside the bounding box,
   * on which pixels carry the blob's label give the same sums: pixels of
   * other blobs inside the box and every pixel outside it are ignored.
   */
  lemma {:induction false} RowScanOnlyMembers(acc: Sums, s: BlobState, d1: seq<Label>, d2: seq<Label>, width: nat, r: nat, c: nat)
    requires forall x | s.minx <= x < c :: Member(d1, width, s.lbl, r, x) == Member(d2, width, s.lbl, r, x)
    ensures RowScan(acc, s, d1, width, r, c) == RowScan(acc, s, d2, width, r, c)
    decreases c
  {
    if c > s.minx {
      RowScanOnlyMembers(acc, s, d1, d2, width, r, c - 1);
    }
  }

  lemma {:induction false} BoxScanOnlyMembers(s: BlobState, d1: seq<Label>, d2: seq<Label>, width: nat, r: nat)
    requires forall y, x | s.miny <= y < r && s.minx <= x < s.maxx ::
      Member(d1, width, s.lbl, y, x) == Member(d2, width, s.lbl, y, x)
    ensures BoxScan(s, d1, width, r) == BoxScan(s, d2, width, r)
    decreases r
  {
    if r > s.miny {
      BoxScanOnlyMembers(s, d1, d2, width, r - 1);
      RowScanOnlyMembers(BoxScan(s, d1, width, r - 1), s, d1, d2, width, r - 1, s.maxx);
    }
  }

  /** cvCentralMoments reads nothing of the image but the blob's own pixels inside its box. */
  lemma CentralMomentsOnlyMembers(s: BlobState, img1: LabelImage, img2: LabelImage)
    requires img1.format == img2.format && img1.width == img2.width
    requires forall y, x | s.miny <= y < s.maxy && s.minx <= x < s.maxx ::
      Member(img1.data, img1.width, s.lbl, y, x) == Member(img2.data, img2.width, s.lbl, y, x)
    ensures CentralMomentsOf(s, img1) == CentralMomentsOf(s, img2)
  {
    BoxScanOnlyMembers(s, img1.data, img2.data, img1.width, s.maxy);
  }

  /** A second cvCentralMoments call changes nothing. */
  lemma CentralMomentsIdempotent(s: BlobState, img: LabelImage)
    ensures CentralMomentsOf(CentralMomentsOf(s, img), img) == CentralMomentsOf(s, img)
  {
  }

  /** The centroid cvCentroid stores: the raw first moments divided by the area. */
  function CentroidOf(s: BlobState): (p: Point)
    requires s.area > 0
    ensures p.x * (s.area as real) == s.m10 && p.y * (s.area as real) == s.m01
  {
    Point(s.m10 / (s.area as real), s.m01 / (s.area as real))
  }

  /** cvCentroid: stores the centroid in the record and returns it. */
  method Centroid(blob: Blob) returns (p: Point)
    requires blob.area > 0
    modifies blob
    ensures p == CentroidOf(old(blob.State()))
    ensures blob.State() == old(blob.State()).(centroid := p)
  {
    p := Point(blob.m10 / (blob.area as real), blob.m01 / (blob.area as real));
    blob.centroid := p;
  }

  /** Each row the scan visits, up to column maxx, lies inside a buffer of `len` labels. */
  predicate BoxFits(s: BlobState, width: nat, len: nat)
  {
    s.miny < s.maxy ==> (s.maxy - 1) * width + s.maxx <= len
  }

  /** What cvCentralMoments needs of its caller: a scan, if one happens, stays inside the buffer. */
  predicate ScanReadable(s: BlobState, img: LabelImage)
  {
    !s.centralMoments && IsLabelFormat(img.format) ==> BoxFits(s, img.width, |img.data|)
  }

  /**
   * cvCentralMoments: computes and caches u11, u20, u02 by scanning the
   * bounding box. `formatError` is the "Image format" diagnostic.
   */
  method CentralMoments(blob: Blob, img: LabelImage) returns (formatError: bool)
    requires ScanReadable(blob.State(), img)
    modifies blob
    ensures blob.State() == CentralMomentsOf(old(blob.State()), img)
    ensures formatError <==> !old(blob.centralMoments) && !IsLabelFormat(img.format)
  {
    formatError := false;
    if !blob.centralMoments {
      if !IsLabelFormat(img.format) {
        formatError := true;
        return;
      }
      ghost var s := blob.State();
      blob.u11, blob.u20, blob.u02 := 0.0, 0.0, 0.0;
      var row := img.width * blob.miny;
      var r := blob.miny;
      while r < blob.maxy
        invariant s.miny <= r && (r <= s.maxy || r == s.miny)
        invariant blob.State() == WithSums(s, Sums(blob.u11, blob.u20, blob.u02), false)
        invariant row == r * img.width
        invariant Sums(blob.u11, blob.u20, blob.u02) == BoxScan(s, img.data, img.width, r)
      {
        RowInBuffer(s, img.width, |img.data|, r);
        ScanRow(blob, img, r, row, s);
        r := r + 1;
        row := row + img.width;
      }
      blob.centralMoments := true;
    }
  }

  /**
   * One row of the scan: adds the blob's pixels of row r, whose first
   * index in the buffer is `row`.
   */
  method ScanRow(blob: Blob, img: LabelImage, r: nat, row: nat, ghost s: BlobState)
    requires row == r * img.width && row + s.maxx <= |img.data|
    requires blob.lbl == s.lbl && blob.minx == s.minx && blob.maxx == s.maxx && blob.centroid == s.centroid
    modifies blob`u11, blob`u20, blob`u02
    ensures Sums(blob.u11, blob.u20, blob.u02) ==
      RowScan(Sums(old(blob.u11), old(blob.u20), old(blob.u02)), s, img.data, img.width, r, s.maxx)
  {
    ghost var base := Sums(blob.u11, blob.u20, blob.u02);
    var c := blob.minx;
    while c < blob.maxx
      invariant s.minx <= c && (c <= s.maxx || c == s.minx)
      invariant blob.lbl == s.lbl && blob.maxx == s.maxx && blob.centroid == s.centroid
      invariant Sums(blob.u11, blob.u20, blob.u02) == RowScan(base, s, img.data, img.width, r, c)
    {
      if img.data[row + c] == blob.lbl {
        var t := PixelTerm(c, r, blob.centroid);
        blob.u11 := blob.u11 + t.u11;
        blob.u20 := blob.u20 + t.u20;
        blob.u02 := blob.u02 + t.u02;
      }
      c := c + 1;
    }
    if c != s.maxx {
      // an empty row range: minx >= maxx, and both sums are empty
      assert RowScan(base, s, img.data, img.width, r, c) == base == RowScan(base, s, img.data, img.width, r, s.maxx);
    }
  }

  /** Each row the scan visits lies inside a buffer the box fits. */
  lemma RowInBuffer(s: BlobState, width: nat, len: nat, r: nat)
    requires BoxFits(s, width, len)
    requires s.miny <= r < s.maxy
    ensures r * width + s.maxx <= len
  {
    MulMonotone(r, s.maxy - 1, width);
  }

  lemma MulMonotone(a: nat, b: nat, k: nat)
    requires a <= b
    ensures a * k <= b * k
  {
  }

  /** cvAngle's result: the angle in radians and whether the diagnostic was reported. */
  datatype AngleResult = AngleResult(radians: real, reported: bool)

  /**
   * cvAngle. The arc tangent is a parameter (the trigonometry is not
   * modelled); without cached central moments the result is 0 and the
   * "Central moments aren't calculated" diagnostic is reported.
   */
  function Angle(s: BlobState, atan2: (real, real) -> real): (a: AngleResult)
    ensures a.reported <==> !s.centralMoments
    ensures a.reported ==> a.radians == 0.0
  {
    if s.centralMoments then AngleResult(0.5 * atan2(2.0 * s.u11, s.u20 - s.u02), false)
    else AngleResult(0.0, true)
  }

  /** After a cvCentralMoments call on a label image, cvAngle no longer reports an error. */
  lemma AngleAvailableAfterMoments(s: BlobState, img: LabelImage, atan2: (real, real) -> real)
    requires IsLabelFormat(img.format)
    ensures !Angle(CentralMomentsOf(s, img), atan2).reported
  {
  }

  /**
   * A 10 x 10 label image holding one 3 x 3 square of label 1, columns and
   * rows 4 .. 6, and nothing else.
   */
  function SquareImage(): LabelImage
  {
    LabelImage(ImageFormat(DepthLabel, 1), 10, 10,
      seq(100, i => if 4 <= i / 10 <= 6 && 4 <= i % 10 <= 6 then 1 else 0))
  }

  /** That square's record: area 9, box [4,7) x [4,7), centroid (5,5), moments not yet computed. */
  function SquareBlob(): BlobState
  {
    BlobState(1, 9, 4, 4, 7, 7, 45.0, 45.0, Point(5.0, 5.0), 0.0, 0.0, 0.0, false)
  }

  /**
   * The square is symmetric about its centroid: the mixed moment vanishes
   * and the two axis moments are equal (each row and column adds 1 + 0 + 1).
   */
  lemma SquareMoments()
    ensures CentroidOf(SquareBlob()) == SquareBlob().centroid
    ensures var t := CentralMomentsOf(SquareBlob(), SquareImage());
      t.centralMoments && t.u11 == 0.0 && t.u20 == 6.0 && t.u02 == 6.0
  {
    var s, img := SquareBlob(), SquareImage();
    forall r: nat, c: nat | 4 <= r < 7 && 4 <= c < 7
      ensures Member(img.data, 10, 1, r, c)
    {
      assert Offset(10, r, c) / 10 == r && Offset(10, r, c) % 10 == c;
    }
    assert RowScan(Zero(), s, img.data, 10, 4, 7) == Sums(0.0, 2.0, 3.0);
    assert BoxScan(s, img.data, 10, 5) == Sums(0.0, 2.0, 3.0);
    assert BoxScan(s, img.data, 10, 6) == Sums(0.0, 4.0, 3.0);
    assert BoxScan(s, img.data, 10, 7) == Sums(0.0, 6.0, 6.0);
  }
}
