/**
 * The data shared by the blob analysis routines: the blob record (held by
 * pointer and updated in place, so a class), a value snapshot of it, the
 * label image and the registry entries.
 */
module BlobTypes {

  /** CvLabel: an unsigned label; 0 is the background. */
  type Label = nat

  /** An unsigned char channel value. */
  type Byte = x: int | 0 <= x < 256

  /** IPL_DEPTH_LABEL: the bit width of CvLabel (an unsigned int). */
  const DepthLabel: int := 32
  /** IPL_DEPTH_8U. */
  const Depth8U: int := 8

  /** CvPoint2D64f, with `real` standing in for `double`. */
  datatype Point = Point(x: real, y: real)

  /** The two header fields of an IplImage that the routines check. */
  datatype ImageFormat = ImageFormat(depth: int, nChannels: int)

  /** A single-channel image whose pixels are labels. */
  predicate IsLabelFormat(f: ImageFormat)
  {
    f.depth == DepthLabel && f.nChannels == 1
  }

  /** A three-channel image of unsigned chars. */
  predicate IsColorFormat(f: ImageFormat)
  {
    f.depth == Depth8U && f.nChannels == 3
  }

  /**
   * A label image: its header and its buffer of labels, row-major with
   * stride `width` (row padding is not used by the routines).
   */
  datatype LabelImage = LabelImage(format: ImageFormat, width: nat, height: nat, data: seq<Label>)

  /** The value of every field of a blob record that the routines use. */
  datatype BlobState = BlobState(
    lbl: Label,
    area: nat,
    minx: nat, miny: nat, maxx: nat, maxy: nat,
    m10: real, m01: real,
    centroid: Point,
    u11: real, u20: real, u02: real,
    centralMoments: bool)

  /**
   * CvBlob: a blob record, shared between the registry and its users. The
   * label, area, bounding box and raw moments are filled in by the
   * labelling stage and never written here, so they are constants; the
   * centroid and the central-moment cache are updated in place.
   */
  class Blob {
    const lbl: Label  // `label` in CvBlob (a reserved word here)
    const area: nat
    const minx: nat
    const miny: nat
    const maxx: nat
    const maxy: nat
    const m10: real
    const m01: real
    var centroid: Point
    var u11: real
    var u20: real
    var u02: real
    var centralMoments: bool

    /** A record holding the field values `s`, as the labelling stage hands it over. */
    constructor (s: BlobState)
      ensures State() == s
    {
      lbl, area, minx, miny, maxx, maxy, m10, m01 := s.lbl, s.area, s.minx, s.miny, s.maxx, s.maxy, s.m10, s.m01;
      centroid, u11, u20, u02, centralMoments := s.centroid, s.u11, s.u20, s.u02, s.centralMoments;
    }

    /** The record's current field values. */
    function State(): BlobState
      reads this
    {
      BlobState(lbl, area, minx, miny, maxx, maxy, m10, m01, centroid, u11, u20, u02, centralMoments)
    }
  }

  /** One (key, blob) pair of a CvBlobs map, in iteration order. */
  datatype Entry = Entry(key: Label, blob: Blob)

  /** The blob records an entry sequence refers to. */
  ghost function Objects(es: seq<Entry>): set<Blob>
  {
    set i | 0 <= i < |es| :: es[i].blob
  }

  /** The `label` field of each entry's blob, in iteration order. */
  function BlobLabels(es: seq<Entry>): (ls: seq<Label>)
    ensures |ls| == |es|
    ensures forall i | 0 <= i < |es| :: ls[i] == es[i].blob.lbl
  {
    seq(|es|, i requires 0 <= i < |es| => es[i].blob.lbl)
  }

  /** Every blob is stored under its own label, as the labelling stage files them. */
  predicate KeysAreLabels(es: seq<Entry>)
  {
    forall i | 0 <= i < |es| :: es[i].blob.lbl == es[i].key
  }

  /** No key occurs twice: the sequence is the iteration of a map. */
  predicate UniqueKeys(es: seq<Entry>)
  {
    forall i, j | 0 <= i < j < |es| :: es[i].key != es[j].key
  }
}
