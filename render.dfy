/**
 * cvRenderBlobs: the palette (one hue per blob, in iteration order, turned
 * into a colour by the six-sector HSV to RGB conversion), the colour pass
 * that blends palette colours into the labelled pixels, and the overlay
 * pass that computes central moments for the orientation marks.
 */
module Render {
  import opened BlobTypes
  import opened Moments

  // ---------------------------------------------------------------------
  // Hue and HSV sector

  /** unsigned int arithmetic wraps modulo 2^32. */
  const Word: nat := 0x1_0000_0000

  /**
   * The hue of the i-th blob in iteration order: (colorCount*77)%360,
   * where colorCount and the product are unsigned ints.
   */
  function Hue(i: nat): (h: nat)
    ensures h < 360
  {
    ((i % Word) * 77 % Word) % 360
  }

  /** While i*77 < 2^32 the unsigned product does not wrap. */
  lemma HueNoWrap(i: nat)
    requires i * 77 < Word
    ensures Hue(i) == i * 77 % 360
  {
  }

  /**
   * Among the first 360 blobs the hue gives back the blob's index: 77 is
   * invertible modulo 360, with inverse 173 (77 * 173 = 37 * 360 + 1).
   */
  lemma HueInverse(i: nat)
    requires i < 360
    ensures Hue(i) * 173 % 360 == i
  {
    HueNoWrap(i);
    var q := i * 77 / 360;
    assert Hue(i) == i * 77 - 360 * q;
    assert Hue(i) * 173 == i + 360 * (37 * i - 173 * q);
    ModShift(i, 37 * i - 173 * q);
  }

  lemma ModShift(x: int, k: int)
    requires 0 <= x < 360
    ensures (x + 360 * k) % 360 == x
  {
  }

  /** So the first 360 blobs get 360 different hues. */
  lemma HuesDistinct(i: nat, j: nat)
    requires i < j < 360
    ensures Hue(i) != Hue(j)
  {
    HueInverse(i);
    HueInverse(j);
  }

  /** _hi: the sector index ((int)(H/60.)) % 6 of the conversion's switch. */
  function Sector(h: nat): (s: int)
    ensures 0 <= s < 6
  {
    ((h as real) / 60.0).Floor % 6
  }

  /** _f: the position of the hue inside its 60-degree sector, H/60. - floor(H/60.). */
  function Fraction(h: nat): (f: real)
    ensures 0.0 <= f < 1.0
  {
    (h as real) / 60.0 - (((h as real) / 60.0).Floor as real)
  }

  /** For a hue in [0, 360) the sector is the 60-degree band it lies in. */
  lemma SectorOfHue(h: nat)
    requires h < 360
    ensures Sector(h) == h / 60
  {
    var k := h / 60;
    assert (k as real) <= (h as real) / 60.0 < (k as real) + 1.0;
  }

  /** The three levels of the HSV conversion: the value, p, q and t. */
  datatype Component = V | P | Q | T

  /** Which level goes to the red, green and blue channel. */
  datatype Roles = Roles(r: Component, g: Component, b: Component)

  /** The switch of _HSV2RGB_: one case per sector. */
  function SectorRoles(s: int): Roles
    requires 0 <= s < 6
  {
    match s
    case 0 => Roles(V, T, P)
    case 1 => Roles(Q, V, P)
    case 2 => Roles(P, V, T)
    case 3 => Roles(P, Q, V)
    case 4 => Roles(T, P, V)
    case 5 => Roles(V, P, Q)
  }

  /**
   * Every sector uses the value once and p once; the third channel is t in
   * even sectors (hue rising) and q in odd ones (hue falling). The value
   * sits in red for sectors 5 and 0, green for 1 and 2, blue for 3 and 4.
   */
  lemma SectorRolesShape(s: int)
    requires 0 <= s < 6
    ensures multiset{SectorRoles(s).r, SectorRoles(s).g, SectorRoles(s).b} ==
      multiset{V, P, if s % 2 == 0 then T else Q}
    ensures SectorRoles(s).r == V <==> s == 5 || s == 0
    ensures SectorRoles(s).g == V <==> s == 1 || s == 2
    ensures SectorRoles(s).b == V <==> s == 3 || s == 4
  {
  }

  // ---------------------------------------------------------------------
  // Colours

  /** The palette's saturation and value. */
  const Saturation: real := 0.5
  const Value: real := 1.0

  /** A double cast to an integer: the fraction is dropped, toward zero. */
  function Truncate(x: real): (n: int)
    ensures 0.0 <= x ==> (n as real) <= x < (n as real) + 1.0
    ensures x < 0.0 ==> (n as real) - 1.0 < x <= (n as real)
  {
    if x >= 0.0 then x.Floor else -((-x).Floor)
  }

  /**
   * (unsigned char) of a double: truncated toward zero, then reduced to its
   * low eight bits. A value in [0, 256) keeps its integer part.
   */
  function ToUChar(x: real): (b: Byte)
    ensures 0.0 <= x < 256.0 ==> (b as real) <= x < (b as real) + 1.0
  {
    Truncate(x) % 256
  }

  /** 255 times a level of the conversion, cast to unsigned char; f is the fraction in the sector. */
  function Level(c: Component, f: real): Byte
    requires 0.0 <= f < 1.0
  {
    match c
    case V => ToUChar(255.0 * Value)
    case P => ToUChar(255.0 * (Value * (1.0 - Saturation)))
    case Q => ToUChar(255.0 * (Value * (1.0 - f * Saturation)))
    case T => ToUChar(255.0 * (Value * (1.0 - (1.0 - f) * Saturation)))
  }

  /** struct Color: one palette entry. */
  datatype Color = Color(r: Byte, g: Byte, b: Byte)

  /** The colour _HSV2RGB_ computes for the i-th blob (hue (i*77)%360, S = .5, V = 1). */
  function PaletteColor(i: nat): Color
  {
    var h := Hue(i);
    var ro := SectorRoles(Sector(h));
    var f := Fraction(h);
    Color(Level(ro.r, f), Level(ro.g, f), Level(ro.b, f))
  }

  /** Each level lies between p (127) and the value (255). */
  lemma LevelBounds(c: Component, f: real)
    requires 0.0 <= f < 1.0
    ensures 127 <= Level(c, f) <= 255
    ensures Level(c, f) == 255 <==> c == V || (c == Q && f == 0.0)
    ensures c == P ==> Level(c, f) == 127
  {
  }

  /**
   * Every palette colour is a saturated pastel: one channel is 255, one is
   * 127, and the third lies between them.
   */
  lemma PaletteColorBounds(i: nat)
    ensures 127 <= PaletteColor(i).r <= 255 && 127 <= PaletteColor(i).g <= 255 && 127 <= PaletteColor(i).b <= 255
    ensures PaletteColor(i).r == 255 || PaletteColor(i).g == 255 || PaletteColor(i).b == 255
    ensures PaletteColor(i).r == 127 || PaletteColor(i).g == 127 || PaletteColor(i).b == 127
  {
    var h := Hue(i);
    var s := Sector(h);
    var f := Fraction(h);
    var ro := SectorRoles(s);
    SectorRolesShape(s);
    LevelBounds(ro.r, f);
    LevelBounds(ro.g, f);
    LevelBounds(ro.b, f);
  }

  // ---------------------------------------------------------------------
  // Palette

  /**
   * The palette after the colour loop has seen the blobs with labels `ls`,
   * in iteration order: the i-th one writes PaletteColor(i) under its
   * label, a later write replacing an earlier one.
   */
  function PaletteOf(ls: seq<Label>): map<Label, Color>
    decreases |ls|
  {
    if |ls| == 0 then map[]
    else PaletteOf(ls[..|ls| - 1])[ls[|ls| - 1] := PaletteColor(|ls| - 1)]
  }

  /** The palette has an entry for exactly the labels seen. */
  lemma {:induction false} PaletteKeys(ls: seq<Label>)
    ensures PaletteOf(ls).Keys == set i | 0 <= i < |ls| :: ls[i]
    decreases |ls|
  {
    if |ls| > 0 {
      var init := ls[..|ls| - 1];
      PaletteKeys(init);
      assert forall i | 0 <= i < |init| :: init[i] == ls[i];
    }
  }

  /** When no label repeats, the i-th blob's label maps to the i-th palette colour. */
  lemma {:induction false} PaletteSlot(ls: seq<Label>, i: nat)
    requires forall j, k | 0 <= j < k < |ls| :: ls[j] != ls[k]
    requires i < |ls|
    ensures ls[i] in PaletteOf(ls) && PaletteOf(ls)[ls[i]] == PaletteColor(i)
    decreases |ls|
  {
    if i < |ls| - 1 {
      var init := ls[..|ls| - 1];
      PaletteSlot(init, i);
      assert ls[i] != ls[|ls| - 1];
    }
  }

  /**
   * The colour loop of cvRenderBlobs: one palette slot per blob, keyed by
   * the blob's label, coloured by its position in iteration order.
   */
  method BuildPalette(blobs: seq<Entry>) returns (pal: map<Label, Color>)
    ensures pal == PaletteOf(BlobLabels(blobs))
    ensures pal.Keys == set i | 0 <= i < |blobs| :: blobs[i].blob.lbl
    ensures UniqueKeys(blobs) && KeysAreLabels(blobs) ==>
      forall i | 0 <= i < |blobs| :: blobs[i].key in pal && pal[blobs[i].key] == PaletteColor(i)
  {
    ghost var ls := BlobLabels(blobs);
    pal := map[];
    var colorCount := 0;
    while colorCount < |blobs|
      invariant 0 <= colorCount <= |blobs|
      invariant pal == PaletteOf(ls[..colorCount])
    {
      var lbl := blobs[colorCount].blob.lbl;
      assert ls[..colorCount + 1][..colorCount] == ls[..colorCount];
      pal := pal[lbl := PaletteColor(colorCount)];
      colorCount := colorCount + 1;
    }
    assert ls[..|blobs|] == ls;
    PaletteKeys(ls);
    assert (set i | 0 <= i < |ls| :: ls[i]) == set i | 0 <= i < |blobs| :: blobs[i].blob.lbl;
    if UniqueKeys(blobs) && KeysAreLabels(blobs) {
      forall i | 0 <= i < |blobs|
        ensures blobs[i].key in pal && pal[blobs[i].key] == PaletteColor(i)
      {
        PaletteSlot(ls, i);
      }
    }
  }

  /**
   * `pal[*labels]`: the colour stored for a label; a label with no slot
   * reads as a value-initialised (black) colour.
   */
  function Lookup(pal: map<Label, Color>, l: Label): Color
  {
    if l in pal then pal[l] else Color(0, 0, 0)
  }

  // ---------------------------------------------------------------------
  // Colour pass

  /** One channel of the blend: (unsigned char)((1.-alpha)*source+alpha*colour). */
  function Blend(alpha: real, source: Byte, color: Byte): (b: Byte)
    ensures alpha == 0.0 ==> b == source
    ensures alpha == 1.0 ==> b == color
    ensures 0.0 <= alpha <= 1.0 ==> Min(source, color) <= b <= Max(source, color)
  {
    BlendBetween(alpha, source, color);
    ToUChar((1.0 - alpha) * (source as real) + alpha * (color as real))
  }

  function Min(a: int, b: int): int { if a <= b then a else b }
  function Max(a: int, b: int): int { if a <= b then b else a }

  lemma BlendBetween(alpha: real, source: Byte, color: Byte)
    ensures 0.0 <= alpha <= 1.0 ==>
      Min(source, color) as real <= (1.0 - alpha) * (source as real) + alpha * (color as real) <= Max(source, color) as real
  {
    if 0.0 <= alpha <= 1.0 {
      var s, c := source as real, color as real;
      var x := (1.0 - alpha) * s + alpha * c;
      assert x == s - alpha * s + alpha * c;
      if source <= color {
        ScaleBetween(alpha, s, c);
      } else {
        ScaleBetween(alpha, c, s);
      }
    }
  }

  /** Moving a fraction a of the way from lo to hi stays between them. */
  lemma ScaleBetween(a: real, lo: real, hi: real)
    requires 0.0 <= a <= 1.0 && lo <= hi
    ensures 0.0 <= a * hi - a * lo <= hi - lo
  {
    var d := hi - lo;
    var m := a * d;
    assert a * hi - a * lo == m;
    ProductNonNegative(a, d);
    ProductNonNegative(1.0 - a, d);
    assert (1.0 - a) * d == d - m;
  }

  lemma ProductNonNegative(x: real, y: real)
    requires 0.0 <= x && 0.0 <= y
    ensures 0.0 <= x * y
  {
  }

  /** The colour channel blended into byte k (0, 1, 2) of a pixel: images are stored BGR. */
  function Channel(c: Color, k: nat): Byte
    requires k < 3
  {
    if k == 0 then c.b else if k == 1 then c.g else c.r
  }

  /**
   * The destination buffer after the colour pass has visited the first n
   * pixels: byte i of a visited pixel with a non-zero label is the blend of
   * the source byte with its palette colour; every other byte is as before.
   */
  function Composite(labels: seq<Label>, source: seq<Byte>, dest: seq<Byte>, pal: map<Label, Color>, alpha: real, n: nat): (d: seq<Byte>)
    requires n <= |labels| && 3 * n <= |source| && 3 * n <= |dest|
    ensures |d| == |dest|
  {
    seq(|dest|, i requires 0 <= i < |dest| =>
      if i < 3 * n && labels[i / 3] != 0 then Blend(alpha, source[i], Channel(Lookup(pal, labels[i / 3]), i % 3))
      else dest[i])
  }

  /** Only the bytes of visited, labelled pixels are written; background pixels keep their value. */
  lemma CompositeOnlyLabelled(labels: seq<Label>, source: seq<Byte>, dest: seq<Byte>, pal: map<Label, Color>, alpha: real, n: nat, i: nat)
    requires n <= |labels| && 3 * n <= |source| && 3 * n <= |dest|
    requires i < |dest|
    ensures Composite(labels, source, dest, pal, alpha, n)[i] != dest[i] ==> i < 3 * n && labels[i / 3] != 0
  {
  }

  /** With alpha 0 a labelled pixel takes the source pixel; with alpha 1 its palette colour. */
  lemma CompositeAlphaExtremes(labels: seq<Label>, source: seq<Byte>, dest: seq<Byte>, pal: map<Label, Color>, alpha: real, n: nat, i: nat)
    requires n <= |labels| && 3 * n <= |source| && 3 * n <= |dest|
    requires i < 3 * n && labels[i / 3] != 0
    ensures alpha == 0.0 ==> Composite(labels, source, dest, pal, alpha, n)[i] == source[i]
    ensures alpha == 1.0 ==> Composite(labels, source, dest, pal, alpha, n)[i] == Channel(Lookup(pal, labels[i / 3]), i % 3)
  {
  }

  /** Visiting pixel p writes its three bytes, if it is labelled, and nothing else. */
  lemma CompositeStep(labels: seq<Label>, source: seq<Byte>, dest: seq<Byte>, pal: map<Label, Color>, alpha: real, p: nat)
    requires p < |labels| && 3 * p + 3 <= |source| && 3 * p + 3 <= |dest|
    ensures labels[p] == 0 ==>
      Composite(labels, source, dest, pal, alpha, p + 1) == Composite(labels, source, dest, pal, alpha, p)
    ensures labels[p] != 0 ==>
      var c := Lookup(pal, labels[p]);
      Composite(labels, source, dest, pal, alpha, p + 1) == Composite(labels, source, dest, pal, alpha, p)
        [3 * p := Blend(alpha, source[3 * p], c.b)]
        [3 * p + 1 := Blend(alpha, source[3 * p + 1], c.g)]
        [3 * p + 2 := Blend(alpha, source[3 * p + 2], c.r)]
  {
    var next := Composite(labels, source, dest, pal, alpha, p + 1);
    var prev := Composite(labels, source, dest, pal, alpha, p);
    forall i | 0 <= i < |dest| && (i < 3 * p || 3 * p + 3 <= i)
      ensures next[i] == prev[i]
    {
      assert i < 3 * (p + 1) <==> i < 3 * p;
    }
    forall i | 3 * p <= i < 3 * p + 3
      ensures i / 3 == p && i % 3 == i - 3 * p
    {
    }
  }

  /** The buffers hold every pixel of the label image: labels, and three bytes of source and destination each. */
  predicate PixelsFit(img: LabelImage, sourceLen: nat, destLen: nat)
  {
    img.width * img.height <= |img.data| &&
    3 * (img.width * img.height) <= sourceLen &&
    3 * (img.width * img.height) <= destLen
  }

  /**
   * The pixel loop of the colour pass: walks the label, source and
   * destination buffers together, row by row, and blends the palette
   * colour into every pixel whose label is not 0.
   */
  method ColorPass(img: LabelImage, source: seq<Byte>, dest: array<Byte>, pal: map<Label, Color>, alpha: real)
    requires PixelsFit(img, |source|, dest.Length)
    modifies dest
    ensures dest[..] == Composite(img.data, source, old(dest[..]), pal, alpha, img.width * img.height)
  {
    ghost var orig := dest[..];
    var p := 0;
    var r := 0;
    while r < img.height
      invariant 0 <= r <= img.height
      invariant p == r * img.width
      invariant p <= img.width * img.height
      invariant dest[..] == Composite(img.data, source, orig, pal, alpha, p)
    {
      assert (r + 1) * img.width <= img.height * img.width by { MulMonotone(r + 1, img.height, img.width); }
      var c := 0;
      while c < img.width
        invariant 0 <= c <= img.width
        invariant p == r * img.width + c
        invariant p <= img.width * img.height
        invariant dest[..] == Composite(img.data, source, orig, pal, alpha, p)
      {
        CompositeStep(img.data, source, orig, pal, alpha, p);
        if img.data[p] != 0 {
          var color := Lookup(pal, img.data[p]);
          dest[3 * p] := Blend(alpha, source[3 * p], color.b);
          dest[3 * p + 1] := Blend(alpha, source[3 * p + 1], color.g);
          dest[3 * p + 2] := Blend(alpha, source[3 * p + 2], color.r);
        }
        p := p + 1;
        c := c + 1;
      }
      r := r + 1;
    }
  }

  // ---------------------------------------------------------------------
  // cvRenderBlobs

  /** The render mode bits (CV_BLOB_RENDER_*), an unsigned short. */
  const RenderColor: bv16 := 0x0001
  const RenderCentroid: bv16 := 0x0002
  const RenderBoundingBox: bv16 := 0x0004
  const RenderAngle: bv16 := 0x0008

  predicate HasMode(mode: bv16, flag: bv16)
  {
    mode & flag != 0
  }

  /** How cvRenderBlobs ended: it ran, or it stopped at one of its two format checks. */
  datatype RenderStatus = Rendered | LabelFormatError | OutputFormatError

  /**
   * cvRenderBlobs. The label image must be a label image and the
   * destination a three-channel 8-bit image; otherwise it reports the
   * error and writes nothing. In COLOR mode it builds the palette and runs
   * the colour pass; in ANGLE mode it computes (and caches in the shared
   * records) every blob's central moments. The outline, centroid-cross and
   * angle-segment drawing is not modelled.
   */
  method RenderBlobs(imgLabel: LabelImage, blobs: seq<Entry>, source: seq<Byte>,
                     destFormat: ImageFormat, dest: array<Byte>, mode: bv16, alpha: real)
    returns (status: RenderStatus)
    requires IsLabelFormat(imgLabel.format) && IsColorFormat(destFormat) && HasMode(mode, RenderColor) ==>
      PixelsFit(imgLabel, |source|, dest.Length)
    requires IsLabelFormat(imgLabel.format) && IsColorFormat(destFormat) && HasMode(mode, RenderAngle) ==>
      forall i | 0 <= i < |blobs| :: ScanReadable(blobs[i].blob.State(), imgLabel)
    modifies dest, Objects(blobs)
    ensures status == LabelFormatError <==> !IsLabelFormat(imgLabel.format)
    ensures status == OutputFormatError <==> IsLabelFormat(imgLabel.format) && !IsColorFormat(destFormat)
    ensures status != Rendered ==> dest[..] == old(dest[..])
    ensures status != Rendered ==> forall b | b in Objects(blobs) :: b.State() == old(b.State())
    ensures status == Rendered ==>
      dest[..] == (if HasMode(mode, RenderColor)
        then Composite(imgLabel.data, source, old(dest[..]), PaletteOf(BlobLabels(blobs)), alpha, imgLabel.width * imgLabel.height)
        else old(dest[..]))
    ensures status == Rendered ==> forall b | b in Objects(blobs) ::
      b.State() == if HasMode(mode, RenderAngle) then CentralMomentsOf(old(b.State()), imgLabel) else old(b.State())
  {
    if !IsLabelFormat(imgLabel.format) {
      return LabelFormatError;
    }
    if !IsColorFormat(destFormat) {
      return OutputFormatError;
    }
    status := Rendered;

    if HasMode(mode, RenderColor) {
      var pal := BuildPalette(blobs);
      ColorPass(imgLabel, source, dest, pal, alpha);
    }

    if HasMode(mode, RenderCentroid) || HasMode(mode, RenderBoundingBox) || HasMode(mode, RenderAngle) {
      if HasMode(mode, RenderAngle) {
        ComputeAllMoments(imgLabel, blobs);
      }
    }
  }

  /**
   * The ANGLE part of the overlay loop: cvCentralMoments on every blob in
   * turn. A record reached twice is left as the first call made it.
   */
  method ComputeAllMoments(imgLabel: LabelImage, blobs: seq<Entry>)
    requires IsLabelFormat(imgLabel.format)
    requires forall i | 0 <= i < |blobs| :: ScanReadable(blobs[i].blob.State(), imgLabel)
    modifies Objects(blobs)
    ensures forall b | b in Objects(blobs) :: b.State() == CentralMomentsOf(old(b.State()), imgLabel)
  {
    var i := 0;
    while i < |blobs|
      invariant 0 <= i <= |blobs|
      invariant forall b | b in Objects(blobs) ::
        b.State() == old(b.State()) || b.State() == CentralMomentsOf(old(b.State()), imgLabel)
      invariant forall j | 0 <= j < i :: blobs[j].blob.State() == CentralMomentsOf(old(blobs[j].blob.State()), imgLabel)
      invariant forall j | 0 <= j < |blobs| :: ScanReadable(blobs[j].blob.State(), imgLabel)
    {
      var blob := blobs[i].blob;
      ghost var before := blob.State();
      var formatError := CentralMoments(blob, imgLabel);
      assert before == old(blob.State()) || before == CentralMomentsOf(old(blob.State()), imgLabel);
      CentralMomentsIdempotent(old(blob.State()), imgLabel);
      i := i + 1;
    }
    forall b | b in Objects(blobs)
      ensures b.State() == CentralMomentsOf(old(b.State()), imgLabel)
    {
      var j :| 0 <= j < |blobs| && blobs[j].blob == b;
    }
  }
}
