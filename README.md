# cvBlob analysis core in Dafny

This project models the analysis half of the cvBlob library (`cvBlob/cvblob.cpp`),
which works on blobs that the connected-component labelling stage has already found.
It holds:

- a registry `CvBlobs` that maps a label to a shared blob record;
- a flat, row-major label image.

The model covers:

- **`cvGreaterBlob`**: a linear scan for the largest blob. It returns the label 0 when
  there is no blob of positive area. Ties go to the first blob in iteration order.
- **`cvFilterByArea`**: erases, in place, every entry whose area is outside
  `[minArea, maxArea]`.
- **`cvCentroid`**: recomputes `(m10/area, m01/area)` on every call, stores it in the
  record and returns it.
- **`cvCentralMoments`**: a guarded, cached update of a blob record. It does nothing when
  the `centralMoments` flag is set, and nothing but report an error when the image is not
  a label image. Otherwise the central moments come from a scan of the half-open bounding
  box `[minx,maxx) x [miny,maxy)` of the label buffer. Only pixels that carry the blob's
  own label count.
- **The `cvAngle` guard**: the angle is 0, with the diagnostic, when the moments are
  not cached.
- **`cvRenderBlobs`**:
  - its two format checks, which return before anything is written;
  - the palette: hue `(i*77) % 360` for the i-th blob, the six-sector switch of
    `_HSV2RGB_`, and one palette slot per blob;
  - the colour pass, which blends a colour only into pixels whose label is not 0;
  - the ANGLE overlay's calls to `cvCentralMoments` on every blob.

Modules, one per concern:

- `BlobTypes` (`blob.dfy`): the blob record, the image header, the label image and
  registry entries.
- `Moments` (`moments.dfy`): `cvCentroid`, `cvCentralMoments` and `cvAngle`.
- `Registry` (`registry.dfy`): `cvGreaterBlob` and `cvFilterByArea`.
- `Render` (`render.dfy`): the hue, the sector, the palette, the colour pass and
  `cvRenderBlobs`.

Modelling choices:

- Blobs are held by pointer and `cvCentralMoments` changes the shared record, so `Blob`
  is a class. `Blob.State()` gives a value snapshot of it. The pure specification
  functions (`CentralMomentsOf`, `CentroidOf`, `Angle`) work on that snapshot.
- The label, area, bounding box and raw moments are written only by the labelling
  stage, so they are `const` fields. The centroid, `u11`/`u20`/`u02` and the
  `centralMoments` flag are mutable.
- A registry is the sequence of its `(key, blob)` entries in iteration order. This
  makes "the first blob that reaches the maximum" and "the i-th palette slot"
  expressible. `UniqueKeys` states that a key appears only once, and `KeysAreLabels`
  that each blob is filed under its own label.
- `double` is modelled by exact `real`. The moment sums and the palette levels are
  therefore exact. The casts to `unsigned char` and the wrap-around of
  `unsigned int` arithmetic are written out (`ToUChar`, `Hue`).
- The `cerr` diagnostics become results:
  - `CentralMoments` returns `formatError`;
  - `Angle` returns `reported`;
  - `RenderBlobs` returns a `RenderStatus`.
- `cvblob.h` is not part of this model. The model assumes these values from it:
  - `IPL_DEPTH_LABEL` is the bit width of an `unsigned int` label, 32;
  - the render mode bits are COLOR = 1, CENTROID = 2, BOUNDING_BOX = 4 and ANGLE = 8.
- `cvGreaterBlob` also returns 0 when every blob has area 0, because the running maximum
  starts at 0 and the comparison is a strict `>` (`GreaterBlob`).
- `cvCentralMoments` reads the stored centroid, because the call at cvblob.cpp:84 is
  commented out; so `CentralMomentsOf` takes the centroid as a field of the record.
- The palette is keyed by the blob's own `label` field, not by the registry key.
- A label with no palette slot reads as a black colour `{0,0,0}`, because `pal[*labels]`
  value-initialises a missing entry (`Lookup`). The model records this behaviour but
  proves nothing about it.

## Model

| member | source | states |
|---|---|---|
| `Registry.GreaterBlob` | cvBlob/cvblob.cpp:32-49 | returns 0 when every blob (or none) has area 0; otherwise the label of the first blob, in iteration order, whose area is at least every blob's area |
| `Registry.FirstMaxUnique` | cvBlob/cvblob.cpp:37-45 | at most one entry is the first one with the largest area, so the answer of the strict-`>` scan is determined |
| `Registry.Blobs.FilterByArea` | cvBlob/cvblob.cpp:51-67 | the registry afterwards is exactly the in-range entries of the original, in their original order; nothing is added, the blob records are not touched, and a registry with unique keys keeps them unique |
| `Registry.KeptMembers` | cvBlob/cvblob.cpp:57-65 | an entry survives the filter if and only if it was in the registry and `minArea <= area <= maxArea` |
| `Registry.KeptInRange` | cvBlob/cvblob.cpp:57 | every surviving blob has its area in `[minArea, maxArea]` |
| `Registry.KeptUniqueKeys` | cvBlob/cvblob.cpp:53-66 | erasing entries keeps the registry a map: no key appears twice |
| `Registry.KeptIdempotent` | cvBlob/cvblob.cpp:51-67 | filtering a second time with the same bounds removes nothing more |
| `Registry.FilterSingleBlob` | cvBlob/cvblob.cpp:57 | a blob of area 9 survives the range [5, 20] and is removed by [10, 20] |
| `Moments.CentroidOf` | cvBlob/cvblob.cpp:71 | the centroid times the area gives back the raw moments `m10`, `m01` |
| `Moments.Centroid` | cvBlob/cvblob.cpp:69-72 | stores and returns `(m10/area, m01/area)` and changes no other field |
| `Moments.CentralMomentsOf` | cvBlob/cvblob.cpp:74-105 | no change when the moments are cached or the image is not a label image; otherwise only `u11`/`u20`/`u02` and the flag change, the flag becomes true and `u20`, `u02` are non-negative |
| `Moments.CentralMoments` | cvBlob/cvblob.cpp:74-105 | the record afterwards is `CentralMomentsOf` of the record before; a format error is reported exactly when the moments were not cached and the image is not a single-channel label image |
| `Moments.ScanRow` | cvBlob/cvblob.cpp:93-101 | one row of the scan adds the terms of the blob's own pixels in `[minx, maxx)` and skips all others |
| `Moments.PixelTermNonNegative` | cvBlob/cvblob.cpp:96-100 | a pixel's contributions to `u20` and `u02` are squares, hence non-negative |
| `Moments.RowScanNonNegative` | cvBlob/cvblob.cpp:93-101 | scanning a row keeps `u20` and `u02` non-negative |
| `Moments.BoxScanNonNegative` | cvBlob/cvblob.cpp:86-101 | the sums over the whole box, started from 0, have `u20 >= 0` and `u02 >= 0` |
| `Moments.RowScanOnlyMembers` | cvBlob/cvblob.cpp:93-94 | a row's sums depend only on which pixels of `[minx, maxx)` carry the blob's label |
| `Moments.BoxScanOnlyMembers` | cvBlob/cvblob.cpp:88-94 | the box sums depend only on which pixels of the half-open box carry the blob's label |
| `Moments.CentralMomentsOnlyMembers` | cvBlob/cvblob.cpp:88-101 | two label images that agree on the blob's own pixels inside its box give the same moments: other labels inside the box and everything outside it are ignored |
| `Moments.CentralMomentsIdempotent` | cvBlob/cvblob.cpp:76 | a second `cvCentralMoments` changes nothing |
| `Moments.SquareMoments` | cvBlob/cvblob.cpp:86-103 | a 3 x 3 square of label 1 with centroid (5,5) in a 10 x 10 image gives `u11 = 0` and `u20 = u02 = 6`, and its centroid is `m10/area`, `m01/area` |
| `Moments.Angle` | cvBlob/cvblob.cpp:229-238 | reports the diagnostic exactly when the moments are not cached, and then returns 0 |
| `Moments.AngleAvailableAfterMoments` | cvBlob/cvblob.cpp:207-208 | after `cvCentralMoments` on a label image, `cvAngle` no longer reports an error |
| `Render.Hue` | cvBlob/cvblob.cpp:165-173 | the hue of the i-th blob, with `unsigned int` wrap-around, lies in `[0, 360)` |
| `Render.HueNoWrap` | cvBlob/cvblob.cpp:172 | while `i*77` fits an `unsigned int`, the hue is `(i*77) % 360` |
| `Render.HueInverse` | cvBlob/cvblob.cpp:172 | for `i < 360` the hue determines `i` (77 has inverse 173 modulo 360) |
| `Render.HuesDistinct` | cvBlob/cvblob.cpp:165-173 | the first 360 blobs get pairwise different hues |
| `Render.Sector` | cvBlob/cvblob.cpp:111-113 | the switch index `((int)(H/60.)) % 6` lies in 0..5, so one case always fires |
| `Render.SectorOfHue` | cvBlob/cvblob.cpp:111-113 | for a hue in `[0, 360)` the sector is the 60-degree band `h / 60` |
| `Render.Fraction` | cvBlob/cvblob.cpp:111-114 | the position inside the sector, `_f`, lies in `[0, 1)` |
| `Render.SectorRolesShape` | cvBlob/cvblob.cpp:120-140 | every case uses V and p once each, and t in even sectors or q in odd ones; V is red in sectors 5 and 0, green in 1 and 2, and blue in 3 and 4 |
| `Render.ToUChar` | cvBlob/cvblob.cpp:189-191 | the `(unsigned char)` cast keeps the integer part of any value in `[0, 256)` |
| `Render.LevelBounds` | cvBlob/cvblob.cpp:116-138 | with S = .5 and V = 1 each channel level lies in [127, 255]; it is 255 only for V (or q at a sector boundary), and p is 127 |
| `Render.PaletteColorBounds` | cvBlob/cvblob.cpp:116-140 | every palette colour has one channel at 255, one at 127 and all three in [127, 255] |
| `Render.PaletteKeys` | cvBlob/cvblob.cpp:166-176 | the palette has a slot for exactly the labels seen |
| `Render.PaletteSlot` | cvBlob/cvblob.cpp:166-176 | with distinct labels, the i-th blob's label maps to the colour of hue index i |
| `Render.BuildPalette` | cvBlob/cvblob.cpp:163-176 | the palette loop yields `PaletteOf` of the blob labels in iteration order; its keys are those labels, and for a well-formed registry the i-th entry's key holds colour i |
| `Render.Blend` | cvBlob/cvblob.cpp:189-191 | with alpha 0 a channel keeps the source byte, with alpha 1 it takes the palette byte, and for alpha in [0, 1] it lies between the two |
| `Render.CompositeOnlyLabelled` | cvBlob/cvblob.cpp:182-193 | the colour pass changes only bytes of pixels whose label is not 0 |
| `Render.CompositeAlphaExtremes` | cvBlob/cvblob.cpp:185-192 | a labelled pixel becomes the source pixel for alpha 0 and the palette colour (BGR order) for alpha 1 |
| `Render.CompositeStep` | cvBlob/cvblob.cpp:183-192 | visiting one pixel writes its three bytes, blue, green and red, if it is labelled, and nothing otherwise |
| `Render.ColorPass` | cvBlob/cvblob.cpp:178-193 | the destination buffer afterwards is `Composite` of the old buffer over all `width*height` pixels |
| `Render.ComputeAllMoments` | cvBlob/cvblob.cpp:196-208 | every blob record afterwards is `CentralMomentsOf` its old state, even when a record is reached twice |
| `Render.RenderBlobs` | cvBlob/cvblob.cpp:147-226 | a bad label image or a bad destination format is reported and nothing is written; otherwise COLOR mode gives the composite with the iteration-order palette and ANGLE mode caches every blob's central moments |

## Left out

- The drawing calls `cvRectangle` and `cvLine` (BOUNDING_BOX, CENTROID, and the ANGLE segment) are OpenCV library calls whose effect on the image is not visible here.
- Render.RenderBlobs: states the destination only as the colour pass leaves it; the pixels that the overlay drawing changes are not modelled.
- The `atan2` of `cvAngle` is a parameter of `Angle`. The `cos`/`sin` segment endpoints are not modelled: they are floating-point trigonometry.
- The rounding of `double` arithmetic is not modelled; `real` is exact. This matters for the palette's q and t levels, the blend and the moment sums.
- ToUChar: a `double` outside the range of `unsigned char` makes the C++ cast undefined. The model truncates toward zero and keeps the low eight bits.
- Moments.CentroidOf, Moments.Centroid: require `area > 0`. With area 0 the source divides by zero and stores an infinite or NaN centroid, which is not modelled.
- Moments.CentralMoments, Render.RenderBlobs: require that the scanned rows fit in the label buffer, and for COLOR mode that the three buffers hold every pixel. The source reads and writes through these pointers without checking.
- `delete blob` in `cvFilterByArea` is modelled as removal of the entry; freeing the record is not modelled.
- The `cerr` diagnostics are modelled as result values, not as output.
- Row padding (`widthStep`) is not modelled; the source indexes `r*width+c` and ignores it too.
- The insertion of a missing label into the palette map by `pal[*labels]` is not modelled; only the black colour it reads is.
