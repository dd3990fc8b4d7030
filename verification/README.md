# Flatmap maker: slide extraction and tile pyramid, modelled in Dafny

The flatmap maker turns a PowerPoint deck into map layers. It has two parts,
and this project models the core of each.

- **The slide extractor** (`mapmaker/drawml/extractor.py`).
  - Each slide becomes one `Layer`. The layer reads its settings from a
    *layer directive*: notes text that starts with `.`.
  - Without a directive, or with one the parser rejects, the layer falls back
    to the default id `layer-NN`.
  - The layer collects the properties of each shape. A shape whose name
    starts with `.` is *annotated*. Its ids are tracked, and syntax errors are
    reported. A repeated id is meant to be flagged and reported as well. As
    written, the loop instead raises RuntimeError (see "## Findings"). The
    model of layer processing uses the corrected loop.
  - Drawable shapes become `Feature`s. Group shapes are recursed into, with
    the group's name on a stack.
  - The `Extractor` registers each layer under its id. A second layer with the
    same id raises `KeyError`.
  - The per-shape DrawingML transform of section L.4.7.6 of ECMA-376 Part 1 is
    modelled as 3×3 homogeneous matrices over exact reals. So are the
    unit conversion and the ellipse boundary point.
- **The tile maker** (`src/tilemaker.py`).
  - The rendered page is cut into 256 × 256 tiles. Each tile's white pixels
    are keyed to transparent, and a partial tile is padded.
  - Only tiles that are not fully transparent are stored at the maximum zoom.
  - Each lower zoom level is built by shrinking each block of four tiles into
    the quadrants of one overview tile.
  - The MBTiles database is an in-memory map from (zoom, x, y) to images.

Files:

| file | contents |
|---|---|
| `wrappers.dfy` | `Option` and `Result` |
| `text.dfy` | decimal formatting as `str()` and `'{:02d}'` produce it, with parse-back lemmas, and `capitalize` |
| `real_algebra.dfy` | scalar identities over reals used by the geometry proofs |
| `drawing_transform.dfy` | `cm_coords`, `ellipse_point`, `Transform.__init__` |
| `shapes.dfy` | property values, insertion-ordered dictionaries, shapes, the `Feature` class |
| `layer.dfy` | `Layer.__init__`, `set_defaults_`, `get_properties_`, `process_shape_list`, `process_group`, `process` |
| `extractor.dfy` | the `Extractor` class and its layer registry |
| `raster.dfy` | RGBA images, `make_transparent`, `not_transparent`, pasting and a pixel-buffer canvas |
| `page_tiler.dfy` | `Affine`, `check_image_size`, `PageTiler.tile_as_png` |
| `pyramid.dfy` | the tile store, `TileMaker.make_tiles`, `make_overview_tiles` |

Operations that change state are methods on classes: `Feature`, `Layer`,
`Extractor`, `Canvas`, `PageTiler`, `TileStore` and `TileMaker`. Each method
is proved against a specification function, and the lemmas state what those
functions promise.

The model follows the code as written, with one exception: repeated ids.
Every member built on `get_properties_` uses the corrected property loop, as
"## Left out" and "## Findings" say.

In two places the code's behaviour differs from what a reader would expect,
whether from the ECMA-376 section the code cites
(mapmaker/drawml/extractor.py:70) or from the code's own evident intent. The
model keeps the code's behaviour in both:

- For an axis whose child extent D is zero, the scale-translate matrix T_st
  maps x to x + B′. It does not map B to B′. `ScaleTranslateDegenerateAxis`
  states this behaviour, and `ScaleTranslateMapsChildBox` states the B → B′
  property for non-zero extents.
- A directive without a string `id` raises `AttributeError`. The default
  description `layer_id.capitalize()` is evaluated even when the directive has
  a description.

## Model

| member | source | states |
|---|---|---|
| `Text.Format02RoundTrip` | mapmaker/drawml/extractor.py:189 | the `{:02d}` text of every integer, negative ones included, reads back as that integer |
| `Text.Format02Injective` | mapmaker/drawml/extractor.py:211 | two integers with the same `{:02d}` text are equal |
| `Text.IntToString` | mapmaker/drawml/extractor.py:212 | `str(n)` is non-empty and starts with `-` exactly when n is negative |
| `Text.Capitalize` | mapmaker/drawml/extractor.py:192 | same length as the input; the first character upper-cased and every later one lower-cased |
| `DrawingTransform.CmCoords` | mapmaker/drawml/extractor.py:53-55 | multiplying the result by EMUs per centimetre gives back the EMU coordinates |
| `DrawingTransform.EllipsePoint` | mapmaker/drawml/extractor.py:57-62 | fails with a division by zero exactly when the computed radius is zero |
| `DrawingTransform.EllipseRadiusPositive` | mapmaker/drawml/extractor.py:59-61 | for non-zero semi-axes the radius the function divides by is positive |
| `DrawingTransform.EllipsePointScaled` | mapmaker/drawml/extractor.py:57-62 | for a proper ellipse the point exists, and x/a and y/b are b·cos t and a·sin t over the radius |
| `DrawingTransform.EllipsePointOnEllipse` | mapmaker/drawml/extractor.py:57-62 | the returned point satisfies (x/a)² + (y/b)² = 1 |
| `DrawingTransform.EllipsePointOnRay` | mapmaker/drawml/extractor.py:57-62 | for positive semi-axes the point lies on the ray from the centre at angle t, on its forward side |
| `DrawingTransform.EllipsePointAtZero` | mapmaker/drawml/extractor.py:57-62 | at angle 0 the point is (a, 0) |
| `DrawingTransform.EllipsePointAtRightAngle` | mapmaker/drawml/extractor.py:57-62 | at a right angle the point is (0, b) |
| `DrawingTransform.ApplyMul` | mapmaker/drawml/extractor.py:95 | applying a matrix product is applying the right factor and then the left |
| `DrawingTransform.AffineMul` | mapmaker/drawml/extractor.py:94-95 | a product of affine matrices is affine, and its linear determinant is the product of the determinants |
| `DrawingTransform.ChildSpaceFallbacks` | mapmaker/drawml/extractor.py:71-76 | without `chOff` the child origin is (0, 0); without `chExt` the child extent is the bounding box; with neither, the transform raises TypeError, and otherwise it exists |
| `DrawingTransform.ScaleTranslateMapsChildBox` | mapmaker/drawml/extractor.py:82-84 | for non-zero child extents T_st maps the child box corners B and B+D onto B′ and B′+D′ |
| `DrawingTransform.ScaleTranslateDegenerateAxis` | mapmaker/drawml/extractor.py:82-84 | on an axis with zero child extent T_st translates by B′ with scale 1 |
| `DrawingTransform.ScaleTranslateDet` | mapmaker/drawml/extractor.py:82-84 | T_st is affine, and it is singular exactly when a non-zero child extent is mapped to a zero extent |
| `DrawingTransform.CentreTranslationsInverse` | mapmaker/drawml/extractor.py:85-87 | U and the translation back to the centre are inverse matrices, so the latter is the `inv(U)` of line 94 |
| `DrawingTransform.RotateFlipFactors` | mapmaker/drawml/extractor.py:85-94 | the closed-form T_rf equals the product inv(U)·R·Flip·U |
| `DrawingTransform.ApplyRotateFlip` | mapmaker/drawml/extractor.py:94 | T_rf flips the offset from the shape centre, rotates it, and adds it back to the centre |
| `DrawingTransform.RotateFlipFixesCentre` | mapmaker/drawml/extractor.py:85-94 | T_rf leaves the centre B′ + D′/2 fixed for every angle and flip |
| `DrawingTransform.RotateFlipKeepsDistanceToCentre` | mapmaker/drawml/extractor.py:88-94 | T_rf keeps every point's distance to the centre, so it is a rigid motion |
| `DrawingTransform.RotateFlipDet` | mapmaker/drawml/extractor.py:88-94 | T_rf is affine with linear determinant Fx·Fy, which is ±1 |
| `DrawingTransform.UnrotatedShapeTransform` | mapmaker/drawml/extractor.py:79-95 | with no rotation and no flip, T_rf is the identity and the transform is T_st alone |
| `DrawingTransform.ShapeTransformComposes` | mapmaker/drawml/extractor.py:95 | the shape transform applies T_st first and T_rf second |
| `DrawingTransform.ShapeTransformInvertible` | mapmaker/drawml/extractor.py:82-95 | the shape transform is affine, and it is invertible exactly when no non-zero child extent is squashed to zero |
| `Shapes.LookupSet` | mapmaker/drawml/extractor.py:355 | after `d[k] = v`, looking up k gives v and every other key is unchanged |
| `Shapes.LookupUpdate` | mapmaker/drawml/extractor.py:358 | after `d.update(e)`, a key of e has e's value and every other key keeps d's |
| `Shapes.IsAnnotated` | mapmaker/drawml/extractor.py:118-120 | annotated exactly when the shape name is a string that starts with '.'; a non-string name raises AttributeError |
| `Shapes.HasValueMeans` | mapmaker/drawml/extractor.py:150-151 | `has(p)` holds exactly when p is present with a value other than the empty string |
| `Shapes.Feature.constructor` | mapmaker/drawml/extractor.py:103-107 | the new feature holds the given id, geometry, properties and child flag |
| `Shapes.Feature.Copy` | mapmaker/drawml/extractor.py:112-116 | the copy is a new object with equal contents |
| `Shapes.Feature.SetGeometry` | mapmaker/drawml/extractor.py:126-128 | only the geometry changes |
| `Shapes.CopyIsIndependent` | mapmaker/drawml/extractor.py:112-116 | changing a copy's geometry leaves the original unchanged |
| `Layers.ReadHeader` | mapmaker/drawml/extractor.py:181-202 | reading a directive fails only with AttributeError, yields at most one message, and a selectable layer always has a directive |
| `Layers.NoDirectiveDefaults` | mapmaker/drawml/extractor.py:210-218 | without a directive the layer has id `layer-NN`, is not selectable and has no messages |
| `Layers.DefaultIdInjective` | mapmaker/drawml/extractor.py:211 | different slide numbers give different default layer ids |
| `Layers.InvalidDirectiveFallsBack` | mapmaker/drawml/extractor.py:186-189 | a rejected directive gives exactly the invalid-directive message and the default id |
| `Layers.DirectiveNamesLayer` | mapmaker/drawml/extractor.py:190-192 | a valid directive succeeds exactly when its id is a string; that string is the layer id, and its capitalised form is the default description |
| `Layers.SelectableMeans` | mapmaker/drawml/extractor.py:194-195 | selectable exactly when there is a directive with an empty `background-for` and a falsy `not-selectable` |
| `Layers.PlainNameProperties` | mapmaker/drawml/extractor.py:361-362 | a name not starting with '.' gives exactly `{shape_name: name}` and leaves the bookkeeping unchanged |
| `Layers.SyntaxErrorProperties` | mapmaker/drawml/extractor.py:334-340 | a rejected annotation is marked `error='syntax'`, keeps its name, adds one message naming the current group and records no id |
| `Layers.ScanEffects` | mapmaker/drawml/extractor.py:342-355 | the property loop records a new id, adds one message for a duplicate and one for a warning, flags a duplicate with `error='duplicate-id'`, and keeps the group stack |
| `Layers.LiveScanAgrees` | mapmaker/drawml/extractor.py:342-355 | when no pass changes the dictionary's size, iterating it live gives the same result as iterating a snapshot |
| `Layers.LiveScanRaises` | mapmaker/drawml/extractor.py:342-355 | when a pass adds a key, iterating the dictionary live raises RuntimeError |
| `Layers.DuplicateIdRaisesAsWritten` | mapmaker/drawml/extractor.py:342-348 | as written, a shape repeating an already-seen id raises RuntimeError |
| `Layers.DuplicateIdExample` | mapmaker/drawml/extractor.py:342-348 | `.id(a)` on a layer that has already seen `a` raises as written, but succeeds with the snapshot loop |
| `Layers.DuplicateIdFlagged` | mapmaker/drawml/extractor.py:343-348 | with the snapshot loop, a duplicate id is flagged `error='duplicate-id'`, adds a message and is not recorded again |
| `Layers.NoDuplicateAgrees` | mapmaker/drawml/extractor.py:332-363 | without a duplicate id, the code as written and the snapshot loop give the same properties and bookkeeping |
| `Layers.FirstIdRecorded` | mapmaker/drawml/extractor.py:343-350 | the first shape with an id appends it to the annotated ids, and nothing else changes |
| `Layers.PropertiesKeepGroups` | mapmaker/drawml/extractor.py:332-363 | while a group is on the stack, `get_properties_` cannot fail and leaves the stack unchanged |
| `Layers.ShapesStep` | mapmaker/drawml/extractor.py:306-327 | the shape loop is its first pass followed by the loop over the rest, and the first failure stops it |
| `Layers.ListOutcome` | mapmaker/drawml/extractor.py:294-330 | with a group on the stack, processing a list cannot fail, restores the stack, and returns one feature per drawable shape in order (none when not selectable) |
| `Layers.ShapesOutcome` | mapmaker/drawml/extractor.py:305-330 | the loop returns exactly the drawable shapes' ids in order, and none of those features has geometry or children |
| `Layers.ShapeOutcome` | mapmaker/drawml/extractor.py:307-324 | a drawable shape gives one feature with its id; a group, text box, picture or other shape gives none; the stack is restored |
| `Layers.NotSelectableMakesNothing` | mapmaker/drawml/extractor.py:296-297 | a layer that is not selectable returns no features and changes nothing |
| `Layers.BuildLayerFails` | mapmaker/drawml/extractor.py:168-208 | building and processing a layer fails exactly when reading its directive fails, and leaves only `SLIDE` on the group stack |
| `Layers.Layer.constructor` | mapmaker/drawml/extractor.py:204-208 | a new layer has the given header, the given messages, no annotated ids and an empty group stack |
| `Layers.Layer.Create` | mapmaker/drawml/extractor.py:168-208 | construction fails exactly when the directive has no string id; otherwise the layer holds the header and messages that reading the directive gives |
| `Layers.Layer.GetProperties` | mapmaker/drawml/extractor.py:332-363 | returns the properties and leaves the bookkeeping that the specification of `get_properties_` gives, including its failure |
| `Layers.Layer.ScanEntry` | mapmaker/drawml/extractor.py:343-355 | one pass of the property loop updates the properties and bookkeeping as specified for that entry |
| `Layers.Layer.ProcessShapeList` | mapmaker/drawml/extractor.py:294-330 | the fresh features' contents and the new bookkeeping are those of the list specification, or it fails with the same exception |
| `Layers.Layer.ProcessOne` | mapmaker/drawml/extractor.py:307-324 | one pass of the shape loop agrees with the single-shape specification |
| `Layers.Layer.ProcessGroup` | mapmaker/drawml/extractor.py:285-287 | the group's shapes are processed with the group's name pushed on the stack, and nothing is returned |
| `Layers.Layer.Process` | mapmaker/drawml/extractor.py:276-278 | pushes `SLIDE` and processes the slide's shapes as the list specification says |
| `Extraction.SlideAt` | mapmaker/drawml/extractor.py:398-399 | `slides[n - 1]` with Python indexing: valid for -len < n ≤ len, with numbers ≤ 0 counting from the end, and IndexError otherwise |
| `Extraction.SlideZeroIsLast` | mapmaker/drawml/extractor.py:398-399 | slide number 0 is the last slide |
| `Extraction.RegisterOne` | mapmaker/drawml/extractor.py:401-417 | a successful `slide_to_layer` adds at most one key to the registry and removes none |
| `Extraction.RegisterOneOutcome` | mapmaker/drawml/extractor.py:412-414 | registering raises KeyError exactly when the layer id is taken; otherwise the id is added |
| `Extraction.RegisterAll` | mapmaker/drawml/extractor.py:419-425 | converting a range of slides never removes a registered key |
| `Extraction.Numbers` | mapmaker/drawml/extractor.py:420-421 | the default range is exactly 1, 2, …, len in order |
| `Extraction.DefaultIdsGrow` | mapmaker/drawml/extractor.py:189 | the next slide's default id is new among the previous slides' default ids |
| `Extraction.DefaultLayersRegister` | mapmaker/drawml/extractor.py:419-425 | for slides without directives, converting the remaining slides registers exactly their default ids and raises nothing |
| `Extraction.AllDefaultLayers` | mapmaker/drawml/extractor.py:419-425 | converting every slide of a deck without directives registers exactly `layer-01` … `layer-NN` without a KeyError |
| `Extraction.Extractor.constructor` | mapmaker/drawml/extractor.py:368-374 | a new extractor holds the slides and slide size, and its registry is empty |
| `Extraction.Extractor.Bounds` | mapmaker/drawml/extractor.py:395-396 | the slide rectangle has its top-left corner at the origin and the slide's width and height |
| `Extraction.Extractor.SlideToLayer` | mapmaker/drawml/extractor.py:401-417 | makes a fresh layer, processes it and registers it under its own id; a taken id raises KeyError and leaves the registry unchanged; without a layer class nothing is made |
| `Extraction.Extractor.SlidesToLayers` | mapmaker/drawml/extractor.py:419-425 | the registry ends as converting the range slide by slide specifies, stopping at the first exception |
| `Raster.Blank` | src/tilemaker.py:117 | a new image of the given size with every pixel the fill colour |
| `Raster.MakeTransparent` | src/tilemaker.py:49-55 | same size and RGB; alpha is 0 where the RGB is the key colour and 255 elsewhere |
| `Raster.WhiteBranchAgrees` | src/tilemaker.py:51-54 | the white shortcut and the general branch key every image alike when the colour's RGB is white |
| `Raster.MakeTransparentIdempotent` | src/tilemaker.py:49-55 | keying twice with one colour is the same as keying once |
| `Raster.NotTransparent` | src/tilemaker.py:59-61 | true exactly when some pixel has a non-zero alpha |
| `Raster.BlankTileTransparent` | src/tilemaker.py:117 | the transparent white tile is fully transparent |
| `Raster.KeyedVisible` | src/tilemaker.py:49-61 | after keying, an image is visible exactly when some pixel's RGB differs from the key colour |
| `Raster.Pasted` | src/tilemaker.py:118 | pasting replaces the covered canvas pixels with the image's pixels, alpha included, and keeps the size |
| `Raster.PasteKeepsOutside` | src/tilemaker.py:118 | pixels outside the pasted rectangle are unchanged |
| `Raster.Canvas.constructor` | src/tilemaker.py:188 | a new canvas holds a blank image of the given size and fill |
| `Raster.Canvas.Paste` | src/tilemaker.py:194 | the canvas afterwards holds the old contents with the image pasted at the offset |
| `PageTiling.AffineMapsAToB` | src/tilemaker.py:65-72 | the affine map sends translateA to translateB |
| `PageTiling.AffineScalesDifferences` | src/tilemaker.py:65-72 | the affine map scales coordinate differences by the scale on each axis |
| `PageTiling.CheckImageSize` | src/tilemaker.py:76-85 | fails the assertion exactly when the render is longer than the tile; gives the far-end offset, the rounded page-start offset or 0, as each case of the source says |
| `PageTiling.ClipScale` | src/tilemaker.py:101-102 | the scale is infinite exactly when the clip has zero extent on that axis, and otherwise times the extent gives 255 |
| `PageTiling.CheckImageSizeAt` | src/tilemaker.py:76-85 | a finite scale gives what `check_image_size` gives; an infinite one raises OverflowError exactly in the branch that floors `0.5 - lower*scale` |
| `PageTiling.InfiniteScaleUnread` | src/tilemaker.py:76-85 | outside that branch an infinite scale gives what every finite scale gives |
| `PageTiling.ZeroExtentClipPlaced` | src/tilemaker.py:97-108 | a clip of zero extent on a page whose far edge is not negative is placed as with any finite scale, and fails only for a render longer than the tile |
| `PageTiling.ShortRenderEndsAtEdge` | src/tilemaker.py:78-80 | a short render clipped only at the start ends exactly at the tile's far edge |
| `PageTiling.ClippedOffsetNonNegative` | src/tilemaker.py:81-82 | a render clipped at both ends of the page gets a non-negative offset |
| `PageTiling.TilerSpansPage` | src/tilemaker.py:90-95 | the tiler's map sends the image rectangle's corners to the page's origin and far corner |
| `PageTiling.TileIsTileSize` | src/tilemaker.py:113-119 | every tile `tile_as_png` returns is 256 × 256 |
| `PageTiling.TileFailsOnlyWhenOversize` | src/tilemaker.py:97-119 | on a page whose right and bottom edges are not negative, a tile fails exactly when the render is larger than a tile, with AssertionError, whatever the clip's extent |
| `PageTiling.FullRenderKeyed` | src/tilemaker.py:113-114 | a full-size render is only keyed |
| `PageTiling.OversizeRenderFails` | src/tilemaker.py:111 | a render wider than a tile fails the size assertion |
| `PageTiling.PaddedTile` | src/tilemaker.py:115-119 | in a padded tile the uncovered pixels are transparent, and the covered ones keep the render's colour and are opaque exactly when not white |
| `PageTiling.PageTiler.constructor` | src/tilemaker.py:90-95 | the tiler's map is the page-over-image scale anchored at the image's top-left corner |
| `PageTiling.PageTiler.Create` | src/tilemaker.py:90-95 | construction raises ZeroDivisionError exactly when the image rectangle has zero width or height |
| `PageTiling.PageTiler.TileAsPng` | src/tilemaker.py:97-119 | returns the tile that the tile specification gives for the render of its clip, including its failures; a clip of zero extent gets an infinite scale, not an exception |
| `Pyramid.TileStore.SaveTile` | src/tilemaker.py:171 | the store afterwards maps (zoom, x, y) to the image, and every other tile is unchanged |
| `Pyramid.TileStore.GetTile` | src/tilemaker.py:192 | returns the stored tile, or a miss exactly when none is stored |
| `Pyramid.BaseLevelStoresVisible` | src/tilemaker.py:165-172 | every tile in the store after the base level was there before, or is a covering tile at the base zoom that is not fully transparent and holds what the tiler cut at its offset from the first covering tile |
| `Pyramid.BaseLevelStoresAll` | src/tilemaker.py:165-172 | when nothing raised, every covering tile that is not fully transparent is stored, holding what the tiler cut at its offset from the first covering tile |
| `Pyramid.BaseLevelKeeps` | src/tilemaker.py:165-172 | cutting the base level never removes a tile |
| `Pyramid.ChildKey` | src/tilemaker.py:192 | the children of an overview tile are one zoom up, and their indices halve to the parent's |
| `Pyramid.OverviewQuadrant` | src/tilemaker.py:188-196 | child (i, j), shrunk, fills quadrant (i, j) of the overview tile; a missing child leaves that quadrant transparent |
| `Pyramid.OverviewReadsChildren` | src/tilemaker.py:188-196 | an overview tile depends only on its four children |
| `Pyramid.NoChildrenBlank` | src/tilemaker.py:188-197 | an overview tile with no children is blank and is not stored |
| `Pyramid.LevelMeans` | src/tilemaker.py:186-201 | a level adds exactly the in-range tiles whose overview is not fully transparent, each holding its overview, and keeps every other tile |
| `Pyramid.PartKeepsChildren` | src/tilemaker.py:186-201 | partway through a level, the children of every tile of that level are still as they were, so the result does not depend on the visiting order |
| `Pyramid.HalvedRangeHoldsParents` | src/tilemaker.py:184-187 | every index of a level's range has its parent in the halved range |
| `Pyramid.OverviewsKeepOthers` | src/tilemaker.py:178-203 | the overview levels leave the base zoom and above (and negative zooms) unchanged |
| `Pyramid.OverviewsAddBelow` | src/tilemaker.py:178-203 | every tile the overview levels add or replace is at a zoom from zoom − 1 down to 0 and is not fully transparent |
| `Pyramid.TileMaker.constructor` | src/tilemaker.py:124-133 | the start and end coordinates are the first and last covering tiles |
| `Pyramid.TileMaker.Create` | src/tilemaker.py:129-133 | an empty covering raises IndexError |
| `Pyramid.TileMaker.MakeTiles` | src/tilemaker.py:156-176 | the store and the outcome are those of the tiling specification: the tiler is made, the base level is cut, then the overview levels are added |
| `Pyramid.TileMaker.OverviewTile` | src/tilemaker.py:188-196 | the composed tile is the overview image of its children in the store |
| `Pyramid.TileMaker.AddChild` | src/tilemaker.py:191-196 | one pass of the quadrant loop pastes child (i, j), or leaves the canvas as it was on a miss |
| `Pyramid.TileMaker.MakeOverviewTiles` | src/tilemaker.py:178-203 | the store afterwards is the overview-levels specification applied to the old store |
| `Pyramid.TileMaker.MakeLevel` | src/tilemaker.py:186-201 | the store afterwards is the old store with one level added, as `LevelMeans` describes |
| `Pyramid.TileMaker.MakeColumn` | src/tilemaker.py:187-201 | one pass of the x loop adds that column of the level |
| `Pyramid.TileMaker.MakeLevelTile` | src/tilemaker.py:188-201 | one pass of the y loop stores that overview tile exactly when it is not fully transparent |

## Left out

- The annotation parser (`Parser.layer_directive` and `Parser.shape_properties`) is not part of this model. What it returns for a slide's notes or a shape's name is an input: `Slide.directive` and `Shape.annotation`.
- The anatomical map is not part of this model. It is a table from class to extra properties.
- The settings, `slide_maker`, the `extractor`/`settings` accessors and the other read-only properties of `Layer` are not modelled. They only return stored fields.
- `process_shape` and `process_group` are subclass hooks. The base class returns `None`, so a feature's geometry is always `None` here and a group never contributes a feature.
- The geometry type is only a name.
- Printing and the `tqdm` progress bar are left out. So are the tile counts, which are only printed.
- `debug_xml`, `save_output` and `layer.save()` write files or are empty hooks, and are left out.
- The `errors` list holds the values each message is formatted from, not the formatted text.
- Floating point is modelled as exact reals. So is numpy's matrix arithmetic, including `np.linalg.inv`. The one infinity the core can meet is kept: a tile clip of zero extent makes numpy's float64 scale +inf, with a warning and no exception (`PageTiling.Scale`). Because T_rf is built from U and its inverse, the closed form proved equal to the product is used.
- sin, cos and sqrt are not computed. Their values are inputs, constrained by cos² + sin² = 1 and by r ≥ 0 with r² = x.
- Text.Capitalize and Text.Upper/Lower only change the case of ASCII letters. Python's `str.capitalize` covers all of Unicode.
- PDF rendering is not modelled. The image that `getPixmap` produces for a tile's clip is an input (`render`). So is whatever it produces, or whether it raises, for a clip of zero extent and an infinite scaling matrix.
- PageTiling.Rect: `Width` and `Height` are the signed `x1 - x0` and `y1 - y0`, where fitz never reports a negative width or height. The two differ only for an inverted rectangle, which `TileMaker.__init__` does not build from a valid extent.
- Resizing a child tile to half size with Lanczos resampling is not modelled. It is an input function (`halve`), and the quadrant lemmas assume it returns 128 × 128 images.
- PNG encoding and decoding are left out. Images are pixel arrays.
- The tile covering that `mercantile` computes is an input (`tiles`). So is the image rectangle in tile pixels that `TileMaker.__init__` derives from it through world coordinates.
- The MBTiles database is an in-memory map. Opening the file, `close` and the metadata are left out, and a missed `get_tile` is a `None` result instead of an `ExtractionError`.
- `make_image` and the command-line entry points are outside the core.
- Layers.PropertiesOf: models `get_properties_` with its loop over a snapshot of the entries. A repeated id is then flagged `error='duplicate-id'`, where the code as written raises RuntimeError. The other members built on it inherit this: `Layers.ProcessList`, `Layers.ProcessShapes`, `Layers.ProcessShape`, `Layers.BuildLayer`, `Layers.Layer.GetProperties`, `Layers.Layer.ProcessShapeList`, `Layers.Layer.ProcessOne`, `Layers.Layer.Process`, `Extraction.RegisterOne`, `Extraction.RegisterAll`, `Extraction.Extractor.SlideToLayer` and `Extraction.Extractor.SlidesToLayers`. `Layers.PropertiesWith` with `live` set models the code as written, and `Layers.NoDuplicateAgrees` proves the two agree whenever no id repeats.
- Layers.BuildLayerFails: holds for the corrected loop. As written, a selectable slide with a repeated shape id also fails, with RuntimeError, which escapes `process()` and `slide_to_layer`.
- Layers.ListOutcome: "cannot fail" holds for the corrected loop only. As written, a repeated shape id raises RuntimeError.
- Layers.PropertiesKeepGroups: "cannot fail" holds for the corrected loop only. As written, a repeated shape id raises RuntimeError.

## Findings

| source | as written | input that shows it | evidently intended | confidence | as-written member | corrected member |
|---|---|---|---|---|---|---|
| mapmaker/drawml/extractor.py:342-348 | the loop iterates `properties.items()` while the duplicate-id branch adds the new key `error` to that dictionary, so the next iteration step raises RuntimeError ("dictionary changed size during iteration") | a shape named `.id(a)` on a layer that has already recorded the id `a` | flag the shape with `error='duplicate-id'`, add one message and continue | not executed | `Layers.DuplicateIdRaisesAsWritten` | `Layers.DuplicateIdFlagged` |
