# Aegean source finder: island segmentation, background mesh and catalog formats in Dafny

This project models the core of the Aegean radio source finder, as it stands in
`aegean.py` and `AegeanTools/catalogs.py`, and proves what that code promises.

**Island segmentation** (`Islands.dfy`, `Segmentation.dfy`, `Flooding.dfy`, `FloodWrap.dfy`):
- `gen_flood_wrap` seeds every pixel whose signal-to-noise ratio exceeds `innerclip`.
- It floods from each seed in descending `(flux, x, y)` order, with the breadth-first `flood` and its neighbour test `explore`.
- These work on a per-pixel `uint8` status map whose PEAKED, QUEUED and VISITED bits (1, 2 and 4) are OR-ed in place.
- Each blob becomes a NaN-padded sub-image with `Island.list2map`.
- `map2list` and `get_pixlist` are modelled as the comprehensions they are.

**Background** (`Background.dfy`):
- `estimate_background` takes the median, and the inter-quartile range over 1.34896, of the values that are not NaN.
- `make_bkg_rms_image` lays its mesh of boxes over the image and paints each box's estimate into the background and rms images.

**Helpers** (`Helpers.dfy`):
- `within`, `fix_shape`, `pa_limit` and `OutputSource.__cmp__`.
- The pixel box that `force_measure_flux` cuts out around a position.

**Catalog formats** (`Catalogs.dfy`, with `PyText.dfy` for the pieces of Python's string handling involved):
- which formats are supported, and which reader or writer a file extension selects;
- the metadata every catalog carries;
- the galactic column renaming and the `_comp`/`_isle`/`_simp` file names of `write_catalog`;
- turning a table back into sources;
- the FITS and sqlite column types, and `nulls`;
- the geometry of the DS9 region files drawn around islands.

**Shared pieces:**
- `Floats.dfy` models numpy floats as a number, an infinity or NaN.
- `Sorting.dfy` holds a generic verified sort, and a proof that sorted permutations are unique.

**State and values:**
- Images that the code only reads are value grids (`seq<seq<Float>>`).
- Arrays that it fills in place are `array2`: the status map, the background and rms images, and the island sub-image.
- Mutable objects are classes: `OutputSource`, the metadata dictionary and the sources built from a table.

## Model

| member | source | states |
|---|---|---|
| Floats.Div | aegean.py:386 | a NaN operand gives NaN; two numbers with a non-zero divisor give their quotient (the `data/rmsimg` ratio) |
| Floats.LeTotalOrder | aegean.py:849 | on values that are not NaN the float order is reflexive, total, antisymmetric and transitive |
| Floats.SubOrderedNotNegative | aegean.py:853 | the difference `hi - lo` of two ordered floats is never negative |
| Sorting.Sort | aegean.py:849 | the sort returns a permutation of its input that is in order |
| Sorting.SortedUnique | aegean.py:396 | two sorted permutations of the same values are equal under an antisymmetric order, so `list.sort` and `ndarray.sort` give the one order the model uses |
| Islands.Map2ListAt | aegean.py:105-108 | `map2list` has `w*h` entries and holds `(map[x,y], x, y)` at position `x*h + y` |
| Islands.GetPixlistMembers | aegean.py:110-115 | `get_pixlist(clip)` holds exactly the pixels whose value exceeds `clip`, each with its value, in row-major order |
| Islands.GetPixlistFiltersMap2List | aegean.py:105-115 | `get_pixlist(clip)` is `map2list` with the entries at or below `clip` removed |
| Islands.BoundingBox | aegean.py:98-99 | the minima and maxima of the listed coordinates bound every listed pixel and are attained |
| Islands.Paint | aegean.py:101-102 | the copy loop puts `pixels[x,y]` at `(x-xmin, y-ymin)` for every listed pixel and leaves the other cells NaN |
| Islands.List2Map | aegean.py:85-103 | `list2map` returns a fresh `(xmax-xmin+1) x (ymax-ymin+1)` array over the tight bounds of the list; listed pixels hold the image value, all others NaN |
| Segmentation.NeighboursSpec | aegean.py:317-339 | the candidates are distinct 4-neighbours; for an in-bounds pixel, exactly its 4-neighbours inside `[0, bounds[0]] x [0, bounds[1]]` |
| Segmentation.EnqueuedSpec | aegean.py:317-339 | `explore` enqueues, without duplicates, exactly the in-bounds 4-neighbours that lack QUEUED and have `data/rms >= cutoff` |
| Segmentation.Offer | aegean.py:318-321 | one neighbour test: the pixel is appended and gets QUEUED exactly when it lacked QUEUED and passed; no other status changes |
| Segmentation.OfferAll | aegean.py:317-339 | the four tests in order: the appended pixels, and QUEUED OR-ed into exactly those |
| Segmentation.Explore | aegean.py:300-339 | a negative coordinate halts (`sys.exit`) with nothing changed; otherwise the queue grows by exactly the enqueued neighbours, which alone get QUEUED |
| Flooding.MarkBits | aegean.py:355-361 | OR-ing QUEUED or VISITED sets that bit, keeps the others, and never clears a bit |
| Flooding.Snapshot | aegean.py:382 | a value copy of the status map, cell by cell |
| Flooding.MarkQueued | aegean.py:354-355 | the start pixel gets QUEUED, nothing else changes |
| Flooding.MarkVisited | aegean.py:361 | the visited pixel gets VISITED, nothing else changes |
| Flooding.Spread | aegean.py:364 | exploring a blob pixel appends the admissible neighbours and marks them QUEUED |
| Flooding.Visit | aegean.py:357-364 | one turn of the loop: a VISITED pixel is skipped, any other joins the blob and is explored; the loop invariant is kept |
| Flooding.Absorbed | aegean.py:361-364 | adding a pixel to the blob keeps every part of the invariant: queue, sources, blob, progress, closure |
| Flooding.DistinctWithin | aegean.py:357 | a duplicate-free queue of in-image pixels is no longer than the image, so the loop ends |
| Flooding.Finished | aegean.py:357-366 | when the queue is read out, every neighbour of a blob pixel that passes the cutoff is in the blob or was QUEUED or VISITED before |
| Flooding.Idle | aegean.py:350-351 | `flood` from a VISITED pixel returns `[]` and changes nothing |
| Flooding.Marks | aegean.py:355-361 | bits are only OR-ed in; the newly VISITED pixels are the blob's; each newly QUEUED one is in the blob or was VISITED before |
| Flooding.NewlyQueuedGrows | aegean.py:319-339 | `explore` appends only pixels that were not QUEUED when the walk started |
| Flooding.BlobNewlyQueued | aegean.py:357-364 | every blob pixel after the peak was not QUEUED when the walk started |
| Flooding.Outcome | aegean.py:353-366 | the loop invariant at the end gives the full contract of `flood` |
| Flooding.Flood | aegean.py:341-366 | `flood`: the blob starts at the peak and has no duplicates; its pixels were not VISITED before; after the first, each was not QUEUED before, passes the cutoff and touches an earlier one; it is closed under passing neighbours; bits only grow, and VISITED is set on exactly the blob |
| FloodWrap.Ratio | aegean.py:386 | the signal-to-noise image is `data/rms` pixel by pixel |
| FloodWrap.OuterClip | aegean.py:379-380 | `outerclip` defaults to `innerclip` |
| FloodWrap.DescendingOrder | aegean.py:396 | `peaks.sort(reverse=True)` on `(flux, x, y)` tuples is a total order on seeds, which are never NaN |
| FloodWrap.SeedCellsMembers | aegean.py:390-391 | the peak tuples are exactly the pixels above `innerclip`, each with its flux |
| FloodWrap.PeaksSpec | aegean.py:390-397 | the peaks are exactly the seeds, in descending `(flux, x, y)` order |
| FloodWrap.SomePeak | aegean.py:390-392 | when some pixel exceeds `innerclip` there is a peak, and the peaks are valid seeds |
| FloodWrap.CoversGrows | aegean.py:403-404 | after a flood, every blob so far is VISITED in the status map |
| FloodWrap.DisjointGrows | aegean.py:403-404 | a new blob shares no pixel with earlier ones, because VISITED persists between floods |
| FloodWrap.IslandNew | aegean.py:403-406 | a new blob is an island of its seed: it starts at the seed, is linked, and passes `outerclip` |
| FloodWrap.OrderedGrows | aegean.py:403 | blobs come out in the order of their peaks |
| FloodWrap.ReachedKept | aegean.py:403-406 | appending a blob leaves unchanged which pixels the earlier blobs reached |
| FloodWrap.LeadingGrows | aegean.py:396-406 | a blob flooded from the next peak starts at the brightest peak that no earlier blob reached, because the earlier peaks are already VISITED and so lie in earlier blobs |
| FloodWrap.Segments | aegean.py:403-406 | one flood keeps the segmentation invariant: blobs disjoint, covered, ordered, each starting at the brightest peak not reached before it, every earlier peak flooded |
| FloodWrap.Fresh | aegean.py:382-386 | a status map holding only PEAKED bits starts the segmentation |
| FloodWrap.AllSeeded | aegean.py:403-406 | after the loop, every seed lies in some blob |
| FloodWrap.SeedsLead | aegean.py:396-406 | each blob starts at a pixel at least as bright as every seed that no earlier blob reached |
| FloodWrap.Yield | aegean.py:411-413 | each blob is cut out with `list2map` |
| FloodWrap.CutsGrow | aegean.py:411-413 | the sub-images stay in step with the blobs |
| FloodWrap.ApartGrows | aegean.py:411 | a new sub-image is never the status map |
| FloodWrap.Emit | aegean.py:411-413 | yielding a blob adds its sub-image and keeps the ones before |
| FloodWrap.FloodPeak | aegean.py:404-406 | flooding one peak keeps the segmentation invariant; the first peak always yields a blob |
| FloodWrap.FloodAll | aegean.py:403-413 | the loop over peaks: `expand` exits at the first blob with nothing yielded; otherwise every peak is flooded |
| FloodWrap.GenFloodWrap | aegean.py:368-413 | nothing when no pixel exceeds `innerclip`; the blobs are non-empty, disjoint islands of `outerclip`, in descending peak order, cut out as sub-images; every seed is in some blob; each blob starts at the brightest seed that no earlier blob contains |
| Helpers.Within | aegean.py:876-878 | the result is `x` clamped to `[xm, xx]`, with `xx` winning when the bounds cross |
| Helpers.WithinIdempotentMonotone | aegean.py:876-878 | clamping twice is clamping once, and clamping keeps order |
| Helpers.Fixed | aegean.py:880-889 | after `fix_shape`, `a >= b`; axes and their errors are swapped and `pa` turns by 90 exactly when `a < b` |
| Helpers.FixedIdempotent | aegean.py:880-889 | a second `fix_shape` changes nothing |
| Helpers.OutputSource.FixShape | aegean.py:880-889 | the in-place update leaves the fixed shape and keeps island and source numbers |
| Helpers.OutputSource.Cmp | aegean.py:226-241 | `__cmp__` is -1, 0 or 1, ordering by island and then by source |
| Helpers.CmpOrder | aegean.py:226-241 | `__cmp__` is antisymmetric, transitive and reflexive |
| Helpers.Folded | aegean.py:891-900 | the folded angle lies in `(-90, 90]` |
| Helpers.FoldedUnique | aegean.py:891-900 | only one angle in `(-90, 90]` differs from `pa` by whole half turns |
| Helpers.FoldedPeriodic | aegean.py:891-900 | folding ignores whole half turns and keeps an angle already in range |
| Helpers.PaLimit | aegean.py:891-900 | the two `while` loops return the folded angle |
| Helpers.CutoutBox | aegean.py:1428-1449 | an off-image position is skipped; otherwise the box holds the pixel and lies within the image |
| Helpers.CutoutIsClippedWindow | aegean.py:1446-1449 | the box is the `xwidth/2` by `ywidth/2` window around the pixel, intersected with the image |
| Background.NotNaN | aegean.py:846 | the extracted values hold no NaN and every other value as often as the data |
| Background.NotNaNSame | aegean.py:846 | inputs with the same non-NaN values give the same extracted values |
| Background.AscendingOrder | aegean.py:849 | the ascending order is total, transitive and antisymmetric on non-NaN values |
| Background.Sorted | aegean.py:846-849 | a sorted permutation of the non-NaN values |
| Background.EstimateBackground | aegean.py:838-854 | `(NaN, NaN)` below four values; otherwise a background that is one of the data values, and an rms that is never negative |
| Background.EstimatePicksSorted | aegean.py:849-854 | the estimate is the element at `n/2`, and the spread of those at `n/4*3` and `n/4` over 1.34896, of any ascending arrangement of the non-NaN values |
| Background.Spread | aegean.py:850-854 | the IQR over 1.34896 of sorted values is NaN or at least 0 |
| Background.EstimateIgnoresOrderAndNaN | aegean.py:846-854 | the estimate depends only on the non-NaN values and their counts |
| Background.MulIsProduct | aegean.py:807 | the repeated-addition product used for range steps is the product |
| Background.RangeLength | aegean.py:807 | Python's `range(start, stop, step)` has `q` elements when `stop` falls in the `q`-th step |
| Background.TilingBounds | aegean.py:830-834 | every mesh box lies within the axis, and earlier boxes end before later ones begin |
| Background.TilesSpec | aegean.py:800-828 | the mesh covers `[0, img)` without gap or overlap; inner boxes are exactly `width` wide, none is wider; `width >= img` gives the single box `[0, img)` |
| Background.TilesLadder | aegean.py:800-820 | below the axis length the mesh is a partial box, `q` full boxes from `xstart`, and a final partial box |
| Background.WholeSteps | aegean.py:803 | `img - xstart - (img - xstart) % width` is a whole number of steps |
| Background.Mesh | aegean.py:806-820 | the four lists built with `range` are the ladder of boxes |
| Background.Steps | aegean.py:806-820 | that ladder is a tiling with full inner boxes |
| Background.TilingCovers | aegean.py:830-834 | every pixel lies in some box of a tiling |
| Background.TileOf | aegean.py:830-834 | each pixel lies in exactly one box of a tiling |
| Background.Box | aegean.py:832 | `data[ymin:ymax, xmin:xmax].ravel()` has one entry per pixel of the box (`Cells(ymax - ymin, xmax - xmin)` of them), holds every pixel value of the box, and nothing else |
| Background.BoxRavel | aegean.py:832 | the ravel is row-major: pixel `(y, x)` of the box sits at position `Cells(y - ymin, xmax - xmin) + (x - xmin)`, so every value keeps its count |
| Background.CellsProduct | aegean.py:832 | the row-major position of row `i` is `i * cols`, so the box holds `(ymax - ymin) * (xmax - xmin)` values |
| Background.LevelPerBox | aegean.py:830-834 | every pixel of mesh box `(i, j)` gets that box's estimate, and its rms level is never negative |
| Background.FillStep | aegean.py:832-834 | painting box `(i, j)` extends the filled region by that box |
| Background.FillColumn | aegean.py:830-831 | a finished inner loop fills the whole column of boxes |
| Background.Values | aegean.py:793-794 | a value copy of an image array, cell by cell |
| Background.PaintBox | aegean.py:833-834 | the slice assignment sets the box and nothing else |
| Background.FillBoxes | aegean.py:831-834 | the inner loop paints every box of column `j` |
| Background.FillMesh | aegean.py:830-834 | the nested loops paint every box of the mesh |
| Background.MakeBkgRmsImage | aegean.py:759-836 | two new arrays of the image's shape; with a truthy `forced_rms`, zeros and the constant rms; otherwise each pixel holds the background and rms of the mesh box containing it |
| PyText.Find | AegeanTools/catalogs.py:57 | the first separator, or the end |
| PyText.Split | AegeanTools/catalogs.py:57 | `split(',')` returns at least one piece, none holds a comma, and joining them gives the string back |
| PyText.SplitJoin | AegeanTools/catalogs.py:57 | splitting what was joined gives the pieces back |
| PyText.RFindBelow | AegeanTools/catalogs.py:58 | the last occurrence below `n`, or -1 |
| PyText.RFind | AegeanTools/catalogs.py:58 | the last occurrence, or -1 |
| PyText.LowerChar | AegeanTools/catalogs.py:59 | ASCII capitals move to lower case, and nothing else changes |
| PyText.Lower | AegeanTools/catalogs.py:59 | `lower()` acts character by character |
| PyText.LowerIdempotent | AegeanTools/catalogs.py:59 | lowering twice is lowering once |
| PyText.SplitExtSpec | AegeanTools/catalogs.py:58 | `splitext` splits off an extension exactly when the last name component has a dot after its leading dots, and splits at that dot |
| PyText.SplitExtJoin | AegeanTools/catalogs.py:309 | `splitext(root + ext) == (root, ext)` for a proper extension after a root whose last component is not all dots |
| PyText.Extension | AegeanTools/catalogs.py:58-59 | the lower-cased extension holds no dot or slash and is empty when there is no extension |
| PyText.Decimal | AegeanTools/catalogs.py:342 | `str(n)` is a non-empty string of digits |
| PyText.DecimalValue | AegeanTools/catalogs.py:342 | reading the digits of `str(n)` back gives `n` |
| Catalogs.TableFormats | AegeanTools/catalogs.py:93-106 | the list holds `hdf5` exactly when h5py is available, and never `ann` |
| Catalogs.ExtensionsKnown | AegeanTools/catalogs.py:57-61 | every extension in the per-name list is supported exactly when every name has a supported extension |
| Catalogs.AllKnown | AegeanTools/catalogs.py:57-61 | the loop's flag is set exactly when every name has a listed extension |
| Catalogs.CheckTableFormats | AegeanTools/catalogs.py:48-65 | true exactly when every comma-separated name has a supported lower-cased extension |
| Catalogs.WithDefaults | AegeanTools/catalogs.py:118-122 | DATE is added if missing; PROGRAM and PROGVER are added only when PROGRAM is missing; no other key is added or changed |
| Catalogs.WithDefaultsIdempotent | AegeanTools/catalogs.py:118-122 | a second update, at any time, changes nothing |
| Catalogs.Meta.constructor | AegeanTools/catalogs.py:116-117 | a new metadata dictionary is empty |
| Catalogs.UpdateMetaData | AegeanTools/catalogs.py:109-123 | None becomes a fresh dictionary; a given one is updated in place and returned |
| Catalogs.SaveCatalog | AegeanTools/catalogs.py:126-150 | the writer is chosen by the lower-cased extension, and the metadata is always updated |
| Catalogs.SaveHandlesAcceptedFormats | AegeanTools/catalogs.py:134-149 | every supported extension gets its own writer with the metadata; only an unknown extension falls back to `tab`, without metadata |
| Catalogs.WriterFor | AegeanTools/catalogs.py:289-302 | `vot`, `vo` and `xml` select the VO table writer, `hdf5` the HDF5 writer and `fits` the FITS writer, in each case exactly; any other format goes to the ASCII writer as given, and no format to the ASCII writer without one |
| Catalogs.SavedTableWriter | AegeanTools/catalogs.py:138-149 | a file saved by `save_catalog` reaches `write_catalog` exactly when its extension is not `ann`, `reg`, `db` or `sqlite`; its table is then written as a VO table, HDF5 or FITS for those extensions, by astropy's ASCII writer under astropy's name (`tex` as `latex`), and as `tab` for anything unrecognised |
| Catalogs.LoadCatalogReader | AegeanTools/catalogs.py:162-184 | csv/tab/tex use the ASCII reader, vo/vot/xml the VO reader, anything else two columns of floats |
| Catalogs.LoadTableReader | AegeanTools/catalogs.py:195-208 | csv/tab/tex use the ASCII reader; vo/vot/xml/fits, and hdf5 when supported, use `Table.read`; anything else raises |
| Catalogs.OutputNames | AegeanTools/catalogs.py:306-319 | one file per non-empty class, components first and simple sources last, each named `root + tag + ext` |
| Catalogs.SuffixKeepsExtension | AegeanTools/catalogs.py:309 | inserting a tag before the extension keeps the extension and extends the root |
| Catalogs.TagKeepsExtension | AegeanTools/catalogs.py:308-319 | `_comp`, `_isle` and `_simp` keep the extension |
| Catalogs.WrittenTablesLoad | AegeanTools/catalogs.py:306-319 | every file written for a format `load_table` reads has the same extension, so `load_table` picks the same reader for it |
| Catalogs.ColumnName | AegeanTools/catalogs.py:272-281 | without `galactic` a name is kept; with it, only a name that starts or ends with `ra` or `dec` changes |
| Catalogs.ColumnNameByShape | AegeanTools/catalogs.py:273-281 | `ra…` becomes `lon…`, `…ra` becomes `…lon`, `dec…` becomes `lat…`, `…dec` becomes `…lat`, the first matching rule winning |
| Catalogs.Attribute | AegeanTools/catalogs.py:283 | one entry per source: its attribute, or None where it has none |
| Catalogs.BuildColumns | AegeanTools/catalogs.py:269-287 | the column order follows `names` as renamed, every listed column has a dictionary entry, and a column holds the values of the last name mapped to it |
| Catalogs.Widen | AegeanTools/catalogs.py:246-248 | a float32 becomes a float64 of the same value; other values are kept |
| Catalogs.Copied | AegeanTools/catalogs.py:238-251 | a source has its defaults, plus exactly the declared names that are also columns, set to the (widened) cell |
| Catalogs.Source.constructor | AegeanTools/catalogs.py:240 | a new source holds its defaults |
| Catalogs.SourceFromRow | AegeanTools/catalogs.py:238-251 | the inner loop builds a fresh source with the row copied in |
| Catalogs.TableToSourceList | AegeanTools/catalogs.py:227-252 | no table gives `[]`; otherwise one distinct, freshly allocated source per row, in row order, with the row copied in |
| Catalogs.FitsType | AegeanTools/catalogs.py:331-347 | bool is `L` (tested before int), int is `J`, float is `E`, a string of `n` characters is `nA`, anything else is `5A` |
| Catalogs.SqlTypes | AegeanTools/catalogs.py:533-552 | one type per name, BOOL before INT, FLOAT, then VARCHAR; None when an attribute is missing |
| Catalogs.TypesAgree | AegeanTools/catalogs.py:533-552 | the FITS and sqlite writers agree on which values are booleans, integers, floats and text |
| Catalogs.Nulls | AegeanTools/catalogs.py:513-522 | None exactly for a value equal to -1; anything else is returned unchanged |
| Catalogs.NullValue | AegeanTools/catalogs.py:513-522 | `nulls` on one value |
| Catalogs.DbRowsAsWritten | AegeanTools/catalogs.py:569 | one parameter list per row |
| Catalogs.DbRowsAsWrittenKeepMinusOne | AegeanTools/catalogs.py:569 | as written, `nulls` sees whole rows, so no -1 is ever turned into NULL |
| Catalogs.DbRowsNullMinusOne | AegeanTools/catalogs.py:569 | applied per value, exactly the -1 values become NULL and the rest are kept |
| Catalogs.ContourLines | AegeanTools/catalogs.py:380-384 | a contour of `n > 1` points gives `n` lines: the consecutive pairs and one closing line, with coordinates swapped and shifted by 0.5 |
| Catalogs.ContourClosed | AegeanTools/catalogs.py:380-384 | each line ends where the next begins, and the last ends where the first begins |
| Catalogs.AnchorLine | AegeanTools/catalogs.py:389-391 | one anchor line exactly when there are four anchors, joining the anchor pixels `(a[0], a[1])` and `(a[2], a[3])` with swapped coordinates shifted by 0.5, as a contour edge does |
| Catalogs.MaskPoints | AegeanTools/catalogs.py:392-394 | one point per mask pixel, swapped and shifted to 1-based |
| Catalogs.IslandMarks | AegeanTools/catalogs.py:378-394 | an island's marks are its contour lines, then the line between its two anchor pixels when there are four anchors, then the mask points |
| Catalogs.ContourRegions | AegeanTools/catalogs.py:359-396 | only `reg` is written, one group of marks per island |
| Catalogs.IslandBoxEdges | AegeanTools/catalogs.py:422-431 | each box runs from half a pixel before the island's first pixel to half a pixel after its last, in 1-based pixels |
| Catalogs.BoxRegions | AegeanTools/catalogs.py:399-433 | `reg` and `ann` are written, with the IMAGE or `COORD P` line and one box per island; other formats write nothing |

## Left out

- Gaussian fitting and evaluation are not modelled, and neither are parameter estimation, `fit_island`, `curvature`, WCS conversions and `get_pixbeam`. They are floating-point trigonometry and foreign optimisers.
- The mesh widths of `make_bkg_rms_image` are therefore parameters, not computed from the beam.
- Background.MakeBkgRmsImage requires mesh widths of at least 1. A width of 0 makes the source raise `ZeroDivisionError` in `%`, and that error is not modelled.
- Floats are exact reals plus the infinities and NaN. Rounding, signed zero and float32 precision are not modelled.
- Helpers: `fix_shape`, `pa_limit` and `within` are modelled on reals, so NaN and infinite arguments are not considered. The source's `pa_limit` never returns for an infinite angle, because an infinity minus 180 is still infinite.
- `force_measure_flux` is modelled only in its integer cut-out box. The position comes in as an integer pixel (the `sky2pix` and `round` steps are not modelled), and the beam widths are parameters. The flux averaging is not modelled.
- File I/O, logging, `sys.exit` messages, multiprocessing and the `__main__` option parsing are not modelled. The astropy, h5py, sqlite3 and VO-table writers and readers are reduced to the choice of writer or reader.
- The text lines of the region files are not modelled: headers, `#` comments, the `text(...)` label and the `np.nan in [ra, dec]` test. Only their geometry is modelled.
- Catalogs.IslandMarks does not model that `#` prefix. When `np.nan in [ra, dec]` holds for an island without four anchors, the `#` comments out the island's first mask point, so DS9 does not draw that point. The model lists every mask point.
- The `CREATE TABLE` and `INSERT` statements of `writeDB` are not modelled, nor is its metadata table. Only the column types and the row parameters are modelled.
- `load_catalog`'s parsing of two float columns is not modelled.
- Catalogs.WithDefaults: the time stamp of `update_meta_data` (`strftime` of `gmtime()`) is the parameter `now`.
- `classify_catalog` is not modelled. The number of components, islands and simple sources is given to `OutputNames`.
- `writeAnn` and `show_formats` are not modelled. They only print or write text.
- PyText.Lower lowers ASCII letters only. Python's full Unicode case mapping is not modelled.
- FloodWrap.GenFloodWrap: the sub-image arrays it yields are not stated to be fresh. The model states only that they are distinct from the status map.
- The tool that synthesises model and residual images has no code in these two files and is not modelled.

## Findings

| source | as written | input that shows it | evidently intended | confidence | as-written member | corrected member |
|---|---|---|---|---|---|---|
| AegeanTools/catalogs.py:569 | `list(map(nulls, list(r.as_list() for r in t)))` applies `nulls` to each row, a list, which never equals -1 | one source row `[-1]`: the stored row is `[-1]` | `nulls` applied to each value of each row, so a -1 is stored as NULL (the docstring of `nulls` at line 515) | not executed | Catalogs.DbRowsAsWrittenKeepMinusOne | Catalogs.DbRowsNullMinusOne |
