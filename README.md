# Virtual try-on: catalog, dispatch and compositing geometry

A verified Dafny model of the deterministic core of a small virtual try-on
application. A user picks a category (`femme`, `homme`, `enceinte`, `enfant`,
`bebe`) and a scene. The dispatcher `VirtualTryOnApp` resolves the scene image
from a fixed asset catalog and sends the garment and the scene to a remote
try-on service. Only an HTTP 200 answer produces a result file, named
`output_<category>_<stem>.png`. A second, local path cuts the garment out and
centres it on a flat background (flat lay). A separate script pre-bakes
scene images by pasting a full figure onto a background.

Modules, one per component:

- `Wrappers`: `Option`.
- `Text`: Python's decimal rendering of an `int`, and a parser that reads it back.
- `Naming`: POSIX basename, the stem before the first `.`, and the result file name.
- `Catalog`: the asset table (category to ordered scene table), the scene listing and scene resolution.
- `Geometry`: flat-lay and full-figure size and offset arithmetic, on exact rationals.
- `TryOn`: the class `VirtualTryOnApp`, holding immutable fields `apiKey` and `assets`, and its three processing methods.
- `Composites`: `create_composite` over a file-system value, and the batch of five calls.

Everything external is a parameter. This covers the service's answer or the
exception raised while sending, the decoded image sizes, the cut-out produced
by background removal, Pillow faults and the file system. What the program
sends (a `Request`) and what it writes (a `Written` file) are returned, so
"nothing was sent" and "no file was written" are part of the contracts.
`random.choice` is an unconstrained choice (`:|`).

On these points the code behaves in ways that are easy to misread:

- A requested scene name that the category does not have falls back silently to some scene of the category. It does not fail.
- An empty or missing catalog entry yields `No assets found for category: <category>`.
- `generate_tryon` sends every category to the remote service. The flat-lay path `_process_flat_lay` is modelled as written, but nothing in the dispatcher calls it.
- The flat-lay garment is sized from the background's width (3/5 of it), not from its height.

## Model

| member | source | states |
|---|---|---|
| Text.NatToString | tryon_logic.py:109 | decimal rendering of a status code: non-empty, digits only, no leading zero |
| Text.IntToString | tryon_logic.py:109 | `str(int)`: a minus sign exactly for negatives, then a non-empty run of digits with no leading zero unless the integer is 0 |
| Text.ParseIntToString | tryon_logic.py:109 | the rendering read back gives the integer, so no information is lost |
| Text.IntToStringInjective | tryon_logic.py:109 | distinct status codes render differently |
| Naming.Basename | tryon_logic.py:104 | the suffix after the last `/`: contains no `/`, and is all of the path or follows a `/` |
| Naming.Stem | tryon_logic.py:104 | `split('.')[0]`: the prefix with no `.`, ending at the first `.` or at the end of the name |
| Naming.BasenameUnique | tryon_logic.py:104 | those three properties determine the basename uniquely |
| Naming.StemUnique | tryon_logic.py:104 | those three properties determine the stem uniquely |
| Naming.BasenameOfJoin | tryon_logic.py:104 | the basename of `dir/name` is `name` when `name` holds no `/` |
| Naming.StemOfSplit | tryon_logic.py:104 | the stem of `head.tail` is `head` when `head` holds no `.` |
| Naming.GarmentStem | tryon_logic.py:104 | the stem in a result name holds neither `/` nor `.` |
| Naming.OutputName | tryon_logic.py:104 | the result name is `output_`, then the category, then `_`, then the garment stem, then `.png`: each part can be read back at its position, and the length is their sum |
| Naming.OutputNameCollision | tryon_logic.py:104 | in one category, two garments get the same result file iff their stems agree (later runs overwrite) |
| Naming.OutputNameExample | tryon_logic.py:104 | `dir/temp_a.b.jpg` in `femme` gives `output_femme_temp_a.png` |
| Catalog.Requested | tryon_logic.py:69 | truthiness of `background_name`: false exactly for `None` and `""` |
| Catalog.Options | tryon_logic.py:67 | `assets.get(category, {})`: the category's table, or empty for an unknown category |
| Catalog.BackgroundOptions | tryon_logic.py:53-57 | exactly the category's scene names in declaration order; empty for an unknown category |
| Catalog.Lookup | tryon_logic.py:69-70 | finds a name iff it is one of the table's names, and then gives that scene's path |
| Catalog.ResolveScene | tryon_logic.py:66-74 | a requested name the category has gives that scene's path; otherwise some path of the category; nothing iff the category has no scenes |
| Catalog.ListedNamesResolve | tryon_logic.py:53-70 | every listed scene name resolves to the path at the same position |
| Catalog.DefaultAssetsShape | tryon_logic.py:30-51 | exactly the five categories, two scenes each; `femme`, `homme`, `enceinte` and `enfant` list Living Room then Bedroom, `bebe` lists Carpet then Bed Cover |
| Catalog.CategoryLabelsMatchAssets | app.py:87-93 | the selector's category keys are exactly the catalog's categories |
| Geometry.Scaled | create_composites.py:15 | `int(n * s)` is the floor of the exact product |
| Geometry.KeepAspect | create_composites.py:16-17 | the scaled length is the floor of the exact aspect-preserving length |
| Geometry.Centre | create_composites.py:22 | floor-halved offset: twice the offset is the free space, or one less |
| Geometry.FlatLayPlacement | tryon_logic.py:132-141 | width = floor(3/5 bg_w), height = floor(width·h/w), both offsets centring with floor division |
| Geometry.FigurePlacement | create_composites.py:13-23 | height = floor(scale·bg_h), width = floor(height·w/h), horizontal centring, y + height + 50 = bg_h |
| Geometry.CentredMargins | create_composites.py:22 | left and right margins of a centred image differ by at most one pixel |
| Geometry.FlatLayWithinWidth | tryon_logic.py:133 | a flat-lay garment is never wider than the background |
| Geometry.FigureWithinHeight | create_composites.py:15 | with scale ≤ 1 the figure is never taller than the background |
| Geometry.FigureOverflow | create_composites.py:22-23 | no clamping: x < 0 iff the figure is wider than the background, and y < 0 iff it is taller than bg_h − 50 |
| Geometry.FigureExample | create_composites.py:13-23 | 200×300 background, 100×100 figure, scale 1/2: 150×150 at (25, 100) |
| Geometry.FlatLayExample | tryon_logic.py:132-141 | 400×200 background, 2:1 garment: 240×120 at (80, 40) |
| TryOn.NoAssetsError | tryon_logic.py:74 | the message is `No assets found for category: ` followed by the category |
| TryOn.ApiError | tryon_logic.py:109 | the message is `API Error (`, the rendered status, `): `, then the response text, each part at its position |
| TryOn.ExceptionError | tryon_logic.py:112 | the message is `Exception: ` followed by the exception text |
| TryOn.RemovalError | tryon_logic.py:129 | the message is `Background removal failed: `, the exception text, then `. Ensure 'rembg' is installed.` |
| TryOn.FlatLayError | tryon_logic.py:153 | the message is `Exception in flat lay: ` followed by the exception text |
| TryOn.ErrorKindsDistinct | tryon_logic.py:74-112 | the missing-key, no-assets, API and exception messages never coincide, so a caller can tell the failing step |
| TryOn.ApiErrorIdentifies | tryon_logic.py:109 | an API error message determines the status code and the response text |
| TryOn.VirtualTryOnApp.constructor | tryon_logic.py:12-51 | stores the configured key; the asset table is the fixed catalog |
| TryOn.VirtualTryOnApp.HasKey | tryon_logic.py:81 | `not self.api_key` is false: the key is missing exactly when it is `None` or `""` |
| TryOn.VirtualTryOnApp.GenerateTryOn | tryon_logic.py:59-77 | exactly one of path/error; no scenes gives the no-assets error with nothing sent or written; with a key and readable uploads the resolved scene of the category is sent, and the named one if it is listed; an unreadable upload gives `Exception: msg` with nothing sent; a result only on 200 |
| TryOn.VirtualTryOnApp.ProcessRapidApi | tryon_logic.py:79-112 | exactly one of path/error; no key gives the key error, nothing sent and no file; an upload that cannot be opened gives `Exception: msg` with nothing sent; otherwise the request carries garment, scene, key and host; 200 writes the response bytes to the result name; other statuses give `API Error (s): text`; an exception gives `Exception: msg` |
| TryOn.VirtualTryOnApp.ProcessFlatLay | tryon_logic.py:114-153 | exactly one of path/error; a file is written iff a path is returned; each failing step (import, open, background removal, zero width, imaging) gives its own message, an imaging fault `Exception in flat lay: msg`; success saves the flat-lay placement under the `bebe` result name |
| TryOn.ListedSceneIsSent | app.py:103-132 | a scene the page lists for a category is the one sent, given a key and readable uploads; without a key, or with an unreadable upload, nothing is sent |
| Composites.CreateComposite | create_composites.py:4-29 | missing source iff an input path is absent; any non-success leaves the files unchanged; success exactly when both decode, the figure's height is non-zero and no imaging fault occurs; then it writes only the output, at the background's size with the figure at `FigurePlacement` |
| Composites.ReportAt | create_composites.py:42-48 | a job reports on its own output, and reports a missing source exactly when one of its inputs is absent from the files its predecessors left |
| Composites.DiskAfterKeys | create_composites.py:42-48 | running jobs removes no file and adds only paths that those jobs write |
| Composites.RunBatch | create_composites.py:42-48 | every job runs and reports, each on the files left by its predecessors, whatever they reported |
| Composites.ReportDependsOnSources | create_composites.py:4-29 | a call's report depends only on its two source files |
| Composites.UnwrittenPathKept | create_composites.py:42-48 | a path no job writes is unchanged by the batch |
| Composites.IndependentJobs | create_composites.py:42-48 | when no output is another job's source, each job reports what it would report alone on the initial files |
| Composites.BatchJobsIndependent | create_composites.py:31-48 | the script's five jobs never read a file another writes |
| Composites.BatchFiguresFitHeight | create_composites.py:42-48 | every scale the script uses (0.85, 0.65) keeps the figure within the background's height |
| Composites.BatchProducesCatalogScenes | create_composites.py:40-48 | each output of the script is a scene path of the asset catalog |

## Left out

- Sending the request is left out: HTTP, the multipart upload and header transport. Only the request's content and the service's `(status, text, content)` answer, or the raised exception, are modelled.
- Loading the API key from Streamlit secrets or the environment is left out. `apiKey` is a constructor argument; `None` and `""` both count as missing.
- Pillow is left out: decoding, RGBA conversion, LANCZOS resampling, alpha-masked paste and encoding. A saved composite is a `Picture` term recording the background, the pasted image and its placement; a saved flat lay is an `Artifact.FlatLay` record of the background path, the garment path and the placement. Pillow's own failures, for example on a zero target size, are one abstract `imagingFault`.
- `rembg.remove` is left out. Its product is given as the cut-out's size, or the exception text it raised.
- File existence is membership in the file-system map. Writes are returned values, not performed.
- `random.choice` is an unconstrained choice. No distribution is modelled.
- Geometry.KeepAspect: uses the exact ratio `t * a / b` where the code multiplies by the float `a / b`. IEEE rounding there can give one pixel less. For `t = 7`, `a = 61`, `b = 7` the code computes `int(7 * (61 / 7)) == 60`, since the float product is 60.99999999999999, while `KeepAspect(7, 61, 7) == 61`. The constant scales `0.6`, `0.85` and `0.65` are exact rationals in `Geometry.Scaled`.
- Geometry.FlatLayPlacement: its height goes through `KeepAspect`, with the same one-pixel gap.
- Geometry.FigurePlacement: its width goes through `KeepAspect`, with the same one-pixel gap.
- Exception texts other than Python's "division by zero" for a zero image dimension are opaque strings from the environment.
- A failed `save` in either path may leave a partial file on disk. The model records no file then.
- The `print` logging, including the upper-cased category banner and the per-composite report lines, is left out. `Composites.Report` records which of the three lines a call would print.
- The page's layout, upload handling, temporary file, session state and download button in app.py are not part of this model.
