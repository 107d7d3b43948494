# GCP image tagging: association store, tagging session and marker detector

This project models three parts of a web editor for ground control points (GCPs).

**Project store (`StorageService`).** It keeps:
- a registry of imported images, keyed by file name, each with an object URL that may be null;
- a flat list of `ImageGcp` associations, each placing one GCP on one image at pixel coordinates (`imX`, `imY`).

Saving an image upserts it by name. Looking an image up by name answers the first match's url, or null. Removing an image splices out its first record and drops every association that names it.

**Tagging session (`ImagesTaggerComponent`).** The session covers one GCP, named by the route's `gcp` parameter. It refuses to load without GCPs, without a projection, without the parameter, or for an unknown GCP name. Otherwise it builds one working row per stored image, from the store's associations.

The user can then:
- import files, which upserts the store and adds or refreshes rows;
- pin a row at a location;
- remove an image, which needs a confirmation when other GCPs use it;
- confirm (`ok`), which replaces the store's associations. Every other GCP's associations are kept, and the tagged rows' associations are appended.

Two small helpers choose a row's badge and its label.

**Marker detector (`GcpsDetectorService.detect`).** It decodes the stored image and runs a fixed, ordered list of cascade classifiers. It stops at the first classifier that finds any rectangle and answers the centre of that classifier's first rectangle, or null when none finds anything.

Each classifier and each rectangle vector is a library handle that must be deleted explicitly. The model records every allocation and deletion in order, in `OpenCv.calls`, and proves when each handle is released.

Files:
- `common.dfy` (module `Common`):
  - `Option`, `CoordsXY`;
  - the first-match search behind `filter(...)[0]`, `find` and `indexOf`;
  - `Array.prototype.join`.
- `gcps.dfy` (module `Gcps`): the `GCP`, `ImageGcp` and `Projection` records, reduced to the fields these files read. Their declaring module, gcps-utils.service.ts, is not part of this model.
- `storage.dfy` (module `Storage`): the registry and association list as functions over sequences, and the `StorageService` class whose methods update its sequence fields.
- `images_tagger.dfy` (module `ImagesTagger`):
  - loading, importing, pinning, committing and removing as functions, with lemmas relating them;
  - the component class whose methods update its rows and the shared store.
- `gcps_detector.dfy` (module `GcpsDetector`): the classifier loop, in two forms.
  - As functions: the loop's outcome and its sequence of library calls.
  - Imperatively: the `GcpsDetectorService` class and an `OpenCv` class that logs calls. `Detect` is proved to produce exactly that outcome and that call sequence.

The `ngOnInit` tag test, `imX !== 0 && imY !== 0`, is modelled as written (`BuildRow`, `Load`). So is the detector's cleanup, which sits inside the `try` body. The consequences of both are listed under Findings, with the intended variants proved alongside.

## Model

| member | source | states |
|---|---|---|
| Common.FirstIndex | src/app/storage.service.ts:20-24 | the index found is the first position holding the name; none exactly when the name is absent |
| Common.Join | src/app/images-tagger/images-tagger.component.ts:259 | joining nothing is empty, one element is itself, and the result starts with the first element |
| Common.JoinAppend | src/app/images-tagger/images-tagger.component.ts:259 | joining one more element appends the separator and then that element, so with the one-element case every character of the result is fixed |
| Common.JoinLength | src/app/images-tagger/images-tagger.component.ts:259 | the joined length is the sum of the parts plus one separator between each pair |
| Storage.Upserted | src/app/storage.service.ts:19-27 | a new name is appended at the end; for a known name the names are unchanged, only the first match takes the new url, and every other record is unchanged |
| Storage.UpsertLength | src/app/storage.service.ts:20-22 | saving a new name adds exactly one record; saving a known name adds none |
| Storage.UpsertKeepsDistinct | src/app/storage.service.ts:19-27 | unique image names stay unique after a save |
| Storage.SaveThenGetUrl | src/app/storage.service.ts:19-51 | after saving an image, looking up its name yields the saved url |
| Storage.UrlOf | src/app/storage.service.ts:43-51 | null when no image has the name; otherwise the first match's url |
| Storage.UrlNullIffAbsent | src/app/storage.service.ts:43-51 | when every stored url is set, the lookup is null exactly when the name is absent |
| Storage.RemovedFirst | src/app/storage.service.ts:30-33 | an absent name leaves the registry unchanged; otherwise exactly one record, the first match, is spliced out and the others keep their order |
| Storage.RemoveUniqueGone | src/app/storage.service.ts:29-36 | with unique names, after removal no record has the name, the lookup is null and the names stay unique |
| Storage.WithoutImage | src/app/storage.service.ts:35 | an association is kept exactly when it was present and names another image |
| Storage.CascadeClearsImage | src/app/storage.service.ts:35 | after the cascade no association names the removed image |
| Storage.CascadeKeepsOtherImages | src/app/storage.service.ts:35 | every other image's associations survive the cascade unchanged and in order |
| Storage.CascadeRemovesOnlyImage | src/app/storage.service.ts:35 | the cascade removes exactly as many associations as named the image |
| Storage.ForImage | src/app/images-tagger/images-tagger.component.ts:80 | an association is listed exactly when it was present and names the image |
| Storage.WithoutGcp | src/app/images-tagger/images-tagger.component.ts:184 | an association is kept exactly when it was present and belongs to another GCP |
| Storage.WithoutGcpKeepsOthers | src/app/images-tagger/images-tagger.component.ts:184 | dropping one GCP's associations keeps every other GCP's list unchanged and in order |
| Storage.StorageService.constructor | src/app/storage.service.ts:13-16 | the registry and association list start empty; GCPs and projection start unset |
| Storage.StorageService.SaveImage | src/app/storage.service.ts:19-27 | the registry becomes its upsert with the image; the method returns the image it was given; nothing else in the store changes |
| Storage.StorageService.RemoveImage | src/app/storage.service.ts:29-36 | the first record of the name is spliced out and every association on the image is dropped; GCPs and projection are unchanged |
| Storage.StorageService.SaveImageRaw | src/app/storage.service.ts:38-41 | the method builds the record (name, url), upserts it and returns it; associations are unchanged |
| Storage.StorageService.GetImageUrl | src/app/storage.service.ts:43-51 | returns null for an absent name, else the first match's url |
| ImagesTagger.FindGcp | src/app/images-tagger/images-tagger.component.ts:68-76 | none exactly when no GCP has the name; otherwise the first GCP of that name |
| ImagesTagger.FirstForGcp | src/app/images-tagger/images-tagger.component.ts:81 | a result is a listed association of that GCP; none means no listed association is of that GCP |
| ImagesTagger.FirstAssoc | src/app/images-tagger/images-tagger.component.ts:80-83 | reference lookup of a (GCP, image) pair: a result is a stored association of the pair; none means the pair is not stored |
| ImagesTagger.FindAfterFilter | src/app/images-tagger/images-tagger.component.ts:80-81 | filtering by image and then finding by GCP yields the pair's first association in the whole list |
| ImagesTagger.Load | src/app/images-tagger/images-tagger.component.ts:38-123 | loads exactly when GCPs are present and non-empty, a projection is set, the parameter is given and names a GCP; the session's GCP is the first of that name; it has one row per stored image in storage order, each for the session's GCP with its coordinates |
| ImagesTagger.LoadedRow | src/app/images-tagger/images-tagger.component.ts:78-121 | a row's url is the image's url and its other GCPs are every association on the image in storage order (the active GCP included); it is tagged exactly when the pair's association exists with both coordinates non-zero; without one its coordinates are (0, 0) and it has no pin |
| ImagesTagger.ImportOne | src/app/images-tagger/images-tagger.component.ts:135-160 | an unknown name appends an untagged row; a known name changes only the first such row's url, and the names and the other rows are unchanged |
| ImagesTagger.ImportOneShowsFile | src/app/images-tagger/images-tagger.component.ts:135-160 | after importing a file, its name has a row whose first occurrence shows the file's url |
| ImagesTagger.ImportKeepsNamesDistinct | src/app/images-tagger/images-tagger.component.ts:125-162 | importing never creates two rows with the same image name |
| ImagesTagger.ImportKeepsExistingRows | src/app/images-tagger/images-tagger.component.ts:158-160 | rows present before an import keep their place, association, tag state, pin and other GCPs; only their url may change |
| ImagesTagger.ImportAddsUntaggedRows | src/app/images-tagger/images-tagger.component.ts:138-156 | rows added by an import are untagged and unpinned, at (0, 0), for the active GCP, with no other GCPs and a url |
| ImagesTagger.ImportShowsEveryFile | src/app/images-tagger/images-tagger.component.ts:126-162 | after an import, every imported name has a row showing the url of the last file of that name |
| ImagesTagger.Pinned | src/app/images-tagger/images-tagger.component.ts:199-203 | the row becomes tagged at the location for any coordinates, and no other field changes, `pinLocation` included |
| ImagesTagger.TaggedAssociations | src/app/images-tagger/images-tagger.component.ts:186 | every association listed comes from a tagged row, and every tagged row's association is listed |
| ImagesTagger.TaggedLookup | src/app/images-tagger/images-tagger.component.ts:186 | with unique row names, looking a row up among the tagged associations finds its association exactly when it is tagged |
| ImagesTagger.CommitReplacesActiveGcp | src/app/images-tagger/images-tagger.component.ts:184-188 | after `ok` the active GCP's associations are exactly the tagged rows' associations in row order |
| ImagesTagger.CommitKeepsOtherGcps | src/app/images-tagger/images-tagger.component.ts:184-188 | after `ok` every other GCP's associations are unchanged and in order |
| ImagesTagger.CommitThenLookup | src/app/images-tagger/images-tagger.component.ts:184-188 | after `ok` a row's (GCP, image) pair is stored with its association when the row was tagged, and not stored otherwise |
| ImagesTagger.PinCommitReload | src/app/images-tagger/images-tagger.component.ts:97 | after pin, `ok` and reload, the row sits at the pinned location, and it is tagged exactly when both coordinates are non-zero |
| ImagesTagger.EdgePinLostOnReload | src/app/images-tagger/images-tagger.component.ts:97 | a pin at (0, 80) is tagged and stored by `ok`, yet reloads untagged, and the next `ok` stores nothing for that GCP |
| ImagesTagger.PinCommitReloadIntended | src/app/images-tagger/images-tagger.component.ts:97 | with the intended test, a reloaded pin is tagged exactly when it is not the (0, 0) sentinel, and then it holds the pinned association |
| ImagesTagger.WithoutRowsNamed | src/app/images-tagger/images-tagger.component.ts:208 | a row is kept exactly when it was present and has another image name |
| ImagesTagger.RemovedRowsGone | src/app/images-tagger/images-tagger.component.ts:208 | after removal no row has the image's name |
| ImagesTagger.GetClass | src/app/images-tagger/images-tagger.component.ts:231-252 | exactly one badge: warning exactly when there is no url; success exactly when there is a url and the row is tagged; primary exactly when there is a url, the row is untagged and other GCPs exist; info otherwise |
| ImagesTagger.GetName | src/app/images-tagger/images-tagger.component.ts:254-263 | the label starts with the image name; it is the name exactly when there are no other GCPs; otherwise it is the name, " (", the other GCP names joined by ", ", and ")" |
| ImagesTagger.GetNameAppend | src/app/images-tagger/images-tagger.component.ts:254-263 | on an image already listing other GCPs, one more GCP goes inside the parentheses after ", ", at the end of the list |
| ImagesTagger.GetNameLength | src/app/images-tagger/images-tagger.component.ts:254-263 | the label's length is the name's, plus, with other GCPs, 3 plus their names' lengths plus 2 per separator |
| ImagesTagger.ImagesTaggerComponent.constructor | src/app/images-tagger/images-tagger.component.ts:21-24 | the component holds the store, the session's GCP and its rows, all rows for that GCP |
| ImagesTagger.Open | src/app/images-tagger/images-tagger.component.ts:38-123 | a component exists exactly when the load succeeds, and then it holds the loaded GCP and rows |
| ImagesTagger.ImagesTaggerComponent.HandleImages | src/app/images-tagger/images-tagger.component.ts:125-168 | the rows become the import of all files in order, the registry the save of all files in order; associations, GCPs and projection are unchanged |
| ImagesTagger.ImagesTaggerComponent.ShowImage | src/app/images-tagger/images-tagger.component.ts:135-160 | the rows become the import of the one file; all rows stay for the session's GCP |
| ImagesTagger.ImagesTaggerComponent.Pin | src/app/images-tagger/images-tagger.component.ts:199-203 | exactly the chosen row is replaced by its pinned form |
| ImagesTagger.ImagesTaggerComponent.Ok | src/app/images-tagger/images-tagger.component.ts:181-192 | the store's associations become the other GCPs' ones followed by the tagged rows' ones; the registry is unchanged |
| ImagesTagger.ImagesTaggerComponent.Remove | src/app/images-tagger/images-tagger.component.ts:205-229 | with other GCPs and no confirmation nothing changes; otherwise every row of the name is dropped and the store's cascade removal runs |
| GcpsDetector.ScanExhaustedIff | src/app/gcps-detector.service.ts:59-82 | the loop finds nothing exactly when every classifier returns an empty vector |
| GcpsDetector.ScanFirstHit | src/app/gcps-detector.service.ts:68-74 | the first classifier with a rectangle decides the result; exactly the classifiers up to it are tried, and no later one is loaded or run |
| GcpsDetector.CallsUseFixedArguments | src/app/gcps-detector.service.ts:55-66 | every load reads the classifier's own file under the cascade directory; every detection pass uses scale 1.05, 3 neighbours, flags 0, minimum 30x30 and maximum 0x0 |
| GcpsDetector.LoadsInOrder | src/app/gcps-detector.service.ts:61-63 | the classifiers loaded are consecutive positions in list order, each loaded once, as many as are tried |
| GcpsDetector.CallsFromBalancedAt | src/app/gcps-detector.service.ts:62-76 | unless the loop ends by an unguarded exception, each handle is freed as often as allocated, at most once, and only from its own iteration on |
| GcpsDetector.CallsFromBalanced | src/app/gcps-detector.service.ts:61-77 | the same balance for every handle at once |
| GcpsDetector.FreesFollowRun | src/app/gcps-detector.service.ts:62-76 | the loop deletes a classifier or its rectangle vector only after that classifier's detection pass ran |
| GcpsDetector.DetectReleasesWhenResolved | src/app/gcps-detector.service.ts:54-82 | when `detect` resolves, the image is allocated once, and every handle is deleted exactly as often as it is allocated, at most once, on the break and fall-through paths alike |
| GcpsDetector.DetectLeaksOnThrow | src/app/gcps-detector.service.ts:53-86 | as written, when the first detection pass throws, the promise is rejected and the image, the classifier and the rectangle vector are allocated and never deleted |
| GcpsDetector.GuardedDetectReleases | src/app/gcps-detector.service.ts:53-86 | with cleanup on every exit path, every handle is deleted exactly as often as allocated, exceptions included |
| GcpsDetector.DetectResult | src/app/gcps-detector.service.ts:59-82 | without exceptions, the result is null exactly when every classifier misses; otherwise it is the centre of the first rectangle of the first hitting classifier, and exactly the classifiers up to that one are loaded, in order |
| GcpsDetector.NoThrowWithoutException | src/app/gcps-detector.service.ts:84-86 | the loop can only end by an exception if some detection pass throws |
| GcpsDetector.GcpsDetectorService.constructor | src/app/gcps-detector.service.ts:16-22 | the classifier list is `gcp-square-base.xml` then `gcp-bw-quads.xml`, and the loaded flag starts false |
| GcpsDetector.GcpsDetectorService.LoadClassifiers | src/app/gcps-detector.service.ts:32-35 | sets the loaded flag |
| GcpsDetector.GcpsDetectorService.Detect | src/app/gcps-detector.service.ts:37-89 | afterwards the flag is set; `loadClassifiers` ran once exactly when the flag was unset; the result is the loop's outcome for the stored image's url (rejected on a decode or detection exception); the library calls made are exactly the as-written call sequence |
| GcpsDetector.GcpsDetectorService.TryClassifiers | src/app/gcps-detector.service.ts:61-77 | the loop ends where the scan over the classifiers ends, after exactly the scan's library calls |
| GcpsDetector.GcpsDetectorService.RunClassifier | src/app/gcps-detector.service.ts:62-76 | one iteration allocates the classifier, loads its file, allocates the vector and detects; it deletes both handles only when detection returns |

## Left out

- DOM and Angular plumbing are not modelled: the hidden container, the `img` element and its `onload`, `Renderer2`, the window events and `DomSanitizer`. A sanitised url is modelled as the url itself.
- Router navigation is not modelled. A session that navigates away is a `NavigatedAway` result, with no component. The Angular component object still exists after its constructor navigates; here it is simply never created.
- The `NgbModal` confirmation dialog is not modelled. The user's answer is the boolean `confirmed` passed to `Remove`.
- ImagesTaggerComponent.Pin: the row is identified by its position in the list rather than by object identity.
- The rows and the stored associations are modelled as values. In the source, `ok` stores the rows' own `image` objects in `imageGcps`, so a later in-place `pin` on the same row would also change the stored association. `ok` navigates away, so the session that could do this is gone.
- OpenCV is foreign code. Decoding is the parameter `decode`, which maps the stored url to a decoded image or an exception. Each detection pass is the parameter `run`, which maps the classifier position to rectangles or an exception. The library calls themselves are only logged.
- GcpsDetector.GcpsDetectorService.Detect: only `cv.imread` (src/app/gcps-detector.service.ts:54) and `detectMultiScale` (:66) may throw in the model. `new cv.Size` (:57-58), `new cv.CascadeClassifier()` (:62), `classifier.load` (:63), `new cv.RectVector()` (:64), `rects.size()` and `rects.get(0)` (:68-69), the deletes (:71-72, :75-76, :80) and `removeChild` (:79) are assumed not to throw. They sit in the same `try`, so a throw from any of them would also reject the promise and skip the deletes after it. A failing `load`, for example, would leak the image and that classifier, like the leak under "## Findings".
- Asynchrony is not modelled: promises, `await` and the order in which detections arrive. `Detect` returns how the promise settles. When the url is null or the image never loads, `onload` never fires and the promise never settles. The model instead lets `decode` answer for any url, a missing one included.
- Floating point is not modelled. Coordinates are `real`, and the centre is computed exactly.
- `ImageInfo.getCoords` (the EXIF GPS reader) is left out, because it wraps an external library. So are `URL.createObjectURL`, whose result is part of each `ImportedFile`, and licensing (`hasLicense`, `getLicense`, `saveLicense`), which depends on `localStorage` and an external validator.
- The call at src/app/images-tagger/images-tagger.component.ts:133 passes three arguments to the two-parameter `saveImageRaw`. The model takes the evident reading, a save by file name and object url.
- The `extras: []` field of the rows' `ImageGcp` records is not modelled; nothing in these files reads it.
- The hidden container's removal and `ngAfterViewInit`/`ngOnDestroy` are not modelled; they only add and remove DOM listeners.
- Storage.RemoveUniqueGone: assumes unique image names. With duplicate names the source removes only the first record, which `RemovedFirst` states for any list.

## Findings

| source | as written | input that shows it | evidently intended | confidence | as-written member | corrected member |
|---|---|---|---|---|---|---|
| src/app/gcps-detector.service.ts:53-86 | `img`, `classifier` and `rects` are deleted only by statements inside the `try` body, so an exception from `detectMultiScale` skips them | one classifier list whose first detection pass throws: the promise is rejected, and the image, classifier 0 and rectangle vector 0 are allocated and never deleted | every handle deleted on every exit path (a `finally` per iteration and around the image) | not executed | GcpsDetector.DetectLeaksOnThrow | GcpsDetector.GuardedDetectReleases |
| src/app/images-tagger/images-tagger.component.ts:97 | a loaded association counts as tagged only when `imX !== 0 && imY !== 0` | GCP P1, image IMG_01.jpg, pin at (0, 80): `ok` stores the association, the reload shows the row untagged, and the next `ok` drops it | only the (0, 0) sentinel written by untagged rows means untagged: tagged when either coordinate is non-zero | not executed | ImagesTagger.EdgePinLostOnReload | ImagesTagger.PinCommitReloadIntended |
