/** The tagging session of images-tagger.component.ts: for one GCP, a
    working list of rows (one per image) built from the store, edited by
    importing, pinning and removing images, and written back to the store's
    association list in one full replace on confirmation. */
module ImagesTagger {
  import opened Common
  import opened Gcps
  import opened Storage

  /** A pixel location chosen on an image (`PinLocation` of the smart-image view). */
  datatype PinLocation = PinLocation(x: real, y: real)

  /** `ImageDescriptor`: one working row. `image` is the association this row
      would persist; `imageUrl` is the displayable url, or none. */
  datatype ImageDescriptor = ImageDescriptor(
    image: ImageGcp,
    isTagged: bool,
    pinLocation: Option<PinLocation>,
    imageUrl: Option<string>,
    otherGcps: seq<string>)

  function RowNames(rows: seq<ImageDescriptor>): seq<string>
  {
    seq(|rows|, i requires 0 <= i < |rows| => rows[i].image.imgName)
  }

  /** The association is for `gcp` and carries its world coordinates. */
  predicate AtGcp(gcp: Gcp, a: ImageGcp)
  {
    a.gcpName == gcp.name && a.geoX == gcp.easting && a.geoY == gcp.northing && a.geoZ == gcp.elevation
  }

  /** Every working row belongs to the session's GCP. */
  predicate RowsFor(gcp: Gcp, rows: seq<ImageDescriptor>)
  {
    forall i :: 0 <= i < |rows| ==> AtGcp(gcp, rows[i].image)
  }

  // ---------------------------------------------------------------------
  // Loading (constructor check and ngOnInit)

  function GcpNames(gcps: seq<Gcp>): seq<string>
  {
    seq(|gcps|, i requires 0 <= i < |gcps| => gcps[i].name)
  }

  /** `gcps.filter(gcp => gcp.name === name)[0]`. */
  function FindGcp(gcps: seq<Gcp>, name: string): (r: Option<Gcp>)
    ensures r.None? <==> name !in GcpNames(gcps)
    ensures forall i :: IsFirst(GcpNames(gcps), name, i) ==> r == Some(gcps[i])
  {
    match FirstIndex(GcpNames(gcps), name)
    case None => None
    case Some(i) => Some(gcps[i])
  }

  /** `find(item => item.gcpName === gcpName)`. */
  function FirstForGcp(assocs: seq<ImageGcp>, gcpName: string): (r: Option<ImageGcp>)
    ensures r.Some? ==> r.value in assocs && r.value.gcpName == gcpName
    ensures r.None? ==> forall a :: a in assocs ==> a.gcpName != gcpName
  {
    if assocs == [] then None
    else if assocs[0].gcpName == gcpName then Some(assocs[0])
    else FirstForGcp(assocs[1..], gcpName)
  }

  /** Reference definition: the first stored association of the pair
      (GCP, image), searched over the whole list. */
  function FirstAssoc(assocs: seq<ImageGcp>, gcpName: string, imgName: string): (r: Option<ImageGcp>)
    ensures r.Some? ==> r.value in assocs && r.value.gcpName == gcpName && r.value.imgName == imgName
    ensures r.None? ==> forall a :: a in assocs ==> !(a.gcpName == gcpName && a.imgName == imgName)
  {
    if assocs == [] then None
    else if assocs[0].gcpName == gcpName && assocs[0].imgName == imgName then Some(assocs[0])
    else FirstAssoc(assocs[1..], gcpName, imgName)
  }

  /** Searching the image's associations for the GCP finds the pair's
      first association in the whole list. */
  lemma {:induction false} FindAfterFilter(assocs: seq<ImageGcp>, gcpName: string, imgName: string)
    ensures FirstForGcp(ForImage(assocs, imgName), gcpName) == FirstAssoc(assocs, gcpName, imgName)
  {
    if assocs != [] {
      FindAfterFilter(assocs[1..], gcpName, imgName);
      var rest := ForImage(assocs[1..], imgName);
      if assocs[0].imgName == imgName {
        assert ForImage(assocs, imgName) == [assocs[0]] + rest;
        assert ([assocs[0]] + rest)[1..] == rest;
      } else {
        assert ForImage(assocs, imgName) == rest;
      }
    }
  }

  function AssocGcpNames(assocs: seq<ImageGcp>): seq<string>
  {
    seq(|assocs|, i requires 0 <= i < |assocs| => assocs[i].gcpName)
  }

  /** The load-time tag test: both coordinates non-zero. */
  predicate IsTaggedAt(x: real, y: real)
  {
    x != 0.0 && y != 0.0
  }

  /** The row `ngOnInit` builds for one stored image. */
  function BuildRow(gcp: Gcp, img: ImageInfo, images: seq<ImageInfo>, assocs: seq<ImageGcp>): ImageDescriptor
  {
    var onImage := ForImage(assocs, img.name);
    var url := UrlOf(images, img.name);
    match FirstForGcp(onImage, gcp.name)
    case Some(res) =>
      ImageDescriptor(
        ImageGcp(gcp.name, gcp.easting, gcp.northing, gcp.elevation, res.imX, res.imY, img.name),
        IsTaggedAt(res.imX, res.imY), Some(PinLocation(res.imX, res.imY)), url, AssocGcpNames(onImage))
    case None =>
      ImageDescriptor(
        ImageGcp(gcp.name, gcp.easting, gcp.northing, gcp.elevation, 0.0, 0.0, img.name),
        false, None, url, AssocGcpNames(onImage))
  }

  /** Why the session navigates away instead of loading. */
  datatype LoadError = NoGcps | NoProjection | NoGcpParameter | UnknownGcp

  datatype Session = Session(gcp: Gcp, rows: seq<ImageDescriptor>)

  datatype LoadResult = Loaded(session: Session) | NavigatedAway(reason: LoadError)

  /** The constructor's precondition followed by `ngOnInit`: the stored
      GCP list, projection and association list, the route's `gcp`
      parameter, and the rows built for every stored image. */
  function Load(gcps: Option<seq<Gcp>>, projection: Option<Projection>, gcpParam: Option<string>,
                images: seq<ImageInfo>, assocs: seq<ImageGcp>): (r: LoadResult)
    ensures r.Loaded? <==>
              gcps.Some? && gcps.value != [] && projection.Some? &&
              gcpParam.Some? && gcpParam.value in GcpNames(gcps.value)
    ensures r.Loaded? ==>
              gcps.Some? && gcpParam.Some? &&
              (forall i :: IsFirst(GcpNames(gcps.value), gcpParam.value, i) ==> r.session.gcp == gcps.value[i])
    ensures r.Loaded? ==>
              RowNames(r.session.rows) == Names(images) && RowsFor(r.session.gcp, r.session.rows)
  {
    if gcps.None? || |gcps.value| == 0 then NavigatedAway(NoGcps)
    else if projection.None? then NavigatedAway(NoProjection)
    else if gcpParam.None? then NavigatedAway(NoGcpParameter)
    else match FindGcp(gcps.value, gcpParam.value)
      case None => NavigatedAway(UnknownGcp)
      case Some(gcp) =>
        Loaded(Session(gcp, seq(|images|, i requires 0 <= i < |images| => BuildRow(gcp, images[i], images, assocs))))
  }

  /** What a loaded row holds: the image's url and the GCP names of all its
      associations in stored order; it is tagged exactly when the active
      GCP's association on that image exists with both coordinates non-zero,
      and without such an association its coordinates are (0, 0). */
  lemma LoadedRow(gcps: Option<seq<Gcp>>, projection: Option<Projection>, gcpParam: Option<string>,
                  images: seq<ImageInfo>, assocs: seq<ImageGcp>, i: int)
    requires Load(gcps, projection, gcpParam, images, assocs).Loaded?
    requires 0 <= i < |images|
    ensures var s := Load(gcps, projection, gcpParam, images, assocs).session;
            var row := s.rows[i];
            var a := FirstAssoc(assocs, s.gcp.name, images[i].name);
            && row.otherGcps == AssocGcpNames(ForImage(assocs, images[i].name))
            && row.imageUrl == UrlOf(images, images[i].name)
            && (row.isTagged <==> a.Some? && a.value.imX != 0.0 && a.value.imY != 0.0)
            && (row.isTagged ==> row.image.imX != 0.0 && row.image.imY != 0.0)
            && (a.Some? ==> row.image.imX == a.value.imX && row.image.imY == a.value.imY &&
                            row.pinLocation == Some(PinLocation(a.value.imX, a.value.imY)))
            && (a.None? ==> row.image.imX == 0.0 && row.image.imY == 0.0 && row.pinLocation == None)
  {
    var s := Load(gcps, projection, gcpParam, images, assocs).session;
    FindAfterFilter(assocs, s.gcp.name, images[i].name);
  }

  // ---------------------------------------------------------------------
  // Importing images (handleImages)

  /** A dropped or selected file: its name and the object URL created for it. */
  datatype ImportedFile = ImportedFile(name: string, objectUrl: string)

  /** An untagged row for the active GCP, as `handleImages` appends it. */
  function NewRow(gcp: Gcp, name: string, url: Option<string>): ImageDescriptor
  {
    ImageDescriptor(ImageGcp(gcp.name, gcp.easting, gcp.northing, gcp.elevation, 0.0, 0.0, name),
                    false, None, url, [])
  }

  /** One file of `handleImages`: a known name only gets the new url, an
      unknown name gets a new untagged row at the end. */
  function ImportOne(gcp: Gcp, rows: seq<ImageDescriptor>, f: ImportedFile): (r: seq<ImageDescriptor>)
    ensures f.name !in RowNames(rows) ==> r == rows + [NewRow(gcp, f.name, Some(f.objectUrl))]
    ensures f.name in RowNames(rows) ==> |r| == |rows| && RowNames(r) == RowNames(rows)
    ensures forall i :: IsFirst(RowNames(rows), f.name, i) ==>
              r[i] == rows[i].(imageUrl := Some(f.objectUrl)) &&
              forall j :: 0 <= j < |r| && j != i ==> r[j] == rows[j]
  {
    match FirstIndex(RowNames(rows), f.name)
    case None => rows + [NewRow(gcp, f.name, Some(f.objectUrl))]
    case Some(i) =>
      assert RowNames(rows[i := rows[i].(imageUrl := Some(f.objectUrl))]) == RowNames(rows);
      rows[i := rows[i].(imageUrl := Some(f.objectUrl))]
  }

  /** The working rows after importing `files` in order. */
  function ImportAll(gcp: Gcp, rows: seq<ImageDescriptor>, files: seq<ImportedFile>): seq<ImageDescriptor>
    decreases |files|
  {
    if files == [] then rows
    else ImportOne(gcp, ImportAll(gcp, rows, files[..|files| - 1]), files[|files| - 1])
  }

  /** The image registry after saving `files` in order. */
  function SaveAll(images: seq<ImageInfo>, files: seq<ImportedFile>): seq<ImageInfo>
    decreases |files|
  {
    if files == [] then images
    else
      var f := files[|files| - 1];
      Upserted(SaveAll(images, files[..|files| - 1]), ImageInfo(f.name, Some(f.objectUrl)))
  }

  /** Importing one more file is one more step of either fold. */
  lemma ImportStep(gcp: Gcp, rows: seq<ImageDescriptor>, images: seq<ImageInfo>, files: seq<ImportedFile>, i: nat)
    requires i < |files|
    ensures ImportAll(gcp, rows, files[..i + 1]) == ImportOne(gcp, ImportAll(gcp, rows, files[..i]), files[i])
    ensures SaveAll(images, files[..i + 1]) ==
            Upserted(SaveAll(images, files[..i]), ImageInfo(files[i].name, Some(files[i].objectUrl)))
  {
    assert files[..i + 1][..i] == files[..i];
  }

  /** An import only adds rows for the session's GCP. */
  lemma ImportOneKeepsRowsFor(gcp: Gcp, rows: seq<ImageDescriptor>, f: ImportedFile)
    requires RowsFor(gcp, rows)
    ensures RowsFor(gcp, ImportOne(gcp, rows, f))
  {
  }

  /** Importing never creates two rows with the same image name. */
  lemma {:induction false} ImportKeepsNamesDistinct(gcp: Gcp, rows: seq<ImageDescriptor>, files: seq<ImportedFile>)
    requires Distinct(RowNames(rows))
    ensures Distinct(RowNames(ImportAll(gcp, rows, files)))
  {
    if files != [] {
      var before := ImportAll(gcp, rows, files[..|files| - 1]);
      var f := files[|files| - 1];
      ImportKeepsNamesDistinct(gcp, rows, files[..|files| - 1]);
      if f.name !in RowNames(before) {
        assert RowNames(ImportOne(gcp, before, f)) == RowNames(before) + [f.name];
      }
    }
  }

  /** Rows present before an import keep their place, their association,
      their tag state, their pin and their other GCPs; only the url may change. */
  lemma {:induction false} ImportKeepsExistingRows(gcp: Gcp, rows: seq<ImageDescriptor>, files: seq<ImportedFile>)
    ensures |ImportAll(gcp, rows, files)| >= |rows|
    ensures forall i :: 0 <= i < |rows| ==>
              ImportAll(gcp, rows, files)[i].(imageUrl := rows[i].imageUrl) == rows[i]
  {
    if files != [] {
      ImportKeepsExistingRows(gcp, rows, files[..|files| - 1]);
    }
  }

  /** Rows an import adds are untagged, unpinned, at (0, 0), for the active
      GCP, with no other GCPs. */
  lemma {:induction false} ImportAddsUntaggedRows(gcp: Gcp, rows: seq<ImageDescriptor>, files: seq<ImportedFile>)
    ensures var r := ImportAll(gcp, rows, files);
            |r| >= |rows| &&
            forall i :: |rows| <= i < |r| ==>
              r[i] == NewRow(gcp, r[i].image.imgName, r[i].imageUrl) && r[i].imageUrl.Some?
  {
    ImportKeepsExistingRows(gcp, rows, files);
    if files != [] {
      ImportAddsUntaggedRows(gcp, rows, files[..|files| - 1]);
    }
  }

  lemma ImportOneShowsFile(gcp: Gcp, rows: seq<ImageDescriptor>, f: ImportedFile)
    ensures var r := ImportOne(gcp, rows, f);
            f.name in RowNames(r) &&
            forall p :: IsFirst(RowNames(r), f.name, p) ==> r[p].imageUrl == Some(f.objectUrl)
  {
    var r := ImportOne(gcp, rows, f);
    if f.name in RowNames(rows) {
      var i := FirstIndex(RowNames(rows), f.name).value;
      assert IsFirst(RowNames(r), f.name, i);
    } else {
      assert RowNames(r) == RowNames(rows) + [f.name];
      assert IsFirst(RowNames(r), f.name, |rows|);
    }
  }

  lemma ImportOneKeepsOtherName(gcp: Gcp, rows: seq<ImageDescriptor>, f: ImportedFile, x: string)
    requires x != f.name && x in RowNames(rows)
    ensures var r := ImportOne(gcp, rows, f);
            x in RowNames(r) &&
            forall p :: IsFirst(RowNames(r), x, p) ==> IsFirst(RowNames(rows), x, p) && r[p] == rows[p]
  {
    var r := ImportOne(gcp, rows, f);
    if f.name !in RowNames(rows) {
      assert RowNames(r) == RowNames(rows) + [f.name];
    }
  }

  /** After an import every imported name has a row, showing the url of
      the last file of that name. */
  lemma {:induction false} ImportShowsEveryFile(gcp: Gcp, rows: seq<ImageDescriptor>, files: seq<ImportedFile>, k: int)
    requires 0 <= k < |files|
    requires forall j :: k < j < |files| ==> files[j].name != files[k].name
    ensures var r := ImportAll(gcp, rows, files);
            files[k].name in RowNames(r) &&
            forall p :: IsFirst(RowNames(r), files[k].name, p) ==> r[p].imageUrl == Some(files[k].objectUrl)
  {
    var last := |files| - 1;
    var before := ImportAll(gcp, rows, files[..last]);
    if k == last {
      ImportOneShowsFile(gcp, before, files[last]);
    } else {
      ImportShowsEveryFile(gcp, rows, files[..last], k);
      ImportOneKeepsOtherName(gcp, before, files[last], files[k].name);
    }
  }

  // ---------------------------------------------------------------------
  // Pinning

  /** `pin`: the row becomes tagged at the location; no other field of the
      row changes (in particular `pinLocation` keeps its old value). */
  function Pinned(row: ImageDescriptor, location: PinLocation): (r: ImageDescriptor)
    ensures r.isTagged
    ensures r.image.imX == location.x && r.image.imY == location.y
    ensures r.image.(imX := row.image.imX, imY := row.image.imY) == row.image
    ensures r.pinLocation == row.pinLocation && r.imageUrl == row.imageUrl && r.otherGcps == row.otherGcps
  {
    row.(isTagged := true, image := row.image.(imX := location.x, imY := location.y))
  }

  // ---------------------------------------------------------------------
  // Confirming (ok)

  /** The associations of the tagged rows, in row order. */
  function TaggedAssociations(rows: seq<ImageDescriptor>): (r: seq<ImageGcp>)
    ensures |r| <= |rows|
    ensures forall a :: a in r ==> exists i :: 0 <= i < |rows| && rows[i].isTagged && rows[i].image == a
    ensures forall i :: 0 <= i < |rows| && rows[i].isTagged ==> rows[i].image in r
  {
    if rows == [] then []
    else (if rows[0].isTagged then [rows[0].image] else []) + TaggedAssociations(rows[1..])
  }

  /** The association list `ok` stores: every other GCP's associations in
      their stored order, then the tagged rows' associations in row order. */
  function Committed(assocs: seq<ImageGcp>, gcpName: string, rows: seq<ImageDescriptor>): seq<ImageGcp>
  {
    WithoutGcp(assocs, gcpName) + TaggedAssociations(rows)
  }

  lemma {:induction false} ForGcpAll(s: seq<ImageGcp>, gcpName: string)
    requires forall a :: a in s ==> a.gcpName == gcpName
    ensures ForGcp(s, gcpName) == s
  {
    if s != [] {
      ForGcpAll(s[1..], gcpName);
      assert s == [s[0]] + s[1..];
    }
  }

  lemma {:induction false} ForGcpNone(s: seq<ImageGcp>, gcpName: string)
    requires forall a :: a in s ==> a.gcpName != gcpName
    ensures ForGcp(s, gcpName) == []
  {
    if s != [] {
      ForGcpNone(s[1..], gcpName);
    }
  }

  /** Full replace: after `ok`, the active GCP's associations are exactly
      the tagged rows' associations; nothing of its earlier tags survives. */
  lemma CommitReplacesActiveGcp(assocs: seq<ImageGcp>, gcp: Gcp, rows: seq<ImageDescriptor>)
    requires RowsFor(gcp, rows)
    ensures ForGcp(Committed(assocs, gcp.name, rows), gcp.name) == TaggedAssociations(rows)
  {
    ForGcpAppend(WithoutGcp(assocs, gcp.name), TaggedAssociations(rows), gcp.name);
    ForGcpNone(WithoutGcp(assocs, gcp.name), gcp.name);
    ForGcpAll(TaggedAssociations(rows), gcp.name);
  }

  /** `ok` leaves every other GCP's associations as they were, in order. */
  lemma CommitKeepsOtherGcps(assocs: seq<ImageGcp>, gcp: Gcp, rows: seq<ImageDescriptor>, other: string)
    requires RowsFor(gcp, rows)
    requires other != gcp.name
    ensures ForGcp(Committed(assocs, gcp.name, rows), other) == ForGcp(assocs, other)
  {
    ForGcpAppend(WithoutGcp(assocs, gcp.name), TaggedAssociations(rows), other);
    WithoutGcpKeepsOthers(assocs, gcp.name, other);
    ForGcpNone(TaggedAssociations(rows), other);
  }

  lemma {:induction false} FirstAssocAppend(a: seq<ImageGcp>, b: seq<ImageGcp>, gcpName: string, imgName: string)
    ensures FirstAssoc(a + b, gcpName, imgName) ==
            if FirstAssoc(a, gcpName, imgName).Some? then FirstAssoc(a, gcpName, imgName)
            else FirstAssoc(b, gcpName, imgName)
  {
    if a != [] {
      assert (a + b)[1..] == a[1..] + b;
      FirstAssocAppend(a[1..], b, gcpName, imgName);
    } else {
      assert a + b == b;
    }
  }

  lemma {:induction false} TaggedLookup(rows: seq<ImageDescriptor>, gcpName: string, i: int)
    requires Distinct(RowNames(rows))
    requires forall j :: 0 <= j < |rows| ==> rows[j].image.gcpName == gcpName
    requires 0 <= i < |rows|
    ensures FirstAssoc(TaggedAssociations(rows), gcpName, rows[i].image.imgName) ==
            if rows[i].isTagged then Some(rows[i].image) else None
  {
    var name := rows[i].image.imgName;
    var head := if rows[0].isTagged then [rows[0].image] else [];
    var tail := TaggedAssociations(rows[1..]);
    assert TaggedAssociations(rows) == head + tail;
    FirstAssocAppend(head, tail, gcpName, name);
    assert Distinct(RowNames(rows[1..])) by {
      forall p, q | 0 <= p < q < |rows| - 1
        ensures RowNames(rows[1..])[p] != RowNames(rows[1..])[q]
      {
        assert RowNames(rows)[p + 1] != RowNames(rows)[q + 1];
      }
    }
    if i == 0 {
      forall a | a in tail
        ensures !(a.gcpName == gcpName && a.imgName == name)
      {
        var j :| 0 <= j < |rows[1..]| && rows[1..][j].isTagged && rows[1..][j].image == a;
        assert RowNames(rows)[0] != RowNames(rows)[j + 1];
      }
    } else {
      assert RowNames(rows)[0] != RowNames(rows)[i];
      TaggedLookup(rows[1..], gcpName, i - 1);
    }
  }

  /** After `ok`, looking up a row's (GCP, image) pair in the stored list
      finds exactly its association when the row was tagged, and nothing
      when it was not. */
  lemma CommitThenLookup(assocs: seq<ImageGcp>, gcp: Gcp, rows: seq<ImageDescriptor>, i: int)
    requires RowsFor(gcp, rows) && Distinct(RowNames(rows))
    requires 0 <= i < |rows|
    ensures FirstAssoc(Committed(assocs, gcp.name, rows), gcp.name, rows[i].image.imgName) ==
            if rows[i].isTagged then Some(rows[i].image) else None
  {
    var kept := WithoutGcp(assocs, gcp.name);
    FirstAssocAppend(kept, TaggedAssociations(rows), gcp.name, rows[i].image.imgName);
    TaggedLookup(rows, gcp.name, i);
  }

  /** Pin, confirm, reload: the reloaded row sits at the pinned location,
      but it is tagged only when both coordinates are non-zero. */
  lemma PinCommitReload(assocs: seq<ImageGcp>, gcp: Gcp, rows: seq<ImageDescriptor>, i: int,
                        location: PinLocation, images: seq<ImageInfo>, k: int)
    requires RowsFor(gcp, rows) && Distinct(RowNames(rows))
    requires 0 <= i < |rows| && 0 <= k < |images|
    requires images[k].name == rows[i].image.imgName
    ensures var stored := Committed(assocs, gcp.name, rows[i := Pinned(rows[i], location)]);
            var reloaded := BuildRow(gcp, images[k], images, stored);
            reloaded.image.imX == location.x && reloaded.image.imY == location.y &&
            reloaded.pinLocation == Some(PinLocation(location.x, location.y)) &&
            (reloaded.isTagged <==> IsTaggedAt(location.x, location.y))
  {
    var pinned := rows[i := Pinned(rows[i], location)];
    assert RowNames(pinned) == RowNames(rows);
    CommitThenLookup(assocs, gcp, pinned, i);
    FindAfterFilter(Committed(assocs, gcp.name, pinned), gcp.name, images[k].name);
  }

  /** The case the load-time test loses: a pin at x = 0 (the image's left
      edge) is tagged in the session and stored by `ok`, yet the reloaded
      row is untagged, so the next `ok` drops the stored tag. */
  lemma EdgePinLostOnReload()
    ensures var gcp := Gcp("P1", 500000.0, 4500000.0, 120.0);
            var row := NewRow(gcp, "IMG_01.jpg", Some("blob:1"));
            var images := [ImageInfo("IMG_01.jpg", Some("blob:1"))];
            var pinned := Pinned(row, PinLocation(0.0, 80.0));
            var stored := Committed([], gcp.name, [pinned]);
            var reloaded := BuildRow(gcp, images[0], images, stored);
            pinned.isTagged && pinned.image in stored && !reloaded.isTagged &&
            Committed(stored, gcp.name, [reloaded]) == []
  {
    var gcp := Gcp("P1", 500000.0, 4500000.0, 120.0);
    var row := NewRow(gcp, "IMG_01.jpg", Some("blob:1"));
    var images := [ImageInfo("IMG_01.jpg", Some("blob:1"))];
    PinCommitReload([], gcp, [row], 0, PinLocation(0.0, 80.0), images, 0);
    var pinned := Pinned(row, PinLocation(0.0, 80.0));
    var stored := Committed([], gcp.name, [pinned]);
    assert TaggedAssociations([pinned]) == [pinned.image];
    var reloaded := BuildRow(gcp, images[0], images, stored);
    ForGcpAll(stored, gcp.name);
    assert TaggedAssociations([reloaded]) == [];
    assert WithoutGcp(stored, gcp.name) == [];
  }

  /** The evidently intended load-time test: a row is untagged only at the
      (0, 0) sentinel. */
  predicate IsTaggedAtIntended(x: real, y: real)
  {
    x != 0.0 || y != 0.0
  }

  /** `BuildRow` with the intended tag test. */
  function BuildRowIntended(gcp: Gcp, img: ImageInfo, images: seq<ImageInfo>, assocs: seq<ImageGcp>): ImageDescriptor
  {
    var row := BuildRow(gcp, img, images, assocs);
    row.(isTagged := row.pinLocation.Some? && IsTaggedAtIntended(row.image.imX, row.image.imY))
  }

  /** With the intended test, every pin except the (0, 0) sentinel survives
      confirm and reload, and the next confirm stores it again. */
  lemma PinCommitReloadIntended(assocs: seq<ImageGcp>, gcp: Gcp, rows: seq<ImageDescriptor>, i: int,
                                location: PinLocation, images: seq<ImageInfo>, k: int)
    requires RowsFor(gcp, rows) && Distinct(RowNames(rows))
    requires 0 <= i < |rows| && 0 <= k < |images|
    requires images[k].name == rows[i].image.imgName
    ensures var stored := Committed(assocs, gcp.name, rows[i := Pinned(rows[i], location)]);
            var reloaded := BuildRowIntended(gcp, images[k], images, stored);
            (reloaded.isTagged <==> !(location.x == 0.0 && location.y == 0.0)) &&
            (reloaded.isTagged ==> reloaded.image == Pinned(rows[i], location).image)
  {
    PinCommitReload(assocs, gcp, rows, i, location, images, k);
  }

  // ---------------------------------------------------------------------
  // Removing

  /** `images.filter(item => item.image.imgName !== name)`. */
  function WithoutRowsNamed(rows: seq<ImageDescriptor>, name: string): (r: seq<ImageDescriptor>)
    ensures forall row :: row in r <==> row in rows && row.image.imgName != name
    ensures |r| <= |rows|
  {
    if rows == [] then []
    else (if rows[0].image.imgName != name then [rows[0]] else []) + WithoutRowsNamed(rows[1..], name)
  }

  /** After removal no row has that name. */
  lemma RemovedRowsGone(rows: seq<ImageDescriptor>, name: string)
    ensures name !in RowNames(WithoutRowsNamed(rows, name))
  {
    var r := WithoutRowsNamed(rows, name);
    forall j | 0 <= j < |r|
      ensures RowNames(r)[j] != name
    {
      assert r[j] in r;
    }
  }

  // ---------------------------------------------------------------------
  // Presentation helpers

  /** The badge style of a row's label. */
  datatype Badge = BadgeSuccess | BadgePrimary | BadgeInfo | BadgeWarning

  function BadgeClass(b: Badge): string
  {
    match b
    case BadgeSuccess => "badge-success"
    case BadgePrimary => "badge-primary"
    case BadgeInfo => "badge-info"
    case BadgeWarning => "badge-warning"
  }

  /** `getClass`: exactly one badge; warning without a url, else success
      when tagged, else primary when other GCPs use the image, else info. */
  function GetClass(desc: ImageDescriptor): (b: Badge)
    ensures b == BadgeWarning <==> desc.imageUrl.None?
    ensures b == BadgeSuccess <==> desc.imageUrl.Some? && desc.isTagged
    ensures b == BadgePrimary <==> desc.imageUrl.Some? && !desc.isTagged && desc.otherGcps != []
    ensures b == BadgeInfo <==> desc.imageUrl.Some? && !desc.isTagged && desc.otherGcps == []
  {
    if desc.imageUrl.Some? then
      if desc.isTagged then BadgeSuccess
      else if |desc.otherGcps| != 0 then BadgePrimary
      else BadgeInfo
    else BadgeWarning
  }

  /** `getName`: the image name, followed by the other GCPs' names in
      parentheses when there are any. */
  function GetName(desc: ImageDescriptor): (name: string)
    ensures |desc.image.imgName| <= |name| && name[..|desc.image.imgName|] == desc.image.imgName
    ensures name == desc.image.imgName <==> desc.otherGcps == []
    ensures desc.otherGcps != [] ==>
              (|name| >= |desc.image.imgName| + 3 && name[|name| - 1] == ')' &&
               name[|desc.image.imgName|..|desc.image.imgName| + 2] == " (")
    ensures desc.otherGcps != [] ==>
              name == desc.image.imgName + " (" + Join(desc.otherGcps, ", ") + ")"
  {
    var n := desc.image.imgName;
    if |desc.otherGcps| != 0 then
      var r := n + " (" + Join(desc.otherGcps, ", ") + ")";
      assert |r| > |n|;
      assert r[..|n|] == n;
      r
    else n
  }

  /** The label's length: the name, then " (", the other GCP names with
      ", " between them, and ")". */
  lemma GetNameLength(desc: ImageDescriptor)
    ensures |GetName(desc)| ==
            |desc.image.imgName| +
            (if desc.otherGcps == [] then 0
             else 3 + TotalLength(desc.otherGcps) + 2 * (|desc.otherGcps| - 1))
  {
    if desc.otherGcps != [] {
      JoinLength(desc.otherGcps, ", ");
    }
  }

  /** One more GCP on an image already listing others goes inside the
      parentheses, after ", ", at the end of the list. */
  lemma GetNameAppend(desc: ImageDescriptor, g: string)
    requires desc.otherGcps != []
    ensures var name := GetName(desc);
            GetName(desc.(otherGcps := desc.otherGcps + [g])) == name[..|name| - 1] + ", " + g + ")"
  {
    var name := GetName(desc);
    var n := desc.image.imgName;
    var j := Join(desc.otherGcps, ", ");
    var head := n + " (" + j;
    JoinAppend(desc.otherGcps, g, ", ");
    assert name == head + ")";
    assert name[..|name| - 1] == head;
    assert GetName(desc.(otherGcps := desc.otherGcps + [g])) == n + " (" + (j + ", " + g) + ")";
  }

  // ---------------------------------------------------------------------
  // The component

  /** `ImagesTaggerComponent` after a successful load: the active GCP, the
      working rows, and the shared store it commits to. */
  class ImagesTaggerComponent {
    const storage: StorageService
    var gcp: Gcp
    var images: seq<ImageDescriptor>

    ghost predicate Valid()
      reads this
    {
      RowsFor(gcp, images)
    }

    constructor (storage: StorageService, gcp: Gcp, rows: seq<ImageDescriptor>)
      requires RowsFor(gcp, rows)
      ensures this.storage == storage && this.gcp == gcp && this.images == rows
      ensures Valid()
    {
      this.storage := storage;
      this.gcp := gcp;
      this.images := rows;
    }

    /** `handleImages`: save each file in the store, then update the url of
        its row or append an untagged row for it. */
    method HandleImages(files: seq<ImportedFile>)
      requires Valid()
      modifies this, storage
      ensures Valid() && gcp == old(gcp)
      ensures images == ImportAll(gcp, old(images), files)
      ensures storage.images == SaveAll(old(storage.images), files)
      ensures storage.imageGcps == old(storage.imageGcps)
      ensures storage.gcps == old(storage.gcps) && storage.projection == old(storage.projection)
    {
      var i := 0;
      while i < |files|
        invariant 0 <= i <= |files|
        invariant gcp == old(gcp) && Valid()
        invariant images == ImportAll(gcp, old(images), files[..i])
        invariant storage.images == SaveAll(old(storage.images), files[..i])
        invariant storage.imageGcps == old(storage.imageGcps)
        invariant storage.gcps == old(storage.gcps) && storage.projection == old(storage.projection)
      {
        var f := files[i];
        ImportStep(gcp, old(images), old(storage.images), files, i);
        var image := storage.SaveImageRaw(f.name, f.objectUrl);
        ShowImage(f.name, image.url);
        i := i + 1;
      }
      assert files[..i] == files;
    }

    /** The body of the `handleImages` loop after saving: the row of that
        name gets the new url, or an untagged row is appended. */
    method ShowImage(name: string, url: Option<string>)
      requires Valid() && url.Some?
      modifies this
      ensures Valid() && gcp == old(gcp)
      ensures images == ImportOne(gcp, old(images), ImportedFile(name, url.value))
    {
      ImportOneKeepsRowsFor(gcp, images, ImportedFile(name, url.value));
      var found := FirstIndex(RowNames(images), name);
      if found.None? {
        images := images + [NewRow(gcp, name, url)];
      } else {
        var k := found.value;
        images := images[k := images[k].(imageUrl := url)];
      }
    }

    /** `pin`: tag row `i` at `location`. */
    method Pin(location: PinLocation, i: int)
      requires Valid() && 0 <= i < |images|
      modifies this
      ensures Valid() && gcp == old(gcp)
      ensures images == old(images)[i := Pinned(old(images)[i], location)]
    {
      images := images[i := images[i].(isTagged := true, image := images[i].image.(imX := location.x, imY := location.y))];
    }

    /** `ok`: replace the store's associations with the other GCPs' ones
        followed by the tagged rows' ones. */
    method Ok()
      requires Valid()
      modifies storage
      ensures storage.imageGcps == Committed(old(storage.imageGcps), gcp.name, images)
      ensures storage.images == old(storage.images)
      ensures storage.gcps == old(storage.gcps) && storage.projection == old(storage.projection)
    {
      var tmp := WithoutGcp(storage.imageGcps, gcp.name);
      tmp := tmp + TaggedAssociations(images);
      storage.imageGcps := tmp;
    }

    /** `remove`: when other GCPs use the image nothing happens unless the
        user confirms; otherwise drop its rows and cascade in the store. */
    method Remove(desc: ImageDescriptor, confirmed: bool)
      requires Valid()
      modifies this, storage
      ensures Valid() && gcp == old(gcp)
      ensures desc.otherGcps != [] && !confirmed ==>
                images == old(images) && unchanged(storage)
      ensures desc.otherGcps == [] || confirmed ==>
                images == WithoutRowsNamed(old(images), desc.image.imgName) &&
                storage.images == RemovedFirst(old(storage.images), desc.image.imgName) &&
                storage.imageGcps == WithoutImage(old(storage.imageGcps), desc.image.imgName) &&
                storage.gcps == old(storage.gcps) && storage.projection == old(storage.projection)
    {
      if |desc.otherGcps| > 0 && !confirmed {
        return;
      }
      images := WithoutRowsNamed(images, desc.image.imgName);
      storage.RemoveImage(desc.image.imgName);
    }
  }

  /** Opening the tagger for the route's `gcp` parameter: a component when
      `Load` succeeds, none when the page navigates away. */
  method Open(storage: StorageService, gcpParam: Option<string>) returns (r: Option<ImagesTaggerComponent>)
    ensures var l := Load(storage.gcps, storage.projection, gcpParam, storage.images, storage.imageGcps);
            (r.Some? <==> l.Loaded?) &&
            (r.Some? ==> fresh(r.value) && r.value.storage == storage && r.value.Valid() &&
                         r.value.gcp == l.session.gcp && r.value.images == l.session.rows)
  {
    var l := Load(storage.gcps, storage.projection, gcpParam, storage.images, storage.imageGcps);
    if l.NavigatedAway? {
      return None;
    }
    var c := new ImagesTaggerComponent(storage, l.session.gcp, l.session.rows);
    r := Some(c);
  }
}
