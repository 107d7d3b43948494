/** The project store of storage.service.ts: the image registry (`images`,
    keyed by file name) and the flat list of GCP-to-image associations
    (`imageGcps`), with the cascade that removes an image's associations. */
module Storage {
  import opened Common
  import opened Gcps

  /** `ImageInfo`: an imported image, identified by its file name; `url` is
      its object URL, which the declaration allows to be `null`. */
  datatype ImageInfo = ImageInfo(name: string, url: Option<string>)

  function Names(images: seq<ImageInfo>): seq<string>
  {
    seq(|images|, i requires 0 <= i < |images| => images[i].name)
  }

  // ---------------------------------------------------------------------
  // The image registry

  /** The registry after `saveImage(image)`: an unknown name is appended;
      for a known name only the first record with that name takes the new url. */
  function Upserted(images: seq<ImageInfo>, image: ImageInfo): (r: seq<ImageInfo>)
    ensures image.name !in Names(images) ==> r == images + [image]
    ensures image.name in Names(images) ==> Names(r) == Names(images)
    ensures forall i :: IsFirst(Names(images), image.name, i) ==>
              r[i].url == image.url &&
              forall j :: 0 <= j < |r| && j != i ==> r[j] == images[j]
  {
    match FirstIndex(Names(images), image.name)
    case None => images + [image]
    case Some(i) => images[i := images[i].(url := image.url)]
  }

  /** `getImageUrl(name)`: the url of the first image with that name, and
      `null` when there is none. */
  function UrlOf(images: seq<ImageInfo>, name: string): (r: Option<string>)
    ensures name !in Names(images) ==> r == None
    ensures forall i :: IsFirst(Names(images), name, i) ==> r == images[i].url
  {
    match FirstIndex(Names(images), name)
    case None => None
    case Some(i) => images[i].url
  }

  /** The registry after `removeImage(name)`: the first record with that
      name is spliced out, the others keep their order. */
  function RemovedFirst(images: seq<ImageInfo>, name: string): (r: seq<ImageInfo>)
    ensures name !in Names(images) ==> r == images
    ensures name in Names(images) ==> |r| == |images| - 1
    ensures forall i :: IsFirst(Names(images), name, i) ==>
              r == images[..i] + images[i + 1..]
  {
    match FirstIndex(Names(images), name)
    case None => images
    case Some(i) => images[..i] + images[i + 1..]
  }

  /** Saving an image and then asking for its url yields the saved url. */
  lemma SaveThenGetUrl(images: seq<ImageInfo>, image: ImageInfo)
    ensures UrlOf(Upserted(images, image), image.name) == image.url
  {
    var r := Upserted(images, image);
    match FirstIndex(Names(images), image.name)
    case None =>
      assert IsFirst(Names(r), image.name, |images|);
    case Some(i) =>
      assert IsFirst(Names(r), image.name, i);
  }

  /** Saving keeps image names unique. */
  lemma UpsertKeepsDistinct(images: seq<ImageInfo>, image: ImageInfo)
    requires Distinct(Names(images))
    ensures Distinct(Names(Upserted(images, image)))
  {
    if image.name !in Names(images) {
      assert Names(images + [image]) == Names(images) + [image.name];
    }
  }

  /** Saving a new name adds exactly one record; saving a known name adds none. */
  lemma UpsertLength(images: seq<ImageInfo>, image: ImageInfo)
    ensures |Upserted(images, image)| == |images| + (if image.name in Names(images) then 0 else 1)
  {
    if image.name in Names(images) {
      assert |Names(Upserted(images, image))| == |Names(images)|;
    }
  }

  /** When every stored url is set, `getImageUrl` is `null` exactly for the
      names that are not registered. */
  lemma UrlNullIffAbsent(images: seq<ImageInfo>, name: string)
    requires forall i :: 0 <= i < |images| ==> images[i].url.Some?
    ensures UrlOf(images, name).None? <==> name !in Names(images)
  {
    var k := FirstIndex(Names(images), name);
    if k.Some? {
      assert IsFirst(Names(images), name, k.value);
    }
  }

  /** With unique names, removing an image leaves no image of that name,
      and the names stay unique. */
  lemma RemoveUniqueGone(images: seq<ImageInfo>, name: string)
    requires Distinct(Names(images))
    ensures name !in Names(RemovedFirst(images, name))
    ensures Distinct(Names(RemovedFirst(images, name)))
    ensures UrlOf(RemovedFirst(images, name), name) == None
  {
    var k := FirstIndex(Names(images), name);
    if k.Some? {
      var i := k.value;
      var r := images[..i] + images[i + 1..];
      assert RemovedFirst(images, name) == r;
      forall j | 0 <= j < |r|
        ensures Names(r)[j] == Names(images)[if j < i then j else j + 1]
      {
      }
      forall j | 0 <= j < |r|
        ensures Names(r)[j] != name
      {
        assert Names(images)[i] == name;
      }
    }
  }

  // ---------------------------------------------------------------------
  // The association list

  /** The associations on one image, any GCP, in stored order. */
  function ForImage(assocs: seq<ImageGcp>, imgName: string): (r: seq<ImageGcp>)
    ensures forall a :: a in r <==> a in assocs && a.imgName == imgName
  {
    if assocs == [] then []
    else (if assocs[0].imgName == imgName then [assocs[0]] else []) + ForImage(assocs[1..], imgName)
  }

  /** `imageGcps.filter(item => item.imgName !== imgName)`. */
  function WithoutImage(assocs: seq<ImageGcp>, imgName: string): (r: seq<ImageGcp>)
    ensures forall a :: a in r <==> a in assocs && a.imgName != imgName
  {
    if assocs == [] then []
    else (if assocs[0].imgName != imgName then [assocs[0]] else []) + WithoutImage(assocs[1..], imgName)
  }

  /** The associations of one GCP, any image, in stored order. */
  function ForGcp(assocs: seq<ImageGcp>, gcpName: string): (r: seq<ImageGcp>)
    ensures forall a :: a in r <==> a in assocs && a.gcpName == gcpName
  {
    if assocs == [] then []
    else (if assocs[0].gcpName == gcpName then [assocs[0]] else []) + ForGcp(assocs[1..], gcpName)
  }

  /** `imageGcps.filter(img => img.gcpName !== gcpName)`. */
  function WithoutGcp(assocs: seq<ImageGcp>, gcpName: string): (r: seq<ImageGcp>)
    ensures forall a :: a in r <==> a in assocs && a.gcpName != gcpName
  {
    if assocs == [] then []
    else (if assocs[0].gcpName != gcpName then [assocs[0]] else []) + WithoutGcp(assocs[1..], gcpName)
  }

  /** The cascade leaves no association on the removed image. */
  lemma {:induction false} CascadeClearsImage(assocs: seq<ImageGcp>, imgName: string)
    ensures ForImage(WithoutImage(assocs, imgName), imgName) == []
  {
    if assocs != [] {
      CascadeClearsImage(assocs[1..], imgName);
      var head := if assocs[0].imgName != imgName then [assocs[0]] else [];
      ForImageAppend(head, WithoutImage(assocs[1..], imgName), imgName);
    }
  }

  /** The cascade keeps every other image's associations, in their order. */
  lemma {:induction false} CascadeKeepsOtherImages(assocs: seq<ImageGcp>, imgName: string, other: string)
    requires other != imgName
    ensures ForImage(WithoutImage(assocs, imgName), other) == ForImage(assocs, other)
  {
    if assocs != [] {
      CascadeKeepsOtherImages(assocs[1..], imgName, other);
      var head := if assocs[0].imgName != imgName then [assocs[0]] else [];
      ForImageAppend(head, WithoutImage(assocs[1..], imgName), other);
    }
  }

  /** The cascade removes exactly the associations on the image. */
  lemma {:induction false} CascadeRemovesOnlyImage(assocs: seq<ImageGcp>, imgName: string)
    ensures |WithoutImage(assocs, imgName)| + |ForImage(assocs, imgName)| == |assocs|
  {
    if assocs != [] {
      CascadeRemovesOnlyImage(assocs[1..], imgName);
    }
  }

  lemma {:induction false} ForImageAppend(a: seq<ImageGcp>, b: seq<ImageGcp>, imgName: string)
    ensures ForImage(a + b, imgName) == ForImage(a, imgName) + ForImage(b, imgName)
  {
    if a != [] {
      assert (a + b)[1..] == a[1..] + b;
      ForImageAppend(a[1..], b, imgName);
    } else {
      assert a + b == b;
    }
  }

  /** Listing one GCP's associations distributes over concatenation. */
  lemma {:induction false} ForGcpAppend(a: seq<ImageGcp>, b: seq<ImageGcp>, gcpName: string)
    ensures ForGcp(a + b, gcpName) == ForGcp(a, gcpName) + ForGcp(b, gcpName)
  {
    if a != [] {
      assert (a + b)[1..] == a[1..] + b;
      ForGcpAppend(a[1..], b, gcpName);
    } else {
      assert a + b == b;
    }
  }

  /** Dropping a GCP's associations keeps every other GCP's list intact. */
  lemma {:induction false} WithoutGcpKeepsOthers(assocs: seq<ImageGcp>, gcpName: string, other: string)
    requires other != gcpName
    ensures ForGcp(WithoutGcp(assocs, gcpName), other) == ForGcp(assocs, other)
  {
    if assocs != [] {
      WithoutGcpKeepsOthers(assocs[1..], gcpName, other);
      var head := if assocs[0].gcpName != gcpName then [assocs[0]] else [];
      ForGcpAppend(head, WithoutGcp(assocs[1..], gcpName), other);
    }
  }

  // ---------------------------------------------------------------------
  // The service

  /** `StorageService`: process-wide project state shared by every screen. */
  class StorageService {
    /** `undefined`/`null` is `None`. */
    var gcps: Option<seq<Gcp>>
    var imageGcps: seq<ImageGcp>
    var projection: Option<Projection>
    var images: seq<ImageInfo>

    constructor ()
      ensures gcps == None && projection == None
      ensures imageGcps == [] && images == []
    {
      gcps := None;
      imageGcps := [];
      projection := None;
      images := [];
    }

    /** `saveImage`: upsert by name; returns the record it was given. */
    method SaveImage(image: ImageInfo) returns (r: ImageInfo)
      modifies this
      ensures images == Upserted(old(images), image)
      ensures r == image
      ensures imageGcps == old(imageGcps) && gcps == old(gcps) && projection == old(projection)
    {
      var found := FirstIndex(Names(images), image.name);
      if found.None? {
        images := images + [image];
      } else {
        var i := found.value;
        images := images[i := images[i].(url := image.url)];
      }
      r := image;
    }

    /** `removeImage`: splice out the first record with that name, then
        drop every association on that image. */
    method RemoveImage(imageName: string)
      modifies this
      ensures images == RemovedFirst(old(images), imageName)
      ensures imageGcps == WithoutImage(old(imageGcps), imageName)
      ensures gcps == old(gcps) && projection == old(projection)
    {
      var found := FirstIndex(Names(images), imageName);
      if found.Some? {
        var i := found.value;
        images := images[..i] + images[i + 1..];
      }
      imageGcps := WithoutImage(imageGcps, imageName);
    }

    /** `saveImageRaw`: build the record for a file and save it. */
    method SaveImageRaw(fileName: string, imageUrl: string) returns (r: ImageInfo)
      modifies this
      ensures r == ImageInfo(fileName, Some(imageUrl))
      ensures images == Upserted(old(images), r)
      ensures imageGcps == old(imageGcps) && gcps == old(gcps) && projection == old(projection)
    {
      r := SaveImage(ImageInfo(fileName, Some(imageUrl)));
    }

    /** `getImageUrl`: the url of the first image with that name, or none. */
    method GetImageUrl(name: string) returns (r: Option<string>)
      ensures r == UrlOf(images, name)
      ensures name !in Names(images) ==> r == None
      ensures forall i :: IsFirst(Names(images), name, i) ==> r == images[i].url
    {
      var found := FirstIndex(Names(images), name);
      if found.None? {
        r := None;
      } else {
        r := images[found.value].url;
      }
    }
  }
}
