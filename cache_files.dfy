/**
 * The client's on-disk cache directories and the image ingestion both
 * client caches perform: resolve an image reference to a URL, download
 * it, shrink it when it is large, and write it to the image directory,
 * falling back to the bundled paw icon when anything fails.
 *
 * The two directories are maps from file name to content. The download
 * server, the image resizer and the files that cannot be written are the
 * environment (Io), fixed for the duration of one operation.
 */
module CacheFiles {
  import opened Wrappers
  import opened Clock
  import opened Text
  import opened Web
  import opened Models
  import ProfilesService

  newtype byte = x: int | 0 <= x < 256

  type Bytes = seq<byte>

  /** Images larger than this many bytes are resized before they are stored. */
  const MaxImageSizeBytes: nat := 1_000_000

  /** The metadata record: when the profiles were cached and their ids in order. */
  datatype CacheMetadata = CacheMetadata(cachedAt: DateTime, profileIds: seq<int>)

  /** The content of a JSON file in the profile directory, as the deserializer sees it. */
  datatype JsonDoc =
    | ProfileJson(profile: ProfileData)
    | MetadataJson(metadata: CacheMetadata)
    | Unparsable

  /**
   * The environment of one cache operation: what the server answers per URL,
   * what the resizer makes of an image (None when it fails), and the files
   * whose writes fail in each directory.
   */
  datatype Io = Io(
    server: map<string, Bytes>,
    resize: Bytes -> Option<Bytes>,
    unwritableProfileFiles: set<string>,
    unwritableImageFiles: set<string>)

  /** The ProfileCache and ImageCache directories under the app's local data folder. */
  class FileStore {
    var profileDir: map<string, JsonDoc>
    var imageDir: map<string, Bytes>

    /** Opening the cache creates the directories when missing and keeps whatever they hold. */
    constructor(profileFiles: map<string, JsonDoc>, imageFiles: map<string, Bytes>)
      ensures profileDir == profileFiles && imageDir == imageFiles
    {
      profileDir := profileFiles;
      imageDir := imageFiles;
    }
  }

  /** The property values of each profile, in order. */
  function DataOf(profiles: seq<PetProfile>): (ds: seq<ProfileData>)
    reads profiles`id, profiles`name, profiles`breed, profiles`age, profiles`imageUrl,
          profiles`createdAt, profiles`updatedAt
    ensures |ds| == |profiles|
    ensures forall k :: 0 <= k < |profiles| ==> ds[k] == profiles[k].Data()
  {
    if profiles == [] then []
    else DataOf(profiles[..|profiles| - 1]) + [profiles[|profiles| - 1].Data()]
  }

  /** The image attached to each profile, in order. */
  function Preloads(profiles: seq<PetProfile>): (images: seq<Option<ImageSource>>)
    reads profiles`preloadedImage
    ensures |images| == |profiles|
    ensures forall k :: 0 <= k < |profiles| ==> images[k] == profiles[k].preloadedImage
  {
    if profiles == [] then []
    else Preloads(profiles[..|profiles| - 1]) + [profiles[|profiles| - 1].preloadedImage]
  }

  /** !string.IsNullOrEmpty(ImageUrl) */
  predicate HasImageUrl(p: ProfileData) {
    !IsNullOrEmpty(p.imageUrl)
  }

  /** BuildFullUrl: an absolute URL as it is, anything else as a file on the API's image endpoint. */
  function BuildFullUrl(imageUrl: string): (url: string)
    ensures IsWellFormedAbsoluteUri(imageUrl) ==> url == imageUrl
    ensures !IsWellFormedAbsoluteUri(imageUrl) ==> BaseUrl + "/Images/" <= url
  {
    if IsWellFormedAbsoluteUri(imageUrl) then imageUrl else BaseUrl + "/Images/" + imageUrl
  }

  /** For a bare file name the caches download from the same URL the service builds for it. */
  lemma BuildFullUrlMatchesService(fileName: string)
    requires fileName != "" && ':' !in fileName
    ensures BuildFullUrl(fileName) == ProfilesService.GetImageUrlFromFileName(Some(fileName))
  {
    NoColonNotAbsolute(fileName);
  }

  /**
   * The bytes CacheImageAsync writes: an image of at most MaxImageSizeBytes
   * as it came; a larger one as the resizer returns it, or as it came when
   * resizing fails.
   */
  function StoredImageBytes(imageBytes: Bytes, resize: Bytes -> Option<Bytes>): (stored: Bytes)
    ensures |imageBytes| <= MaxImageSizeBytes ==> stored == imageBytes
    ensures stored == imageBytes || (|imageBytes| > MaxImageSizeBytes && resize(imageBytes) == Some(stored))
    ensures |imageBytes| > MaxImageSizeBytes && resize(imageBytes).None? ==> stored == imageBytes
  {
    if |imageBytes| > MaxImageSizeBytes then
      match resize(imageBytes)
      case Some(resized) => resized
      case None => imageBytes
    else imageBytes
  }

  /** The bytes one PreloadAndCacheImageAsync(imageUrl) stores, or None when the download or the write fails. */
  function FetchedImage(io: Io, imageUrl: string): (r: Option<Bytes>)
    ensures r.Some? <==> BuildFullUrl(imageUrl) in io.server && imageUrl !in io.unwritableImageFiles
  {
    var url := BuildFullUrl(imageUrl);
    if url in io.server && imageUrl !in io.unwritableImageFiles
    then Some(StoredImageBytes(io.server[url], io.resize))
    else None
  }

  /** The image PreloadAndCacheImageAsync returns: the cached file, or the paw icon after a failure. */
  function PreloadedImageSource(io: Io, imageUrl: string): (image: ImageSource)
    ensures image == Placeholder <==> FetchedImage(io, imageUrl).None?
    ensures image != Placeholder ==> image == ImageCacheFile(imageUrl)
  {
    if FetchedImage(io, imageUrl).Some? then ImageCacheFile(imageUrl) else Placeholder
  }

  /**
   * PreloadedImage of a profile after a caching pass has visited it: the
   * preloaded image when the profile has an image reference, the previous
   * value otherwise.
   */
  function PreloadedAfter(io: Io, d: ProfileData, prior: Option<ImageSource>): (image: Option<ImageSource>)
    ensures HasImageUrl(d) ==> image.Some? && image.value == PreloadedImageSource(io, d.imageUrl.value)
    ensures !HasImageUrl(d) ==> image == prior
  {
    if HasImageUrl(d) then Some(PreloadedImageSource(io, d.imageUrl.value)) else prior
  }

  /** The image directory after caching one image. */
  function ImageWritten(imageDir: map<string, Bytes>, io: Io, imageUrl: string): map<string, Bytes> {
    match FetchedImage(io, imageUrl)
    case None => imageDir
    case Some(bytes) => imageDir[imageUrl := bytes]
  }

  /** The image directory after caching the image of every profile that has one, in order. */
  function ImagesWritten(imageDir: map<string, Bytes>, io: Io, ds: seq<ProfileData>): map<string, Bytes> {
    if ds == [] then imageDir
    else
      var before := ImagesWritten(imageDir, io, ds[..|ds| - 1]);
      var last := ds[|ds| - 1];
      if HasImageUrl(last) then ImageWritten(before, io, last.imageUrl.value) else before
  }

  /** Profiles without an image reference are skipped: they never touch the image directory. */
  lemma {:induction false} ImagesWrittenSkipsProfilesWithoutImage(imageDir: map<string, Bytes>, io: Io, ds: seq<ProfileData>)
    requires forall k :: 0 <= k < |ds| ==> !HasImageUrl(ds[k])
    ensures ImagesWritten(imageDir, io, ds) == imageDir
  {
    if ds != [] {
      ImagesWrittenSkipsProfilesWithoutImage(imageDir, io, ds[..|ds| - 1]);
    }
  }

  /**
   * After caching the images of ds, the image of every profile whose image
   * could be fetched is in the directory, with the bytes fetched for it.
   */
  lemma {:induction false} ImagesWrittenHolds(imageDir: map<string, Bytes>, io: Io, ds: seq<ProfileData>, k: nat)
    requires k < |ds| && HasImageUrl(ds[k]) && FetchedImage(io, ds[k].imageUrl.value).Some?
    ensures ds[k].imageUrl.value in ImagesWritten(imageDir, io, ds)
    ensures ImagesWritten(imageDir, io, ds)[ds[k].imageUrl.value] == FetchedImage(io, ds[k].imageUrl.value).value
  {
    var init := ds[..|ds| - 1];
    var last := ds[|ds| - 1];
    if k < |ds| - 1 {
      ImagesWrittenHolds(imageDir, io, init, k);
      assert init[k] == ds[k];
    }
  }

  /** ImagesWritten over one more profile caches that profile's image last, when it has one. */
  lemma ImagesWrittenStep(imageDir: map<string, Bytes>, io: Io, ds: seq<ProfileData>, i: nat,
                          before: map<string, Bytes>, after: map<string, Bytes>)
    requires i < |ds|
    requires before == ImagesWritten(imageDir, io, ds[..i])
    requires after == if HasImageUrl(ds[i]) then ImageWritten(before, io, ds[i].imageUrl.value) else before
    ensures after == ImagesWritten(imageDir, io, ds[..i + 1])
  {
    assert ds[..i + 1][..i] == ds[..i];
  }

  /**
   * The images attached after a pass has visited the first i profiles:
   * each has what PreloadedAfter gives it, except that an unvisited one may
   * still have what it had (it may also have been visited as an earlier
   * entry of the same object).
   */
  ghost predicate VisitedUpTo(images: seq<Option<ImageSource>>, ds: seq<ProfileData>, io: Io,
                              prior: seq<Option<ImageSource>>, i: nat)
  {
    |images| == |ds| == |prior| && i <= |images| &&
    forall k :: 0 <= k < |images| ==>
      images[k] == PreloadedAfter(io, ds[k], prior[k]) || (i <= k && images[k] == prior[k])
  }

  ghost predicate PreloadedUpTo(profiles: seq<PetProfile>, ds: seq<ProfileData>, io: Io,
                                prior: seq<Option<ImageSource>>, i: nat)
    reads profiles`preloadedImage
  {
    VisitedUpTo(Preloads(profiles), ds, io, prior, i)
  }

  /**
   * Visiting entry i, which may update other entries holding the same
   * object, advances the pass by one: PreloadedAfter applied twice gives
   * what it gives once.
   */
  lemma VisitStep(before: seq<Option<ImageSource>>, after: seq<Option<ImageSource>>, ds: seq<ProfileData>, io: Io,
                  prior: seq<Option<ImageSource>>, i: nat)
    requires VisitedUpTo(before, ds, io, prior, i) && i < |before| == |after|
    requires after[i] == PreloadedAfter(io, ds[i], before[i])
    requires forall k :: 0 <= k < |after| ==> after[k] == before[k] || after[k] == PreloadedAfter(io, ds[k], before[k])
    ensures VisitedUpTo(after, ds, io, prior, i + 1)
  {
  }

  /** The property values read from the profiles are ds when each profile's are. */
  lemma DataOfIs(profiles: seq<PetProfile>, ds: seq<ProfileData>)
    requires |ds| == |profiles|
    requires forall k :: 0 <= k < |profiles| ==> profiles[k].Data() == ds[k]
    ensures DataOf(profiles) == ds
  {
  }

  /** PreloadAndCacheImageAsync, shared by both client caches. */
  method PreloadAndCacheImage(store: FileStore, io: Io, imageUrl: string) returns (image: ImageSource)
    modifies store`imageDir
    ensures image == PreloadedImageSource(io, imageUrl)
    ensures store.imageDir == ImageWritten(old(store.imageDir), io, imageUrl)
  {
    var fullUrl := BuildFullUrl(imageUrl);
    if fullUrl !in io.server {
      return Placeholder;
    }
    var imageBytes := io.server[fullUrl];
    var ok := CacheImage(store, io, imageUrl, imageBytes);
    if !ok {
      return Placeholder;
    }
    return ImageCacheFile(imageUrl);
  }

  /**
   * CacheImageAsync: write the image, shrunk when large. When the first
   * write fails the original bytes are written to the same file, which
   * fails as well, and the failure reaches the caller.
   */
  method CacheImage(store: FileStore, io: Io, imageUrl: string, imageBytes: Bytes) returns (ok: bool)
    modifies store`imageDir
    ensures ok <==> imageUrl !in io.unwritableImageFiles
    ensures store.imageDir == if ok then old(store.imageDir)[imageUrl := StoredImageBytes(imageBytes, io.resize)]
                              else old(store.imageDir)
  {
    if imageUrl in io.unwritableImageFiles {
      return false;
    }
    var bytes := imageBytes;
    if |imageBytes| > MaxImageSizeBytes {
      var resized := io.resize(imageBytes);
      bytes := if resized.Some? then resized.value else imageBytes;
    }
    store.imageDir := store.imageDir[imageUrl := bytes];
    return true;
  }
}
