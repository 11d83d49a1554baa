/**
 * ImagePreloadService: downloads the images of a list of profiles into the
 * image cache directory (the same directory the profile cache uses) and
 * attaches to each profile the image it should show.
 */
module ImagePreload {
  import opened Wrappers
  import opened Text
  import opened Models
  import opened CacheFiles

  class ImagePreloadService {
    const store: FileStore

    /** The service works on the PetProfiles/ImageCache directory, which it creates when missing. */
    constructor(store: FileStore)
      ensures this.store == store
    {
      this.store := store;
    }

    /**
     * PreloadImagesAsync: every profile with an image reference gets the
     * cached file, or the paw icon when its download or write failed; a
     * failure for one profile does not keep the others from being
     * processed, and profiles without an image reference are not touched.
     */
    method PreloadImages(profiles: seq<PetProfile>, io: Io)
      modifies store`imageDir, profiles`preloadedImage
      ensures forall k :: 0 <= k < |profiles| ==> profiles[k].Data() == old(profiles[k].Data())
      ensures store.imageDir == ImagesWritten(old(store.imageDir), io, old(DataOf(profiles)))
      ensures forall k :: 0 <= k < |profiles| ==>
        profiles[k].preloadedImage == PreloadedAfter(io, profiles[k].Data(), old(profiles[k].preloadedImage))
    {
      ghost var ds := DataOf(profiles);
      ghost var prior := Preloads(profiles);
      ghost var imageDir0 := store.imageDir;
      var i := 0;
      while i < |profiles|
        invariant 0 <= i <= |profiles|
        invariant forall k :: 0 <= k < |profiles| ==> profiles[k].Data() == ds[k]
        invariant store.imageDir == ImagesWritten(imageDir0, io, ds[..i])
        invariant PreloadedUpTo(profiles, ds, io, prior, i)
      {
        ghost var imageDir := store.imageDir;
        PreloadAt(profiles, i, io, ds, prior);
        ImagesWrittenStep(imageDir0, io, ds, i, imageDir, store.imageDir);
        i := i + 1;
      }
      assert ds[..i] == ds;
    }

    /** The work for profiles[i], which the Where filter skips when it has no image reference. */
    method PreloadAt(profiles: seq<PetProfile>, i: nat, io: Io, ghost ds: seq<ProfileData>,
                     ghost prior: seq<Option<ImageSource>>)
      requires i < |profiles| && PreloadedUpTo(profiles, ds, io, prior, i)
      requires forall k :: 0 <= k < |profiles| ==> profiles[k].Data() == ds[k]
      modifies store`imageDir, profiles`preloadedImage
      ensures forall k :: 0 <= k < |profiles| ==> profiles[k].Data() == ds[k]
      ensures store.imageDir == if HasImageUrl(ds[i]) then ImageWritten(old(store.imageDir), io, ds[i].imageUrl.value)
                                else old(store.imageDir)
      ensures PreloadedUpTo(profiles, ds, io, prior, i + 1)
    {
      ghost var before := Preloads(profiles);
      var profile := profiles[i];
      PreloadProfile(profile, io);
      ghost var after := Preloads(profiles);
      forall k | 0 <= k < |profiles|
        ensures after[k] == before[k] || after[k] == PreloadedAfter(io, ds[k], before[k])
      {
        if profiles[k] == profile {
          assert profiles[k].Data() == profile.Data();
        }
      }
      VisitStep(before, after, ds, io, prior, i);
    }

    /** The work for one profile: its image reference, when it has one, preloaded and attached. */
    method PreloadProfile(profile: PetProfile, io: Io)
      modifies store`imageDir, profile`preloadedImage
      ensures store.imageDir == if HasImageUrl(profile.Data()) then ImageWritten(old(store.imageDir), io, profile.imageUrl.value)
                                else old(store.imageDir)
      ensures profile.preloadedImage == PreloadedAfter(io, profile.Data(), old(profile.preloadedImage))
    {
      if !IsNullOrEmpty(profile.imageUrl) {
        var image := PreloadImage(io, profile.imageUrl.value);
        profile.preloadedImage := Some(image);
      }
    }

    /** PreloadImageAsync: the cached file after a successful download and write, the paw icon otherwise. */
    method PreloadImage(io: Io, imageUrl: string) returns (image: ImageSource)
      modifies store`imageDir
      ensures image == PreloadedImageSource(io, imageUrl)
      ensures store.imageDir == ImageWritten(old(store.imageDir), io, imageUrl)
    {
      image := PreloadAndCacheImage(store, io, imageUrl);
    }
  }

  /** A profile whose image cannot be downloaded shows the paw icon. */
  lemma FailedPreloadShowsPlaceholder(io: Io, d: ProfileData, prior: Option<ImageSource>)
    requires HasImageUrl(d) && BuildFullUrl(d.imageUrl.value) !in io.server
    ensures PreloadedAfter(io, d, prior) == Some(Placeholder)
  {
  }
}
