/**
 * PetProfileCacheService: the client's offline copy of the profile list.
 * Each profile is a JSON file profile_{id}.json in the profile directory,
 * its image a file in the image directory, and cache_metadata.json records
 * the ids of the last cached list in order. Every failure is caught and
 * logged; none reaches the caller.
 */
module ProfileCache {
  import opened Wrappers
  import opened Clock
  import opened Text
  import opened Models
  import opened CacheFiles

  const MetadataFile: string := "cache_metadata.json"

  /** The file holding the profile with this id. */
  function ProfileFileName(id: int): string {
    "profile_" + IntToString(id) + ".json"
  }

  /** Different ids use different files. */
  lemma ProfileFileNameInjective(a: int, b: int)
    requires ProfileFileName(a) == ProfileFileName(b)
    ensures a == b
  {
    var fa := ProfileFileName(a);
    var sa := IntToString(a);
    var sb := IntToString(b);
    assert |sa| == |sb|;
    assert sa == fa[8..8 + |sa|];
    assert sb == ProfileFileName(b)[8..8 + |sb|];
    IntToStringInjective(a, b);
  }

  /** No profile file is the metadata file. */
  lemma ProfileFileIsNotMetadata(id: int)
    ensures ProfileFileName(id) != MetadataFile
  {
    assert ProfileFileName(id)[0] == 'p';
    assert MetadataFile[0] == 'c';
  }

  /** A profile as GetCachedProfileAsync returns it: its properties and the cached image it was given. */
  datatype LoadedProfile = LoadedProfile(data: ProfileData, preloadedImage: Option<ImageSource>)

  /** The image GetCachedProfileAsync attaches: the cached file of ImageUrl, when there is one. */
  function AttachedImage(imageDir: map<string, Bytes>, p: ProfileData): (image: Option<ImageSource>)
    ensures image.Some? <==> HasImageUrl(p) && p.imageUrl.value in imageDir
    ensures image.Some? ==> image.value == ImageCacheFile(p.imageUrl.value)
  {
    if HasImageUrl(p) && p.imageUrl.value in imageDir then Some(ImageCacheFile(p.imageUrl.value)) else None
  }

  /** GetCachedProfileAsync(id): null when the file is missing or does not hold a profile. */
  function LoadProfile(profileDir: map<string, JsonDoc>, imageDir: map<string, Bytes>, id: int): (r: Option<LoadedProfile>)
    ensures r.Some? <==> ProfileFileName(id) in profileDir && profileDir[ProfileFileName(id)].ProfileJson?
    ensures r.Some? ==> r.value.data == profileDir[ProfileFileName(id)].profile
    ensures r.Some? ==> r.value.preloadedImage == AttachedImage(imageDir, r.value.data)
  {
    var file := ProfileFileName(id);
    if file in profileDir && profileDir[file].ProfileJson? then
      var p := profileDir[file].profile;
      Some(LoadedProfile(p, AttachedImage(imageDir, p)))
    else None
  }

  /** The profiles of ids that load, in the order of ids. */
  function LoadProfiles(profileDir: map<string, JsonDoc>, imageDir: map<string, Bytes>, ids: seq<int>): seq<LoadedProfile> {
    if ids == [] then []
    else
      var before := LoadProfiles(profileDir, imageDir, ids[..|ids| - 1]);
      match LoadProfile(profileDir, imageDir, ids[|ids| - 1])
      case None => before
      case Some(p) => before + [p]
  }

  /** The ids the metadata file lists; none when it is missing or cannot be read. */
  function StoredIds(profileDir: map<string, JsonDoc>): seq<int> {
    if MetadataFile in profileDir && profileDir[MetadataFile].MetadataJson?
    then profileDir[MetadataFile].metadata.profileIds
    else []
  }

  /** What GetCachedProfilesAsync returns for the current directories. */
  function CachedProfiles(profileDir: map<string, JsonDoc>, imageDir: map<string, Bytes>): seq<LoadedProfile> {
    LoadProfiles(profileDir, imageDir, StoredIds(profileDir))
  }

  /** The profile directory after CacheProfileDataAsync: the record under its id's file, unless the write fails. */
  function ProfileWritten(profileDir: map<string, JsonDoc>, io: Io, d: ProfileData): map<string, JsonDoc> {
    var file := ProfileFileName(d.id);
    if file in io.unwritableProfileFiles then profileDir else profileDir[file := ProfileJson(d)]
  }

  function ProfilesWritten(profileDir: map<string, JsonDoc>, io: Io, ds: seq<ProfileData>): map<string, JsonDoc> {
    if ds == [] then profileDir
    else ProfileWritten(ProfilesWritten(profileDir, io, ds[..|ds| - 1]), io, ds[|ds| - 1])
  }

  function Ids(ds: seq<ProfileData>): (ids: seq<int>)
    ensures |ids| == |ds| && forall k :: 0 <= k < |ds| ==> ids[k] == ds[k].id
  {
    if ds == [] then [] else Ids(ds[..|ds| - 1]) + [ds[|ds| - 1].id]
  }

  /** The profile directory after SaveCacheMetadataAsync, unless the write fails. */
  function MetadataWritten(profileDir: map<string, JsonDoc>, io: Io, now: DateTime, ids: seq<int>): map<string, JsonDoc> {
    if MetadataFile in io.unwritableProfileFiles then profileDir
    else profileDir[MetadataFile := MetadataJson(CacheMetadata(now, ids))]
  }

  class PetProfileCacheService {
    const store: FileStore

    constructor(store: FileStore)
      ensures this.store == store
    {
      this.store := store;
    }

    /**
     * CacheProfilesAsync: preload the image of each profile that has one and
     * attach it, write each profile's file, then record the ids.
     */
    method CacheProfiles(profiles: seq<PetProfile>, io: Io, now: DateTime)
      modifies store`profileDir, store`imageDir, profiles`preloadedImage
      ensures store.profileDir ==
        MetadataWritten(ProfilesWritten(old(store.profileDir), io, old(DataOf(profiles))), io, now, Ids(old(DataOf(profiles))))
      ensures store.imageDir == ImagesWritten(old(store.imageDir), io, old(DataOf(profiles)))
      ensures forall k :: 0 <= k < |profiles| ==>
        profiles[k].preloadedImage == PreloadedAfter(io, profiles[k].Data(), old(profiles[k].preloadedImage))
    {
      ghost var ds := DataOf(profiles);
      CacheEach(profiles, io);
      DataOfIs(profiles, ds);
      SaveCacheMetadata(profiles, io, now);
    }

    /** The per-profile part of CacheProfilesAsync, one profile after another. */
    method CacheEach(profiles: seq<PetProfile>, io: Io)
      modifies store`profileDir, store`imageDir, profiles`preloadedImage
      ensures forall k :: 0 <= k < |profiles| ==> profiles[k].Data() == old(profiles[k].Data())
      ensures store.profileDir == ProfilesWritten(old(store.profileDir), io, old(DataOf(profiles)))
      ensures store.imageDir == ImagesWritten(old(store.imageDir), io, old(DataOf(profiles)))
      ensures forall k :: 0 <= k < |profiles| ==>
        profiles[k].preloadedImage == PreloadedAfter(io, profiles[k].Data(), old(profiles[k].preloadedImage))
    {
      ghost var ds := DataOf(profiles);
      ghost var prior := Preloads(profiles);
      ghost var profileDir0, imageDir0 := store.profileDir, store.imageDir;
      var i := 0;
      while i < |profiles|
        invariant 0 <= i <= |profiles|
        invariant forall k :: 0 <= k < |profiles| ==> profiles[k].Data() == ds[k]
        invariant store.profileDir == ProfilesWritten(profileDir0, io, ds[..i])
        invariant store.imageDir == ImagesWritten(imageDir0, io, ds[..i])
        invariant PreloadedUpTo(profiles, ds, io, prior, i)
      {
        ghost var profileDir, imageDir := store.profileDir, store.imageDir;
        CacheProfileAt(profiles, i, io, ds, prior);
        ProfilesWrittenStep(profileDir0, io, ds, i, profileDir, store.profileDir);
        ImagesWrittenStep(imageDir0, io, ds, i, imageDir, store.imageDir);
        i := i + 1;
      }
      assert ds[..i] == ds;
    }

    /** CacheProfile on profiles[i], seen from the whole list: PreloadedUpTo advances by one. */
    method CacheProfileAt(profiles: seq<PetProfile>, i: nat, io: Io, ghost ds: seq<ProfileData>,
                          ghost prior: seq<Option<ImageSource>>)
      requires i < |profiles| && PreloadedUpTo(profiles, ds, io, prior, i)
      requires forall k :: 0 <= k < |profiles| ==> profiles[k].Data() == ds[k]
      modifies store`profileDir, store`imageDir, profiles`preloadedImage
      ensures forall k :: 0 <= k < |profiles| ==> profiles[k].Data() == ds[k]
      ensures store.profileDir == ProfileWritten(old(store.profileDir), io, ds[i])
      ensures store.imageDir == if HasImageUrl(ds[i]) then ImageWritten(old(store.imageDir), io, ds[i].imageUrl.value)
                                else old(store.imageDir)
      ensures PreloadedUpTo(profiles, ds, io, prior, i + 1)
    {
      ghost var before := Preloads(profiles);
      var profile := profiles[i];
      CacheProfile(profile, io);
      ghost var after := Preloads(profiles);
      forall k | 0 <= k < |profiles|
        ensures after[k] == before[k] || after[k] == PreloadedAfter(io, ds[k], before[k])
      {
        if profiles[k] == profile {
          assert profiles[k].Data() == profile.Data();
        }
      }
      VisitStep(before, after, ds, io, prior, i);
    }

    /** The work CacheProfilesAsync does for one profile: its image when it has one, then its file. */
    method CacheProfile(profile: PetProfile, io: Io)
      modifies store`profileDir, store`imageDir, profile`preloadedImage
      ensures profile.Data() == old(profile.Data())
      ensures store.profileDir == ProfileWritten(old(store.profileDir), io, profile.Data())
      ensures store.imageDir == if HasImageUrl(profile.Data()) then ImageWritten(old(store.imageDir), io, profile.imageUrl.value)
                                else old(store.imageDir)
      ensures profile.preloadedImage == PreloadedAfter(io, profile.Data(), old(profile.preloadedImage))
    {
      if !IsNullOrEmpty(profile.imageUrl) {
        var image := PreloadAndCacheImage(store, io, profile.imageUrl.value);
        profile.preloadedImage := Some(image);
      }
      CacheProfileData(profile, io);
    }

    /** CacheProfileDataAsync: a failed write is caught and leaves the directory as it was. */
    method CacheProfileData(profile: PetProfile, io: Io)
      modifies store`profileDir
      ensures store.profileDir == ProfileWritten(old(store.profileDir), io, profile.Data())
    {
      var file := ProfileFileName(profile.id);
      if file !in io.unwritableProfileFiles {
        store.profileDir := store.profileDir[file := ProfileJson(profile.Data())];
      }
    }

    /** SaveCacheMetadataAsync: the ids of profiles in their order replace the previous list. */
    method SaveCacheMetadata(profiles: seq<PetProfile>, io: Io, now: DateTime)
      modifies store`profileDir
      ensures store.profileDir == MetadataWritten(old(store.profileDir), io, now, Ids(old(DataOf(profiles))))
    {
      var ids := Ids(DataOf(profiles));
      if MetadataFile !in io.unwritableProfileFiles {
        store.profileDir := store.profileDir[MetadataFile := MetadataJson(CacheMetadata(now, ids))];
      }
    }

    /** GetCachedProfilesAsync: the profiles the metadata lists, in its order, skipping those that fail to load. */
    method GetCachedProfiles() returns (profiles: seq<LoadedProfile>)
      ensures profiles == CachedProfiles(store.profileDir, store.imageDir)
    {
      var has := HasCachedProfiles();
      if !has {
        return [];
      }
      var ids := StoredIds(store.profileDir);
      if |ids| == 0 {
        return [];
      }
      profiles := [];
      var i := 0;
      while i < |ids|
        invariant 0 <= i <= |ids|
        invariant profiles == LoadProfiles(store.profileDir, store.imageDir, ids[..i])
      {
        assert ids[..i + 1][..i] == ids[..i];
        var profile := GetCachedProfile(ids[i]);
        if profile.Some? {
          profiles := profiles + [profile.value];
        }
        i := i + 1;
      }
      assert ids[..i] == ids;
    }

    /** GetCachedProfileAsync */
    method GetCachedProfile(id: int) returns (profile: Option<LoadedProfile>)
      ensures profile == LoadProfile(store.profileDir, store.imageDir, id)
    {
      var file := ProfileFileName(id);
      if file !in store.profileDir || !store.profileDir[file].ProfileJson? {
        return None;
      }
      var data := store.profileDir[file].profile;
      var image: Option<ImageSource> := None;
      if !IsNullOrEmpty(data.imageUrl) && data.imageUrl.value in store.imageDir {
        image := Some(ImageCacheFile(data.imageUrl.value));
      }
      return Some(LoadedProfile(data, image));
    }

    /** InvalidateCacheAsync: both directories are deleted and created again, empty. */
    method InvalidateCache()
      modifies store`profileDir, store`imageDir
      ensures store.profileDir == map[] && store.imageDir == map[]
    {
      store.profileDir := map[];
      store.imageDir := map[];
    }

    /** HasCachedProfilesAsync: whether the metadata file exists, whatever the profile files. */
    method HasCachedProfiles() returns (has: bool)
      ensures has <==> MetadataFile in store.profileDir
    {
      return MetadataFile in store.profileDir;
    }
  }

  // ---------------------------------------------------------------------------
  // Properties

  /** Without a readable metadata file, or with an empty id list, nothing is returned. */
  lemma NoMetadataNoProfiles(profileDir: map<string, JsonDoc>, imageDir: map<string, Bytes>)
    requires MetadataFile !in profileDir || !profileDir[MetadataFile].MetadataJson?
             || profileDir[MetadataFile].metadata.profileIds == []
    ensures CachedProfiles(profileDir, imageDir) == []
  {
  }

  /** Loading follows the id list: loading a concatenation concatenates the loaded profiles. */
  lemma {:induction false} LoadProfilesAppend(profileDir: map<string, JsonDoc>, imageDir: map<string, Bytes>, a: seq<int>, b: seq<int>)
    ensures LoadProfiles(profileDir, imageDir, a + b) == LoadProfiles(profileDir, imageDir, a) + LoadProfiles(profileDir, imageDir, b)
    decreases |b|
  {
    if b == [] {
      assert a + b == a;
    } else {
      assert (a + b)[..|a + b| - 1] == a + b[..|b| - 1];
      LoadProfilesAppend(profileDir, imageDir, a, b[..|b| - 1]);
    }
  }

  /** An id whose file is missing or unreadable is skipped without affecting the others. */
  lemma SkipsUnloadable(profileDir: map<string, JsonDoc>, imageDir: map<string, Bytes>, a: seq<int>, id: int, b: seq<int>)
    requires LoadProfile(profileDir, imageDir, id).None?
    ensures LoadProfiles(profileDir, imageDir, a + [id] + b) == LoadProfiles(profileDir, imageDir, a + b)
  {
    LoadProfilesAppend(profileDir, imageDir, a + [id], b);
    LoadProfilesAppend(profileDir, imageDir, a, b);
    assert (a + [id])[..|a + [id]| - 1] == a;
  }

  /** Caching records the ids of the whole input in order, whatever happened to the individual profiles. */
  lemma MetadataListsInput(profileDir: map<string, JsonDoc>, io: Io, now: DateTime, ds: seq<ProfileData>)
    requires MetadataFile !in io.unwritableProfileFiles
    ensures var after := MetadataWritten(ProfilesWritten(profileDir, io, ds), io, now, Ids(ds));
      MetadataFile in after && StoredIds(after) == Ids(ds)
  {
  }

  /** With distinct ids and working writes, each profile's file holds that profile after caching. */
  lemma {:induction false} ProfilesWrittenHolds(profileDir: map<string, JsonDoc>, io: Io, ds: seq<ProfileData>, k: nat)
    requires k < |ds|
    requires forall i, j :: 0 <= i < j < |ds| ==> ds[i].id != ds[j].id
    requires forall i :: 0 <= i < |ds| ==> ProfileFileName(ds[i].id) !in io.unwritableProfileFiles
    ensures ProfileFileName(ds[k].id) in ProfilesWritten(profileDir, io, ds)
    ensures ProfilesWritten(profileDir, io, ds)[ProfileFileName(ds[k].id)] == ProfileJson(ds[k])
  {
    var init := ds[..|ds| - 1];
    var last := ds[|ds| - 1];
    if k < |ds| - 1 {
      ProfilesWrittenHolds(profileDir, io, init, k);
      assert init[k] == ds[k];
      if ProfileFileName(last.id) == ProfileFileName(ds[k].id) {
        ProfileFileNameInjective(last.id, ds[k].id);
      }
    }
  }

  /** The property values of loaded profiles. */
  function LoadedData(ls: seq<LoadedProfile>): (ds: seq<ProfileData>)
    ensures |ds| == |ls| && forall k :: 0 <= k < |ls| ==> ds[k] == ls[k].data
  {
    if ls == [] then [] else LoadedData(ls[..|ls| - 1]) + [ls[|ls| - 1].data]
  }

  /**
   * Round trip: when every write succeeds and the ids are distinct, reading
   * the cache back yields the cached profiles in order, and each profile
   * whose image was fetched comes back with the same cached image.
   */
  lemma CacheThenRead(profileDir: map<string, JsonDoc>, imageDir: map<string, Bytes>, io: Io, now: DateTime,
                      ds: seq<ProfileData>)
    requires forall i, j :: 0 <= i < j < |ds| ==> ds[i].id != ds[j].id
    requires forall i :: 0 <= i < |ds| ==> ProfileFileName(ds[i].id) !in io.unwritableProfileFiles
    requires MetadataFile !in io.unwritableProfileFiles
    ensures var pDir := MetadataWritten(ProfilesWritten(profileDir, io, ds), io, now, Ids(ds));
            var iDir := ImagesWritten(imageDir, io, ds);
            var loaded := CachedProfiles(pDir, iDir);
            LoadedData(loaded) == ds
            && forall k :: 0 <= k < |ds| && HasImageUrl(ds[k]) && FetchedImage(io, ds[k].imageUrl.value).Some? ==>
                 loaded[k].preloadedImage == Some(PreloadedImageSource(io, ds[k].imageUrl.value))
  {
    var pDir := MetadataWritten(ProfilesWritten(profileDir, io, ds), io, now, Ids(ds));
    var iDir := ImagesWritten(imageDir, io, ds);
    forall k | 0 <= k < |ds|
      ensures LoadProfile(pDir, iDir, ds[k].id) == Some(LoadedProfile(ds[k], AttachedImage(iDir, ds[k])))
    {
      ProfilesWrittenHolds(profileDir, io, ds, k);
      ProfileFileIsNotMetadata(ds[k].id);
    }
    LoadAllPresent(pDir, iDir, ds);
    assert LoadedData(WithAttachedImages(iDir, ds)) == ds;
    forall k | 0 <= k < |ds| && HasImageUrl(ds[k]) && FetchedImage(io, ds[k].imageUrl.value).Some?
      ensures AttachedImage(iDir, ds[k]) == Some(PreloadedImageSource(io, ds[k].imageUrl.value))
    {
      ImagesWrittenHolds(imageDir, io, ds, k);
    }
  }

  /** Each profile with the cached image GetCachedProfileAsync would attach to it. */
  function WithAttachedImages(iDir: map<string, Bytes>, ds: seq<ProfileData>): (ls: seq<LoadedProfile>)
    ensures |ls| == |ds|
    ensures forall k :: 0 <= k < |ds| ==> ls[k] == LoadedProfile(ds[k], AttachedImage(iDir, ds[k]))
  {
    if ds == [] then [] else WithAttachedImages(iDir, ds[..|ds| - 1]) + [LoadedProfile(ds[|ds| - 1], AttachedImage(iDir, ds[|ds| - 1]))]
  }

  /** When every listed profile loads, the loaded list is exactly those profiles. */
  lemma {:induction false} LoadAllPresent(pDir: map<string, JsonDoc>, iDir: map<string, Bytes>, ds: seq<ProfileData>)
    requires forall k :: 0 <= k < |ds| ==>
      LoadProfile(pDir, iDir, ds[k].id) == Some(LoadedProfile(ds[k], AttachedImage(iDir, ds[k])))
    ensures LoadProfiles(pDir, iDir, Ids(ds)) == WithAttachedImages(iDir, ds)
  {
    if ds != [] {
      var init := ds[..|ds| - 1];
      assert Ids(ds)[..|ds| - 1] == Ids(init);
      LoadAllPresent(pDir, iDir, init);
      assert WithAttachedImages(iDir, ds)[..|ds| - 1] == WithAttachedImages(iDir, init);
    }
  }

  /** ProfilesWritten over one more profile writes that profile last. */
  lemma ProfilesWrittenStep(profileDir: map<string, JsonDoc>, io: Io, ds: seq<ProfileData>, i: nat,
                            before: map<string, JsonDoc>, after: map<string, JsonDoc>)
    requires i < |ds|
    requires before == ProfilesWritten(profileDir, io, ds[..i])
    requires after == ProfileWritten(before, io, ds[i])
    ensures after == ProfilesWritten(profileDir, io, ds[..i + 1])
  {
    assert ds[..i + 1][..i] == ds[..i];
  }
}
