/**
 * The client's pet-profile service: the URL and content-type helpers of the
 * HTTP implementation, and the in-memory mock store used in debug builds.
 */
module ProfilesService {
  import opened Wrappers
  import opened Text
  import opened Web
  import opened Models

  // ---------------------------------------------------------------------------
  // URL helpers

  const Slash: set<char> := {'/'}

  predicate AllSlashes(s: string) {
    forall i :: 0 <= i < |s| ==> s[i] == '/'
  }

  /** BuildUrl: the base without its trailing '/'s, one '/', the endpoint without its leading '/'s. */
  function BuildUrl(baseUrl: string, endpoint: string): (url: string)
    ensures |url| <= |baseUrl| + 1 + |endpoint|
    ensures baseUrl == [] || baseUrl[|baseUrl| - 1] != '/' ==> baseUrl + "/" <= url
  {
    TrimEnd(baseUrl, Slash) + "/" + TrimStart(endpoint, Slash)
  }

  /**
   * Whatever run of '/' the base ends with and the endpoint starts with,
   * the two are joined by exactly one '/'.
   */
  lemma BuildUrlJoinsOnce(baseUrl: string, trailing: string, leading: string, endpoint: string)
    requires baseUrl == [] || baseUrl[|baseUrl| - 1] != '/'
    requires endpoint == [] || endpoint[0] != '/'
    requires AllSlashes(trailing) && AllSlashes(leading)
    ensures BuildUrl(baseUrl + trailing, leading + endpoint) == baseUrl + "/" + endpoint
  {
    TrimEndSlashes(baseUrl, trailing);
    TrimStartSlashes(leading, endpoint);
  }

  lemma {:induction false} TrimEndSlashes(s: string, trailing: string)
    requires s == [] || s[|s| - 1] != '/'
    requires AllSlashes(trailing)
    ensures TrimEnd(s + trailing, Slash) == s
    decreases |trailing|
  {
    if trailing == [] {
      assert s + trailing == s;
    } else {
      var t := s + trailing;
      assert t[..|t| - 1] == s + trailing[..|trailing| - 1];
      TrimEndSlashes(s, trailing[..|trailing| - 1]);
    }
  }

  lemma {:induction false} TrimStartSlashes(leading: string, s: string)
    requires s == [] || s[0] != '/'
    requires AllSlashes(leading)
    ensures TrimStart(leading + s, Slash) == s
    decreases |leading|
  {
    if leading == [] {
      assert leading + s == s;
    } else {
      assert (leading + s)[1..] == leading[1..] + s;
      TrimStartSlashes(leading[1..], s);
    }
  }

  /** A character lower-cased in the invariant culture, for ASCII letters. */
  function LowerChar(c: char): char {
    if 'A' <= c <= 'Z' then (c as int + 32) as char else c
  }

  /** ToLowerInvariant on ASCII letters; every other character is kept. */
  function LowerAscii(s: string): (r: string)
    ensures |r| == |s|
    ensures forall i :: 0 <= i < |s| ==> r[i] == LowerChar(s[i])
  {
    if s == [] then [] else [LowerChar(s[0])] + LowerAscii(s[1..])
  }

  /** The index of the last '.' in the file-name part of path (after its last '/'), if there is one. */
  function LastDotInName(path: string): (r: Option<nat>)
    ensures r.Some? ==> r.value < |path| && path[r.value] == '.'
    ensures r.Some? ==> forall i :: r.value < i < |path| ==> path[i] != '.' && path[i] != '/'
    ensures r.None? ==> forall i :: 0 <= i < |path| && path[i] == '.' ==> exists j :: i < j < |path| && path[j] == '/'
  {
    if path == [] then None
    else if path[|path| - 1] == '.' then Some(|path| - 1)
    else if path[|path| - 1] == '/' then None
    else
      var r := LastDotInName(path[..|path| - 1]);
      assert forall j :: 0 <= j < |path| - 1 ==> path[..|path| - 1][j] == path[j];
      r
  }

  /**
   * Path.GetExtension: the text from the last '.' of the file name on, or
   * the empty string when the name has no '.' or ends with it.
   */
  function GetExtension(path: string): (ext: string)
    ensures ext == [] || (2 <= |ext| <= |path| && ext[0] == '.' && ext == path[|path| - |ext|..])
    ensures forall i :: 0 < i < |ext| ==> ext[i] != '.' && ext[i] != '/'
    ensures ext == [] && path != [] && path[|path| - 1] != '.' ==>
      forall i :: 0 <= i < |path| && path[i] == '.' ==> exists j :: i < j < |path| && path[j] == '/'
  {
    match LastDotInName(path)
    case None => ""
    case Some(d) => if d == |path| - 1 then "" else path[d..]
  }

  /** The MIME types the upload recognises, by lower-case extension. */
  const ImageContentTypes: map<string, string> := map[
    ".jpg" := "image/jpeg", ".jpeg" := "image/jpeg", ".png" := "image/png",
    ".gif" := "image/gif", ".bmp" := "image/bmp", ".webp" := "image/webp"]

  const DefaultContentType: string := "application/octet-stream"

  /** The switch of GetContentTypeFromFileName over a lower-case extension: the table's entry or the generic type. */
  function ContentTypeOfExtension(ext: string): (contentType: string)
    ensures contentType == if ext in ImageContentTypes then ImageContentTypes[ext] else DefaultContentType
  {
    if ext == ".jpg" || ext == ".jpeg" then "image/jpeg"
    else if ext == ".png" then "image/png"
    else if ext == ".gif" then "image/gif"
    else if ext == ".bmp" then "image/bmp"
    else if ext == ".webp" then "image/webp"
    else DefaultContentType
  }

  /** GetContentTypeFromFileName: the MIME type of the lower-cased extension. */
  function GetContentTypeFromFileName(fileName: string): (contentType: string)
    ensures contentType == DefaultContentType || contentType in ImageContentTypes.Values
  {
    ContentTypeOfExtension(LowerAscii(GetExtension(fileName)))
  }

  /** Lower-casing a file name does not move its extension. */
  lemma {:induction false} LastDotIgnoresCase(path: string)
    ensures LastDotInName(LowerAscii(path)) == LastDotInName(path)
    decreases |path|
  {
    var low := LowerAscii(path);
    if path != [] {
      assert low[..|low| - 1] == LowerAscii(path[..|path| - 1]);
      LastDotIgnoresCase(path[..|path| - 1]);
    }
  }

  /** The extension of the lower-cased name is the lower-cased extension. */
  lemma ExtensionIgnoresCase(fileName: string)
    ensures GetExtension(LowerAscii(fileName)) == LowerAscii(GetExtension(fileName))
  {
    LastDotIgnoresCase(fileName);
    var low := LowerAscii(fileName);
    var ext := GetExtension(fileName);
    if ext != [] {
      assert GetExtension(low) == low[|low| - |ext|..];
    }
  }

  lemma LowerAsciiIdempotent(s: string)
    ensures LowerAscii(LowerAscii(s)) == LowerAscii(s)
  {
  }

  /** The content type does not depend on the case of the file name. */
  lemma ContentTypeIgnoresCase(fileName: string)
    ensures GetContentTypeFromFileName(LowerAscii(fileName)) == GetContentTypeFromFileName(fileName)
  {
    ExtensionIgnoresCase(fileName);
    LowerAsciiIdempotent(GetExtension(fileName));
    assert LowerAscii(GetExtension(LowerAscii(fileName))) == LowerAscii(GetExtension(fileName));
  }

  /** An upper-case extension is recognised. */
  lemma UpperCaseExtensionExample()
    ensures GetContentTypeFromFileName("Rex.JPEG") == "image/jpeg"
  {
    var f := "Rex.JPEG";
    assert LastDotInName("Rex.") == Some(3);
    assert "Rex.J"[..4] == "Rex.";
    assert LastDotInName("Rex.J") == Some(3);
    assert "Rex.JP"[..5] == "Rex.J";
    assert LastDotInName("Rex.JP") == Some(3);
    assert "Rex.JPE"[..6] == "Rex.JP";
    assert LastDotInName("Rex.JPE") == Some(3);
    assert f[..7] == "Rex.JPE";
    assert GetExtension(f) == ".JPEG";
    assert LowerAscii(".JPEG") == ".jpeg";
  }

  /** Only the last dot counts: a known type followed by another extension is not an image. */
  lemma LastExtensionExample()
    ensures GetContentTypeFromFileName("rex.png.txt") == DefaultContentType
  {
    var f := "rex.png.txt";
    assert LastDotInName("rex.png.") == Some(7);
    assert "rex.png.t"[..8] == "rex.png.";
    assert LastDotInName("rex.png.t") == Some(7);
    assert "rex.png.tx"[..9] == "rex.png.t";
    assert LastDotInName("rex.png.tx") == Some(7);
    assert f[..10] == "rex.png.tx";
    assert GetExtension(f) == ".txt";
    assert LowerAscii(".txt") == ".txt";
  }

  /** GetImageUrlFromFileName: nothing for a missing name, otherwise the API's image endpoint for that name. */
  function GetImageUrlFromFileName(fileName: Option<string>): (url: string)
    ensures url == "" <==> IsNullOrEmpty(fileName)
    ensures !IsNullOrEmpty(fileName) ==> url == BaseUrl + "/Images/" + fileName.value
  {
    if IsNullOrEmpty(fileName) then ""
    else
      ImageEndpointJoin(fileName.value);
      BuildUrl(BaseUrl, "Images/" + fileName.value)
  }

  lemma ImageEndpointJoin(name: string)
    ensures BuildUrl(BaseUrl, "Images/" + name) == BaseUrl + "/Images/" + name
  {
    var endpoint := "Images/" + name;
    assert BaseUrl[|BaseUrl| - 1] == 'i';
    assert endpoint[0] == 'I';
    BuildUrlJoinsOnce(BaseUrl, "", "", endpoint);
    assert BaseUrl + "" == BaseUrl;
    assert "" + endpoint == endpoint;
    assert BaseUrl + "/" + endpoint == BaseUrl + "/Images/" + name;
  }

  /** Every image URL built from a name lies under the API's image endpoint. */
  lemma ImageUrlIsApiImage(fileName: string)
    requires fileName != ""
    ensures Contains(GetImageUrlFromFileName(Some(fileName)), "/api/Images/")
  {
    var url := GetImageUrlFromFileName(Some(fileName));
    assert url == "https://localhost:7027" + ("/api/Images/" + fileName);
    ContainsPrefix("/api/Images/", fileName);
    ContainsInSuffix("https://localhost:7027", "/api/Images/" + fileName, "/api/Images/");
  }

  // ---------------------------------------------------------------------------
  // The mock store

  /** The copy the mock hands out and keeps: the five copied properties, with the timestamps left at default. */
  function Clone(p: ProfileData): (c: ProfileData)
    ensures c.id == p.id && c.name == p.name && c.breed == p.breed && c.age == p.age && c.imageUrl == p.imageUrl
    ensures c.createdAt == 0 && c.updatedAt == 0
  {
    p.(createdAt := 0, updatedAt := 0)
  }

  /** FirstOrDefault(p => p.Id == id), as a position. */
  function IndexOfId(pets: seq<ProfileData>, id: int): (r: Option<nat>)
    ensures r.Some? ==> r.value < |pets| && pets[r.value].id == id
    ensures r.Some? ==> forall k :: 0 <= k < r.value ==> pets[k].id != id
    ensures r.None? ==> forall k :: 0 <= k < |pets| ==> pets[k].id != id
  {
    if pets == [] then None
    else if pets[0].id == id then Some(0)
    else match IndexOfId(pets[1..], id)
      case None => None
      case Some(k) => Some(k + 1)
  }

  predicate UniqueIds(pets: seq<ProfileData>) {
    forall i, j :: 0 <= i < j < |pets| ==> pets[i].id != pets[j].id
  }

  /** The store after UpdatePetProfileAsync(p): the pet with p's id takes p's name, breed, age and image. */
  function WithUpdate(pets: seq<ProfileData>, p: ProfileData): seq<ProfileData> {
    match IndexOfId(pets, p.id)
    case None => pets
    case Some(i) => pets[i := pets[i].(name := p.name, breed := p.breed, age := p.age, imageUrl := p.imageUrl)]
  }

  /** The store after DeletePetProfileAsync(id): the pet with that id is gone. */
  function WithoutId(pets: seq<ProfileData>, id: int): seq<ProfileData> {
    match IndexOfId(pets, id)
    case None => pets
    case Some(i) => pets[..i] + pets[i + 1..]
  }

  /** The store after UpdatePetProfileImageAsync(id, name): the pet with that id refers to the new file. */
  function WithImage(pets: seq<ProfileData>, id: int, imageFileName: string): seq<ProfileData> {
    match IndexOfId(pets, id)
    case None => pets
    case Some(i) => pets[i := pets[i].(imageUrl := Some(imageFileName))]
  }

  /** With distinct ids, every stored pet is found at its own position. */
  lemma IndexOfIdFinds(pets: seq<ProfileData>, k: nat)
    requires UniqueIds(pets) && k < |pets|
    ensures IndexOfId(pets, pets[k].id) == Some(k)
  {
  }

  /** An update reaches exactly the pet with that id, keeps its id and timestamps, and leaves the others alone. */
  lemma UpdateExact(pets: seq<ProfileData>, p: ProfileData)
    requires UniqueIds(pets)
    ensures |WithUpdate(pets, p)| == |pets| && UniqueIds(WithUpdate(pets, p))
    ensures forall k :: 0 <= k < |pets| && pets[k].id != p.id ==> WithUpdate(pets, p)[k] == pets[k]
    ensures forall k :: 0 <= k < |pets| && pets[k].id == p.id ==>
      WithUpdate(pets, p)[k] == p.(createdAt := pets[k].createdAt, updatedAt := pets[k].updatedAt)
  {
  }

  /** A delete removes exactly the pets with that id and keeps the others in their order. */
  lemma DeleteExact(pets: seq<ProfileData>, id: int)
    requires UniqueIds(pets)
    ensures UniqueIds(WithoutId(pets, id))
    ensures forall q :: q in WithoutId(pets, id) <==> q in pets && q.id != id
    ensures IndexOfId(WithoutId(pets, id), id) == None
  {
    var r := IndexOfId(pets, id);
    if r.Some? {
      RemoveAt(pets, r.value);
    }
  }

  /** Removing the pet at position i keeps the ids distinct and keeps exactly the pets with other ids. */
  lemma RemoveAt(pets: seq<ProfileData>, i: nat)
    requires i < |pets| && UniqueIds(pets)
    ensures UniqueIds(pets[..i] + pets[i + 1..])
    ensures forall q :: q in pets[..i] + pets[i + 1..] <==> q in pets && q.id != pets[i].id
  {
    var w := pets[..i] + pets[i + 1..];
    assert forall k :: 0 <= k < |w| ==> w[k] == pets[if k < i then k else k + 1];
    forall q | q in pets && q.id != pets[i].id
      ensures q in w
    {
      var k :| 0 <= k < |pets| && pets[k] == q;
      if k < i {
        assert w[k] == q;
      } else {
        assert w[k - 1] == q;
      }
    }
  }

  class MockPetProfilesService {
    var pets: seq<ProfileData>
    var nextId: int

    /** Ids are distinct and below the next id to hand out, and every stored pet is a clone. */
    ghost predicate Valid()
      reads this
    {
      UniqueIds(pets)
      && (forall i :: 0 <= i < |pets| ==> pets[i].id < nextId)
      && (forall i :: 0 <= i < |pets| ==> Clone(pets[i]) == pets[i])
    }

    /** The store seeded with Fido and Whiskers, and the next id 3. */
    constructor()
      ensures Valid()
      ensures pets == [ProfileData(1, "Fido", "Labrador", 3, None, 0, 0),
                       ProfileData(2, "Whiskers", "Tabby", 2, None, 0, 0)]
      ensures nextId == 3
    {
      pets := [ProfileData(1, "Fido", "Labrador", 3, None, 0, 0),
               ProfileData(2, "Whiskers", "Tabby", 2, None, 0, 0)];
      nextId := 3;
    }

    /** GetPetProfilesAsync: a clone of every pet, in store order. */
    method GetPetProfiles() returns (r: seq<ProfileData>)
      requires Valid()
      ensures r == pets
    {
      r := [];
      var i := 0;
      while i < |pets|
        invariant 0 <= i <= |pets|
        invariant r == pets[..i]
      {
        r := r + [Clone(pets[i])];
        i := i + 1;
      }
    }

    /** GetPetProfileAsync: a clone of the pet with that id, or null. */
    method GetPetProfile(id: int) returns (r: Option<ProfileData>)
      requires Valid()
      ensures r.Some? <==> exists k :: 0 <= k < |pets| && pets[k].id == id
      ensures r.Some? ==> r.value in pets && r.value.id == id
    {
      var i := IndexOfId(pets, id);
      if i.None? {
        return None;
      }
      return Some(Clone(pets[i.value]));
    }

    /** CreatePetProfileAsync: a clone of the input under the next id, appended. */
    method CreatePetProfile(petProfile: ProfileData) returns (r: ProfileData)
      requires Valid()
      modifies this
      ensures Valid()
      ensures r == Clone(petProfile).(id := old(nextId))
      ensures pets == old(pets) + [r] && nextId == old(nextId) + 1
    {
      var newPet := Clone(petProfile).(id := nextId);
      nextId := nextId + 1;
      pets := pets + [newPet];
      r := Clone(newPet);
    }

    /** UpdatePetProfileAsync: false for an unknown id; otherwise the four editable properties are copied. */
    method UpdatePetProfile(petProfile: ProfileData) returns (ok: bool)
      requires Valid()
      modifies this
      ensures Valid()
      ensures ok <==> exists k :: 0 <= k < |old(pets)| && old(pets)[k].id == petProfile.id
      ensures pets == WithUpdate(old(pets), petProfile) && nextId == old(nextId)
    {
      var i := IndexOfId(pets, petProfile.id);
      if i.None? {
        return false;
      }
      var k := i.value;
      pets := pets[k := pets[k].(name := petProfile.name, breed := petProfile.breed,
                                age := petProfile.age, imageUrl := petProfile.imageUrl)];
      return true;
    }

    /** DeletePetProfileAsync: false for an unknown id; otherwise that pet is removed. */
    method DeletePetProfile(id: int) returns (ok: bool)
      requires Valid()
      modifies this
      ensures Valid()
      ensures ok <==> exists k :: 0 <= k < |old(pets)| && old(pets)[k].id == id
      ensures pets == WithoutId(old(pets), id) && nextId == old(nextId)
    {
      var i := IndexOfId(pets, id);
      if i.None? {
        return false;
      }
      var k := i.value;
      DeleteExact(pets, id);
      pets := pets[..k] + pets[k + 1..];
      return true;
    }

    /** CreatePetProfileWithImageAsync: a new pet under the next id that refers to the image file name. */
    method CreatePetProfileWithImage(name: string, breed: string, age: int, imageFileName: Option<string>)
      returns (r: ProfileData)
      requires Valid()
      modifies this
      ensures Valid()
      ensures r == ProfileData(old(nextId), name, breed, age, imageFileName, 0, 0)
      ensures pets == old(pets) + [r] && nextId == old(nextId) + 1
    {
      var newPet := ProfileData(nextId, name, breed, age, imageFileName, 0, 0);
      nextId := nextId + 1;
      pets := pets + [newPet];
      r := Clone(newPet);
    }

    /** UpdatePetProfileImageAsync: null for an unknown id; otherwise only the image reference changes. */
    method UpdatePetProfileImage(id: int, imageFileName: string) returns (r: Option<ProfileData>)
      requires Valid()
      modifies this
      ensures Valid()
      ensures r.Some? <==> exists k :: 0 <= k < |old(pets)| && old(pets)[k].id == id
      ensures pets == WithImage(old(pets), id, imageFileName) && nextId == old(nextId)
      ensures r.Some? ==> r.value in pets && r.value.id == id && r.value.imageUrl == Some(imageFileName)
    {
      var i := IndexOfId(pets, id);
      if i.None? {
        return None;
      }
      var k := i.value;
      pets := pets[k := pets[k].(imageUrl := Some(imageFileName))];
      return Some(Clone(pets[k]));
    }
  }
}
