# PetProfiles in Dafny

This project models the core of PetProfiles. PetProfiles is an ASP.NET Core API that stores pet profiles (name, breed, age, image), plus a .NET MAUI client that lists, creates, edits and deletes them. The model covers these parts of the two programs:

- **API** (`PetProfiles.Api`):
  - the in-memory time-to-live cache `LocalCacheService`: typed reads that evict an expired entry, add-or-overwrite writes with a ten-minute default lifetime, removal by key and by wildcard pattern, and the periodic sweep of expired entries;
  - the cache key scheme `CacheKeys`;
  - the `ApiResponse` envelope factories.
- **Client service and validation**:
  - the URL and content-type helpers of `PetProfilesService`;
  - its in-memory mock store (seeded with Fido and Whiskers, with clone-on-read);
  - the three field validators of `ValidationService`.
- **Client caches**:
  - the on-disk profile cache `PetProfileCacheService`: profile JSON files, a metadata file listing the cached ids in order, and downloaded images, resized when over 1 MB;
  - `ImagePreloadService`, which downloads every profile's image into the same image directory and attaches the result to the profile.
- **Converters**: `ImageSourceConverter` turns a binding value into an image and memoises the result for an hour; `InverseBoolConverter` negates a bool.
- **View models and the observable profile**:
  - the observable `PetProfile` model;
  - `BaseViewModel`, whose dispose pattern runs `OnDispose` at most once;
  - `AddPetProfilePopupViewModel`: live validation of the form fields, `HasErrors`, the image selection, building the save result, cancel and dispose.

## How the model is organised

There is one Dafny module per core source file:

| Module | Source |
|---|---|
| `ServerCache` | `LocalCacheService` |
| `CacheKeys` | `CacheKeys` |
| `ApiResponses` | `ApiResponse` |
| `ProfilesService` | `PetProfilesService` and its mock |
| `Validation` | `ValidationService` |
| `ProfileCache` | `PetProfileCacheService` |
| `ImagePreload` | `ImagePreloadService` |
| `Converters` | both converters |
| `Models` | `PetProfile` |
| `ViewModelBase` | `BaseViewModel` |
| `PopupViewModel` | `AddPetProfilePopupViewModel` |

A few shared modules support them:

- `Wrappers`: `Option`.
- `Clock`: `DateTime` and `TimeSpan` as ticks. `DateTime.Add` outside the representable range is `None`.
- `Text`: the .NET string operations the code calls, such as `Trim`, `Contains`, `Replace`, `int.ToString` and `int.TryParse`.
- `Web`: the configured base URL and `Uri.IsWellFormedUriString`.
- `Notify`: the `SetProperty` event rule.
- `CacheFiles`: the on-disk store shared by both client caches, and the image download-and-store pipeline.

### How state is modelled

- Objects whose fields the source updates in place are classes whose methods say what they modify:
  - the server cache;
  - the mock store;
  - the file store;
  - each client service;
  - the converter's memo;
  - `PetProfile`;
  - the view models.
- Each state-changing method is proved against a specification function of the old state, such as `Lookup`/`AfterLookup`, `WithoutMatching`, `ImagesWritten`, `Converted` or `ValidateAndCreateResult`. The properties the code promises are lemmas about those functions.

### What the model takes as parameters

These are inputs to the model, not behaviour it computes:

- **The clock:** the time `now`.
- **The I/O environment (`CacheFiles.Io`):**
  - the bytes the server serves for each URL (a URL it does not serve means the download failed);
  - the image resizer, as an opaque function;
  - the file names whose writes fail.
- **PropertyChanged:** events are recorded as a list of property names. For `SaveCompleted`, the results raised are recorded; for `CancelRequested`, the number of requests.

## Model

| member | source | states |
|---|---|---|
| ServerCache.LocalCacheService.constructor | PetProfiles.Api/Services/LocalCacheService.cs:11-18 | the cache starts empty |
| ServerCache.LocalCacheService.Get | PetProfiles.Api/Services/LocalCacheService.cs:20-45 | returns the value of an unexpired entry stored under the requested type name and default otherwise; an expired entry is removed, a failed cast keeps the entry, nothing else changes |
| ServerCache.LocalCacheService.Set | PetProfiles.Api/Services/LocalCacheService.cs:47-64 | the entry under key becomes the value with expiration now + expiration (ten minutes when none is given); an out-of-range expiration is caught and stores nothing |
| ServerCache.LocalCacheService.Remove | PetProfiles.Api/Services/LocalCacheService.cs:66-79 | exactly the key is removed |
| ServerCache.LocalCacheService.RemoveByPattern | PetProfiles.Api/Services/LocalCacheService.cs:81-100 | the loop over the collected keys leaves exactly the entries whose key does not contain the pattern with '*' removed |
| ServerCache.LocalCacheService.CleanupExpiredItems | PetProfiles.Api/Services/LocalCacheService.cs:102-125 | the sweep loop leaves exactly the unexpired entries |
| ServerCache.SetThenGet | PetProfiles.Api/Services/LocalCacheService.cs:20-64 | a value written and read back as the same type no later than its expiration is returned and the entry kept |
| ServerCache.ExpiryIsStrict | PetProfiles.Api/Services/LocalCacheService.cs:136 | an entry is live at its expiration instant and expired one tick later |
| ServerCache.GetExpiredEvicts | PetProfiles.Api/Services/LocalCacheService.cs:24-31 | reading an expired key misses and removes exactly that key |
| ServerCache.GetAbsentChangesNothing | PetProfiles.Api/Services/LocalCacheService.cs:22-38 | reading an absent key misses and leaves the cache unchanged |
| ServerCache.GetWrongTypeKeepsEntry | PetProfiles.Api/Services/LocalCacheService.cs:34-44 | a live entry read as another type yields default and stays |
| ServerCache.SetDefaultsAndOverwrites | PetProfiles.Api/Services/LocalCacheService.cs:51-56 | the default lifetime is ten minutes and a second write to a key replaces the first |
| ServerCache.RemoveIdempotent | PetProfiles.Api/Services/LocalCacheService.cs:66-79 | removing twice equals removing once; removing an absent key changes nothing; other entries are kept |
| ServerCache.RemoveByPatternExact | PetProfiles.Api/Services/LocalCacheService.cs:85-96 | a key survives pattern removal iff it does not match, and survivors keep their values |
| ServerCache.StarPatternEmpties | PetProfiles.Api/Services/LocalCacheService.cs:86 | the pattern "*" strips to the empty string and so empties the cache |
| ServerCache.ProfilePatternInvalidation | PetProfiles.Api/Services/LocalCacheService.cs:86 | removing by the per-profile pattern drops every per-profile key and keeps the all-profiles entry |
| ServerCache.SweepExact | PetProfiles.Api/Services/LocalCacheService.cs:106-117 | a key survives the sweep iff its entry is not expired, with its value unchanged |
| ServerCache.SweepUnobservable | PetProfiles.Api/Services/LocalCacheService.cs:102-125 | a read at the sweep's instant returns what it would without the sweep, and after the sweep it changes nothing |
| CacheKeys.PetProfile | PetProfiles.Api/Services/CacheKeys.cs:7 | the key is the stem "pet_profile_" followed by the id's decimal rendering |
| CacheKeys.PetProfileInjective | PetProfiles.Api/Services/CacheKeys.cs:7 | distinct ids give distinct keys |
| CacheKeys.PatternSelectsEveryProfileKey | PetProfiles.Api/Services/CacheKeys.cs:7-9 | the pattern without '*' is the stem, contained in every per-profile key |
| CacheKeys.PatternSparesAllProfilesKey | PetProfiles.Api/Services/CacheKeys.cs:5-9 | the all-profiles key does not contain the stem |
| ApiResponses.SuccessResult | PetProfiles.Api/Models/ApiResponse.cs:10-18 | Success is set, the data and message are the arguments, Errors is null |
| ApiResponses.ErrorResult | PetProfiles.Api/Models/ApiResponse.cs:20-28 | Success is clear, the message and errors are the arguments, Data is default |
| ApiResponses.FactoriesAreDistinguishedBySuccess | PetProfiles.Api/Models/ApiResponse.cs:5-28 | no success response equals an error response and the Success flag tells them apart |
| Clock.Add | PetProfiles.Api/Services/LocalCacheService.cs:51-53 | DateTime.Add succeeds iff the sum is in range, and then adds exactly the span |
| Text.ContainsIffOccurs | PetProfiles.Maui/Converters/ImageSourceConverter.cs:57 | string.Contains holds iff the text occurs at some offset |
| Text.RemoveAll | PetProfiles.Api/Services/LocalCacheService.cs:86 | Replace("*", "") leaves no '*' and keeps every other character |
| Text.TrimStart | PetProfiles.Maui/Services/PetProfilesService.cs:36 | TrimStart('/') is the longest suffix not starting with '/' |
| Text.TrimEnd | PetProfiles.Maui/Services/PetProfilesService.cs:36 | TrimEnd('/') is the longest prefix not ending with '/' |
| Text.TrimBlank | PetProfiles.Maui/ViewModels/AddPetProfilePopupViewModel.cs:256-259 | Trim yields the empty string iff the input is blank |
| Text.TrimIdempotent | PetProfiles.Maui/ViewModels/AddPetProfilePopupViewModel.cs:256-257 | trimming twice equals trimming once |
| Text.IntToString | PetProfiles.Maui/ViewModels/AddPetProfilePopupViewModel.cs:142 | int.ToString gives digits, with a leading '-' exactly for negatives |
| Text.IntToStringInjective | PetProfiles.Api/Services/CacheKeys.cs:7 | distinct ints render differently |
| Text.ParseInt32 | PetProfiles.Maui/ViewModels/AddPetProfilePopupViewModel.cs:249 | int.TryParse succeeds only with a 32-bit value |
| Text.ParseIntToString | PetProfiles.Maui/ViewModels/AddPetProfilePopupViewModel.cs:142-249 | every 32-bit int parses back from its rendering |
| Text.ParsedIsNotBlank | PetProfiles.Maui/ViewModels/AddPetProfilePopupViewModel.cs:244-249 | a string that parses is not blank |
| Web.SchemeLength | PetProfiles.Maui/Services/PetProfilesService.cs:27 | the length of the longest prefix of scheme characters |
| Web.NoColonNotAbsolute | PetProfiles.Maui/Converters/ImageSourceConverter.cs:32-36 | a string without ':' is not an absolute URI, so a bare file name is resolved against the API |
| Web.BaseUrlIsWellFormed | PetProfiles.Maui/Services/PetProfilesService.cs:27-30 | the configured base URL passes the constructor's well-formedness check |
| Web.BaseUrlIsAbsolute | PetProfiles.Maui/Services/PetProfilesService.cs:27-30 | the configured base URL is absolute |
| Web.BaseUrlScheme | PetProfiles.Maui/Services/PetProfilesService.cs:27 | the base URL's scheme is the five characters "https" |
| Web.BaseUrlSeparator | PetProfiles.Maui/Services/PetProfilesService.cs:27 | the base URL starts with a letter and has "://" after its scheme |
| Web.BaseUrlIsPrintable | PetProfiles.Maui/Services/PetProfilesService.cs:27 | the base URL holds only printable ASCII, hence no whitespace |
| Notify.Raised | PetProfiles.Maui/Models/PetProfile.cs:65-71 | SetProperty raises one event named after the property iff the value changes |
| Notify.RepeatedAssignmentIsSilent | PetProfiles.Maui/Models/PetProfile.cs:65-71 | assigning the current value raises nothing, so a repeated assignment raises at most one event in all |
| Models.PetProfile.constructor | PetProfiles.Maui/Models/PetProfile.cs:8-14 | a new profile holds empty strings, a null image, zeros and DateTime.MinValue, with no image attached |
| Models.PetProfile.SetId | PetProfiles.Maui/Models/PetProfile.cs:16-20 | Id becomes the value, the other properties stay, and "Id" is raised iff it changed |
| Models.PetProfile.SetName | PetProfiles.Maui/Models/PetProfile.cs:22-26 | Name becomes the value, the rest stays, and "Name" is raised iff it changed |
| Models.PetProfile.SetBreed | PetProfiles.Maui/Models/PetProfile.cs:28-32 | Breed becomes the value, the rest stays, and "Breed" is raised iff it changed |
| Models.PetProfile.SetAge | PetProfiles.Maui/Models/PetProfile.cs:34-38 | Age becomes the value, the rest stays, and "Age" is raised iff it changed |
| Models.PetProfile.SetImageUrl | PetProfiles.Maui/Models/PetProfile.cs:40-44 | ImageUrl becomes the value, the rest stays, and "ImageUrl" is raised iff it changed |
| Models.PetProfile.SetCreatedAt | PetProfiles.Maui/Models/PetProfile.cs:46-50 | CreatedAt becomes the value, the rest stays, and "CreatedAt" is raised iff it changed |
| Models.PetProfile.SetUpdatedAt | PetProfiles.Maui/Models/PetProfile.cs:52-56 | UpdatedAt becomes the value, the rest stays, and "UpdatedAt" is raised iff it changed |
| ProfilesService.BuildUrl | PetProfiles.Maui/Services/PetProfilesService.cs:36 | the URL extends the base (if it has no trailing '/') by one '/' and is no longer than both parts plus one |
| ProfilesService.BuildUrlJoinsOnce | PetProfiles.Maui/Services/PetProfilesService.cs:36 | whatever runs of '/' surround the join, base and endpoint are joined by exactly one '/' |
| ProfilesService.LowerAscii | PetProfiles.Maui/Services/PetProfilesService.cs:212 | ToLowerInvariant on ASCII: lower-cases each letter 'A'..'Z' in place, keeps every other character and the length |
| ProfilesService.LastDotInName | PetProfiles.Maui/Services/PetProfilesService.cs:212 | the position of the last '.' after the last '/', and none exactly when every '.' is followed by a '/' |
| ProfilesService.GetExtension | PetProfiles.Maui/Services/PetProfilesService.cs:212 | Path.GetExtension is a suffix starting with the name's last '.', or empty when the name has no '.' or ends with one |
| ProfilesService.ContentTypeOfExtension | PetProfiles.Maui/Services/PetProfilesService.cs:213-221 | the switch maps each of the six image extensions to its MIME type and everything else to application/octet-stream |
| ProfilesService.GetContentTypeFromFileName | PetProfiles.Maui/Services/PetProfilesService.cs:210-222 | the content type is an image type of the table or the generic type |
| ProfilesService.ExtensionIgnoresCase | PetProfiles.Maui/Services/PetProfilesService.cs:212 | the extension of the lower-cased name is the lower-cased extension |
| ProfilesService.ContentTypeIgnoresCase | PetProfiles.Maui/Services/PetProfilesService.cs:210-222 | the content type does not depend on the case of the file name |
| ProfilesService.UpperCaseExtensionExample | PetProfiles.Maui/Services/PetProfilesService.cs:210-222 | "Rex.JPEG" is image/jpeg |
| ProfilesService.LastExtensionExample | PetProfiles.Maui/Services/PetProfilesService.cs:210-222 | only the last extension counts: "rex.png.txt" is application/octet-stream |
| ProfilesService.GetImageUrlFromFileName | PetProfiles.Maui/Services/PetProfilesService.cs:224-229 | empty for a null or empty name, otherwise the base URL followed by "/Images/" and the name |
| ProfilesService.ImageEndpointJoin | PetProfiles.Maui/Services/PetProfilesService.cs:228 | BuildUrl of the base and "Images/"+name is the base, "/Images/" and the name |
| ProfilesService.ImageUrlIsApiImage | PetProfiles.Maui/Services/PetProfilesService.cs:224-229 | every image URL built from a name contains "/api/Images/" |
| ProfilesService.Clone | PetProfiles.Maui/Services/PetProfilesService.cs:343 | the clone copies id, name, breed, age and image and leaves both timestamps at default |
| ProfilesService.IndexOfId | PetProfiles.Maui/Services/PetProfilesService.cs:296 | the first position holding the id, or none when no pet has it |
| ProfilesService.IndexOfIdFinds | PetProfiles.Maui/Services/PetProfilesService.cs:296 | with distinct ids each pet is found at its own position |
| ProfilesService.UpdateExact | PetProfiles.Maui/Services/PetProfilesService.cs:308-317 | an update changes only the pet with that id, copying its four editable properties, and keeps ids distinct |
| ProfilesService.DeleteExact | PetProfiles.Maui/Services/PetProfilesService.cs:319-325 | a delete keeps exactly the pets with other ids, and the id is then absent |
| ProfilesService.MockPetProfilesService.constructor | PetProfiles.Maui/Services/PetProfilesService.cs:285-290 | the store holds Fido and Whiskers and the next id is 3 |
| ProfilesService.MockPetProfilesService.GetPetProfiles | PetProfiles.Maui/Services/PetProfilesService.cs:292 | clones of all pets in store order |
| ProfilesService.MockPetProfilesService.GetPetProfile | PetProfiles.Maui/Services/PetProfilesService.cs:294-298 | a pet with the id iff one exists, else null |
| ProfilesService.MockPetProfilesService.CreatePetProfile | PetProfiles.Maui/Services/PetProfilesService.cs:300-306 | a clone under the next id is appended and returned, and the counter advances |
| ProfilesService.MockPetProfilesService.UpdatePetProfile | PetProfiles.Maui/Services/PetProfilesService.cs:308-317 | true iff the id exists; the store becomes the specified update |
| ProfilesService.MockPetProfilesService.DeletePetProfile | PetProfiles.Maui/Services/PetProfilesService.cs:319-325 | true iff the id exists; that pet is removed |
| ProfilesService.MockPetProfilesService.CreatePetProfileWithImage | PetProfiles.Maui/Services/PetProfilesService.cs:327-332 | a new pet under the next id referring to the file name is appended and returned |
| ProfilesService.MockPetProfilesService.UpdatePetProfileImage | PetProfiles.Maui/Services/PetProfilesService.cs:334-340 | null iff the id is unknown; otherwise only that pet's image reference changes and the updated pet is returned |
| Validation.ValidateName | PetProfiles.Maui/Services/ValidationService.cs:5-18 | invalid iff the name is not blank and has a digit, with the name message; valid results carry no message |
| Validation.ValidateBreed | PetProfiles.Maui/Services/ValidationService.cs:20-33 | invalid iff the breed is not blank and has a digit, with the breed message |
| Validation.ValidateAge | PetProfiles.Maui/Services/ValidationService.cs:35-48 | invalid iff the age is not blank and has a letter, with the age message |
| Validation.SignedAgePasses | PetProfiles.Maui/Services/ValidationService.cs:35-48 | "-3" passes validation and parses as -3 |
| Validation.DecimalAgePassesButDoesNotParse | PetProfiles.Maui/Services/ValidationService.cs:35-48 | "3.5" passes validation but does not parse, so the save is refused without a message |
| Validation.NameExamples | PetProfiles.Maui/Services/ValidationService.cs:5-33 | "Rex2" is rejected with the name message, a blank name and "Lab" pass |
| CacheFiles.FileStore.constructor | PetProfiles.Maui/Services/PetProfileCacheService.cs:23-36 | the directories keep whatever they already hold |
| CacheFiles.DataOf | PetProfiles.Maui/Services/PetProfileCacheService.cs:37-70 | the property values of each profile, in order |
| CacheFiles.Preloads | PetProfiles.Maui/Services/PetProfileCacheService.cs:49 | the image attached to each profile, in order |
| CacheFiles.BuildFullUrl | PetProfiles.Maui/Services/PetProfileCacheService.cs:247-255 | an absolute URL is used as it is, anything else lies under the API's image endpoint |
| CacheFiles.BuildFullUrlMatchesService | PetProfiles.Maui/Services/ImagePreloadService.cs:74-82 | for a bare file name the caches download from the URL the profiles service builds for it |
| CacheFiles.StoredImageBytes | PetProfiles.Maui/Services/PetProfileCacheService.cs:272-323 | images up to 1 MB are stored as they are, larger ones resized, and the original kept when resizing fails |
| CacheFiles.FetchedImage | PetProfiles.Maui/Services/PetProfileCacheService.cs:172-187 | bytes are stored iff the download succeeds and the write does not fail |
| CacheFiles.PreloadedImageSource | PetProfiles.Maui/Services/PetProfileCacheService.cs:172-187 | the cached file after success, the paw icon iff the download or write failed |
| CacheFiles.PreloadedAfter | PetProfiles.Maui/Services/PetProfileCacheService.cs:44-50 | a profile with an image reference gets its preloaded image; one without keeps what it had |
| CacheFiles.ImagesWrittenSkipsProfilesWithoutImage | PetProfiles.Maui/Services/ImagePreloadService.cs:31-33 | profiles without an image reference never touch the image directory |
| CacheFiles.ImagesWrittenHolds | PetProfiles.Maui/Services/PetProfileCacheService.cs:44-50 | each successfully fetched image is in the directory afterwards with its fetched bytes |
| CacheFiles.PreloadAndCacheImage | PetProfiles.Maui/Services/PetProfileCacheService.cs:172-187 | returns the specified image source and writes the image iff fetched |
| CacheFiles.CacheImage | PetProfiles.Maui/Services/PetProfileCacheService.cs:272-295 | the write succeeds iff the file is writable, and then stores the possibly resized bytes under the URL |
| ProfileCache.ProfileFileNameInjective | PetProfiles.Maui/Services/PetProfileCacheService.cs:193 | distinct ids use distinct files |
| ProfileCache.ProfileFileIsNotMetadata | PetProfiles.Maui/Services/PetProfileCacheService.cs:193-210 | no profile file is the metadata file |
| ProfileCache.AttachedImage | PetProfiles.Maui/Services/PetProfileCacheService.cs:119-127 | the cached image file iff the profile has an image reference whose file exists |
| ProfileCache.LoadProfile | PetProfiles.Maui/Services/PetProfileCacheService.cs:106-136 | a profile iff its file exists and holds a profile, with that file's data and the attached image |
| ProfileCache.Ids | PetProfiles.Maui/Services/PetProfileCacheService.cs:210-214 | the ids of the profiles in order |
| ProfileCache.PetProfileCacheService.constructor | PetProfiles.Maui/Services/PetProfileCacheService.cs:23-36 | the service works on the given store |
| ProfileCache.PetProfileCacheService.CacheProfiles | PetProfiles.Maui/Services/PetProfileCacheService.cs:37-70 | every profile's file and image are written, each profile gets its preloaded image, and the metadata lists the input's ids in order |
| ProfileCache.PetProfileCacheService.CacheEach | PetProfiles.Maui/Services/PetProfileCacheService.cs:42-58 | the per-profile loop writes all profile files and images in order and attaches the images |
| ProfileCache.PetProfileCacheService.CacheProfileAt | PetProfiles.Maui/Services/PetProfileCacheService.cs:44-56 | the work for the i-th profile, seen from the whole list |
| ProfileCache.PetProfileCacheService.CacheProfile | PetProfiles.Maui/Services/PetProfileCacheService.cs:44-56 | one profile: its image when it has a reference, then its file |
| ProfileCache.PetProfileCacheService.CacheProfileData | PetProfiles.Maui/Services/PetProfileCacheService.cs:189-204 | the profile's record is written to its file unless the write fails |
| ProfileCache.PetProfileCacheService.SaveCacheMetadata | PetProfiles.Maui/Services/PetProfileCacheService.cs:206-226 | the metadata records the time and the ids in order unless the write fails |
| ProfileCache.PetProfileCacheService.GetCachedProfiles | PetProfiles.Maui/Services/PetProfileCacheService.cs:72-104 | the loop returns the profiles the metadata lists that load, in the metadata's order |
| ProfileCache.PetProfileCacheService.GetCachedProfile | PetProfiles.Maui/Services/PetProfileCacheService.cs:106-136 | returns the specified load of the id |
| ProfileCache.PetProfileCacheService.InvalidateCache | PetProfiles.Maui/Services/PetProfileCacheService.cs:138-158 | both directories are left empty |
| ProfileCache.PetProfileCacheService.HasCachedProfiles | PetProfiles.Maui/Services/PetProfileCacheService.cs:160-170 | true iff the metadata file exists |
| ProfileCache.NoMetadataNoProfiles | PetProfiles.Maui/Services/PetProfileCacheService.cs:76-81 | with no readable metadata or no ids, nothing is returned |
| ProfileCache.LoadProfilesAppend | PetProfiles.Maui/Services/PetProfileCacheService.cs:84-94 | loading follows the id list piecewise |
| ProfileCache.SkipsUnloadable | PetProfiles.Maui/Services/PetProfileCacheService.cs:84-94 | an id that fails to load is skipped without affecting the others |
| ProfileCache.MetadataListsInput | PetProfiles.Maui/Services/PetProfileCacheService.cs:61-64 | after caching, the metadata lists all input ids in order, whatever happened to individual profiles |
| ProfileCache.ProfilesWrittenHolds | PetProfiles.Maui/Services/PetProfileCacheService.cs:189-204 | with distinct ids and working writes each profile's file holds that profile |
| ProfileCache.CacheThenRead | PetProfiles.Maui/Services/PetProfileCacheService.cs:37-104 | when the writes succeed and ids are distinct, reading back gives the cached profiles in order, each fetched image attached |
| ProfileCache.LoadAllPresent | PetProfiles.Maui/Services/PetProfileCacheService.cs:84-94 | when every listed profile loads, the result is exactly those profiles |
| ImagePreload.ImagePreloadService.constructor | PetProfiles.Maui/Services/ImagePreloadService.cs:18-25 | the service works on the given store |
| ImagePreload.ImagePreloadService.PreloadImages | PetProfiles.Maui/Services/ImagePreloadService.cs:27-55 | every profile with an image reference gets its image or the paw icon, the others are untouched, and the images are written in order |
| ImagePreload.ImagePreloadService.PreloadAt | PetProfiles.Maui/Services/ImagePreloadService.cs:35-46 | the work for the i-th profile, seen from the whole list |
| ImagePreload.ImagePreloadService.PreloadProfile | PetProfiles.Maui/Services/ImagePreloadService.cs:31-46 | a profile with an image reference is preloaded and given the result; others are skipped |
| ImagePreload.ImagePreloadService.PreloadImage | PetProfiles.Maui/Services/ImagePreloadService.cs:57-72 | the cached file after success, the paw icon otherwise |
| ImagePreload.FailedPreloadShowsPlaceholder | PetProfiles.Maui/Services/ImagePreloadService.cs:67-71 | a profile whose image cannot be downloaded shows the paw icon |
| Converters.ResolveUrl | PetProfiles.Maui/Converters/ImageSourceConverter.cs:32-36 | an absolute URL is kept, a bare name becomes its URL on the image endpoint |
| Converters.FreshImage | PetProfiles.Maui/Converters/ImageSourceConverter.cs:57-89 | an authenticated stream iff the URL contains "/api/Images/", a plain URI image otherwise |
| Converters.Converted | PetProfiles.Maui/Converters/ImageSourceConverter.cs:24-96 | a non-reference gives the placeholder and leaves the memo |
| Converters.ImageSourceConverter.constructor | PetProfiles.Maui/Converters/ImageSourceConverter.cs:9 | the memo starts empty |
| Converters.ImageSourceConverter.Convert | PetProfiles.Maui/Converters/ImageSourceConverter.cs:24-96 | returns the specified image and leaves the specified memo |
| Converters.FreshEntryIsServed | PetProfiles.Maui/Converters/ImageSourceConverter.cs:39-45 | a fresh memo entry is served and the memo is unchanged |
| Converters.MissMemoisesForAnHour | PetProfiles.Maui/Converters/ImageSourceConverter.cs:39-89 | a miss yields a new image memoised for exactly one hour, and every other entry is kept |
| Converters.OtherEntriesUntouched | PetProfiles.Maui/Converters/ImageSourceConverter.cs:24-96 | entries for other URLs are never changed |
| Converters.RepeatWithinTheHour | PetProfiles.Maui/Converters/ImageSourceConverter.cs:39-89 | converting the same value again within the hour returns the same image and changes nothing |
| Converters.BareNameStreamsFromApi | PetProfiles.Maui/Converters/ImageSourceConverter.cs:32-60 | a bare file name is loaded as an authenticated stream from the image endpoint |
| Converters.ExpiryIsStrict | PetProfiles.Maui/Converters/ImageSourceConverter.cs:113 | an entry is served at its expiration time and expired one tick later |
| Converters.InverseBool | PetProfiles.Maui/Converters/ImageSourceConverter.cs:125-141 | a bool is negated, anything else passed through |
| Converters.InverseBoolRoundTrip | PetProfiles.Maui/Converters/ImageSourceConverter.cs:123-142 | ConvertBack undoes Convert |
| ViewModelBase.BaseViewModel.constructor | PetProfiles.Maui/ViewModels/BaseViewModel.cs:8-22 | not busy, empty title, not disposed |
| ViewModelBase.BaseViewModel.SetIsBusy | PetProfiles.Maui/ViewModels/BaseViewModel.cs:31-37 | IsBusy becomes the value; the result and the event say whether it changed |
| ViewModelBase.BaseViewModel.SetTitle | PetProfiles.Maui/ViewModels/BaseViewModel.cs:31-37 | Title becomes the value; the result and the event say whether it changed |
| ViewModelBase.BaseViewModel.Dispose | PetProfiles.Maui/ViewModels/BaseViewModel.cs:39-43 | disposed afterwards, OnDispose has run exactly once in all, and a second call does nothing |
| ViewModelBase.BaseViewModel.DisposeCore | PetProfiles.Maui/ViewModels/BaseViewModel.cs:45-53 | OnDispose runs only on the first call with disposing set |
| PopupViewModel.SavedImageUrl | PetProfiles.Maui/ViewModels/AddPetProfilePopupViewModel.cs:259 | a blank image reference is saved as null, any other trimmed and not empty |
| PopupViewModel.ValidateAndCreateResult | PetProfiles.Maui/ViewModels/AddPetProfilePopupViewModel.cs:242-264 | no result iff a field is blank or the age does not parse; otherwise the parsed age, the trimmed name and breed, the saved image reference (SavedImageUrl), and the form's id, stream and file name |
| PopupViewModel.SavedNamesAreTrimmed | PetProfiles.Maui/ViewModels/AddPetProfilePopupViewModel.cs:254-260 | a saved name and breed are trimmed and not empty |
| PopupViewModel.TrimmedInputsSaveTheSame | PetProfiles.Maui/ViewModels/AddPetProfilePopupViewModel.cs:242-264 | surrounding whitespace in name and breed does not change the result |
| PopupViewModel.EditForm | PetProfiles.Maui/ViewModels/AddPetProfilePopupViewModel.cs:139-143 | the edit form copies the pet's id, name, breed and image with the age rendered, no stream or file name |
| PopupViewModel.EditSavesUnchanged | PetProfiles.Maui/ViewModels/AddPetProfilePopupViewModel.cs:133-264 | saving an unedited edit form of a valid pet gives back its id and age, its trimmed name and breed, and its image reference as SavedImageUrl saves it |
| PopupViewModel.EditAgeIsValid | PetProfiles.Maui/ViewModels/AddPetProfilePopupViewModel.cs:142 | the rendered age of any pet passes age validation |
| PopupViewModel.SavesDespiteErrors | PetProfiles.Maui/ViewModels/AddPetProfilePopupViewModel.cs:208-264 | a form showing a name error still saves, because saving checks only blankness and parsing |
| PopupViewModel.AddPetProfilePopupViewModel.constructor | PetProfiles.Maui/ViewModels/AddPetProfilePopupViewModel.cs:128-131 | an empty add form with no errors and no events |
| PopupViewModel.AddPetProfilePopupViewModel.Edit | PetProfiles.Maui/ViewModels/AddPetProfilePopupViewModel.cs:133-175 | an edit form of the pet with its preloaded image when it has a reference, or an empty add form for null |
| PopupViewModel.AddPetProfilePopupViewModel.SetName | PetProfiles.Maui/ViewModels/AddPetProfilePopupViewModel.cs:43-51 | Name changes, its error is revalidated and HasErrors recomputed |
| PopupViewModel.AddPetProfilePopupViewModel.SetBreed | PetProfiles.Maui/ViewModels/AddPetProfilePopupViewModel.cs:53-61 | Breed changes, its error is revalidated and HasErrors recomputed |
| PopupViewModel.AddPetProfilePopupViewModel.SetAge | PetProfiles.Maui/ViewModels/AddPetProfilePopupViewModel.cs:63-71 | Age changes, its error is revalidated and HasErrors recomputed |
| PopupViewModel.AddPetProfilePopupViewModel.SetNameError | PetProfiles.Maui/ViewModels/AddPetProfilePopupViewModel.cs:74-78 | NameError becomes the value, with an event iff it changed |
| PopupViewModel.AddPetProfilePopupViewModel.SetBreedError | PetProfiles.Maui/ViewModels/AddPetProfilePopupViewModel.cs:80-84 | BreedError becomes the value, with an event iff it changed |
| PopupViewModel.AddPetProfilePopupViewModel.SetAgeError | PetProfiles.Maui/ViewModels/AddPetProfilePopupViewModel.cs:86-90 | AgeError becomes the value, with an event iff it changed |
| PopupViewModel.AddPetProfilePopupViewModel.UpdateHasErrors | PetProfiles.Maui/ViewModels/AddPetProfilePopupViewModel.cs:288-291 | HasErrors holds iff some error message is not empty |
| PopupViewModel.AddPetProfilePopupViewModel.SetImageUrl | PetProfiles.Maui/ViewModels/AddPetProfilePopupViewModel.cs:93-97 | ImageUrl becomes the value, with an event iff it changed |
| PopupViewModel.AddPetProfilePopupViewModel.SetSelectedImage | PetProfiles.Maui/ViewModels/AddPetProfilePopupViewModel.cs:99-107 | SelectedImage becomes the value and HasSelectedImage is announced on every assignment |
| PopupViewModel.AddPetProfilePopupViewModel.SetSelectedImageStream | PetProfiles.Maui/ViewModels/AddPetProfilePopupViewModel.cs:109-113 | the stream becomes the value, with an event iff it changed |
| PopupViewModel.AddPetProfilePopupViewModel.SetSelectedImageFileName | PetProfiles.Maui/ViewModels/AddPetProfilePopupViewModel.cs:115-119 | the file name becomes the value, with an event iff it changed |
| PopupViewModel.AddPetProfilePopupViewModel.DeleteImage | PetProfiles.Maui/ViewModels/AddPetProfilePopupViewModel.cs:178-184 | the selected image, stream, file name and image reference are all cleared |
| PopupViewModel.AddPetProfilePopupViewModel.ExecuteSave | PetProfiles.Maui/ViewModels/AddPetProfilePopupViewModel.cs:208-215 | SaveCompleted is raised with the result iff one can be built |
| PopupViewModel.AddPetProfilePopupViewModel.ExecuteCancel | PetProfiles.Maui/ViewModels/AddPetProfilePopupViewModel.cs:217-221 | CancelRequested is raised once and the view model disposed |
| PopupViewModel.AddPetProfilePopupViewModel.Dispose | PetProfiles.Maui/ViewModels/BaseViewModel.cs:39-53 | the first call clears the form and errors, later calls change nothing |
| PopupViewModel.AddPetProfilePopupViewModel.OnDispose | PetProfiles.Maui/ViewModels/AddPetProfilePopupViewModel.cs:294-321 | fields, selection and error messages are cleared, the pet id kept |

## Left out

- HTTP: the real `PetProfilesService` calls (`GetPetProfilesAsync` and the others over `HttpClient`), the upload endpoints and `DownloadImageAsync` are not modelled beyond the URL and content-type helpers. A download is a lookup in the `Io.server` map of bytes by URL, and a missing URL is a failed download.
- JSON: serialisation is the identity on `ProfileData`. A file that does not deserialise is a `JsonDoc` that is neither a profile nor metadata, and it reads as absent.
- Image resizing with ImageSharp is an opaque function parameter `resize`. A `None` result stands for the exception, after which the original bytes are kept.
- Concurrency: `Task.WhenAll` in both client caches, `ConcurrentDictionary` and the cleanup `Timer` are not modelled. The per-profile work runs one profile after another in list order, and the sweep is a method called with the current time. With duplicate image references, the real order of concurrent writes is not captured.
- Logging (`ILogger`, `Debug.WriteLine`) is left out.
- `Dispose` of `LocalCacheService`, which stops the timer, is left out.
- ProfilesService.LowerAscii: `ToLowerInvariant` is restricted to the ASCII letters. Non-ASCII upper-case letters are kept, which cannot change a content type because none of them lowers onto a letter of the six ASCII extensions.
- `char.IsDigit` and `char.IsLetter` are restricted to ASCII. `char.IsWhiteSpace` is modelled on the Unicode White_Space list.
- `int.TryParse`: surrounding whitespace, a sign and ASCII digits in the 32-bit range. Culture-specific forms (thousands separators, non-ASCII digits) are not modelled.
- Text.IntToString: `int.ToString()` renders a negative number with an ASCII '-'. Cultures whose negative sign is another character (such as U+2212) are not modelled, and the same goes for the sign `int.TryParse` accepts.
- ServerCache.LocalCacheService.Get: a read hits only when the requested type name equals the stored entry's type name (`ServerCache.Lookup`). The source's cast `(T)cacheItem.Value` also succeeds for a base class, an interface, `object` or `Nullable<U>` of a stored `U`. Those reads return default in the model where the source returns the value. For example, reading a stored `List<PetProfile>` as `IEnumerable<PetProfile>` returns the list in the source and default in the model.
- ApiResponses.ErrorResult: `data` is `Option<T>`, and `None` stands for `default(T)`. For a value type the source's `Data` of an error is then `default(T)` (0 for `int`), which the source cannot tell apart from `SuccessResult(0).Data`. In the model the two differ, and only the `Success` flag tells them apart in the source.
- Web.IsWellFormedAbsoluteUri: approximates `Uri.IsWellFormedUriString(s, UriKind.Absolute)` as three parts: a scheme that starts with a letter, then "://" with at least one character after it, and no whitespace anywhere. Full RFC 3986 parsing is not modelled.
- Web.IsWellFormedAbsoluteUri: absolute URIs without an authority, such as "mailto:x" or "urn:isbn:1", are rejected by the model although .NET accepts them. The converter (`Converters.ResolveUrl`) and both caches (`CacheFiles.BuildFullUrl`) therefore send such strings to the API's image endpoint instead of using them as they are.
- Configuration: the base URL is the development constant "https://localhost:7027/api". The API key, the production URL and `IsValidConfiguration` are not modelled.
- ProfilesService.MockPetProfilesService.CreatePetProfile: `_nextId` is an unbounded integer, so 32-bit wrap-around after 2^31 creations is not modelled.
- Static state: the mock's `_pets` list and the converter's `_imageCache` are static in the source. Here they are fields of one instance that stands for the whole app.
- Null strings are `Option<string>` where the source allows null (image references, file names). Non-nullable strings are plain strings.
- Identity of images: `ImageSource` is a value, so two images made from the same URL are equal here, while the source compares object references.
- Streams: opening and disposing the selected image stream, and the stream fallback inside the converter (a failed authenticated request falls back to a URI image), are not modelled.
- PopupViewModel.AddPetProfilePopupViewModel.Edit: the background `Task.Run` that converts the image through `ImageSourceConverter` when the pet has a reference but no preloaded image is not modelled. `SelectedImage` then stays null.
- Converters.Converted: its own ensures states only the placeholder case. The cache hit, miss and expiry behaviour is stated by FreshEntryIsServed, MissMemoisesForAnHour, OtherEntriesUntouched and RepeatWithinTheHour.
- `ImageSourceConverter.ConvertBack` throws `NotImplementedException` in every case and is not modelled.
- The file picker: `ExecuteUploadImage` and `HandleImageSelection` need the platform's picker and file streams.
- File system paths: files are keyed by name in two maps. Path separators, rooted paths and the app data folder are not modelled.
- Write failures are a set of file names in `Io`.
- A failed delete in `InvalidateCacheAsync` is caught and logged in the source. Here the directories are always emptied.
- `PreloadedImage`: the services assign this property, but `PetProfiles.Maui/Models/PetProfile.cs` does not declare it. The model adds it as a plain field that raises no event. It is not part of the record written to disk: a cached profile is written with its seven properties only.
- Inheritance: the popup view model inherits `IsBusy` and `Title` from `BaseViewModel`. Those are modelled only on `BaseViewModel`, and the popup repeats its dispose-once protocol.
- PopupViewModel.AddPetProfilePopupViewModel.OnDispose: clears the fields directly, as the source does, without re-running validation. `HasErrors` is therefore not recomputed and may stay set after disposal; `Valid` states the HasErrors invariant only while not disposed.
- Events: `SaveCompleted` and `CancelRequested` are recorded as the list of results raised and the number of requests. Who subscribes is not modelled.
- Both client services have an image download-and-store pipeline (`PreloadAndCacheImageAsync`/`CacheImageAsync`/`ResizeImageAsync`). The two copies have the same code and are modelled once, in `CacheFiles.PreloadAndCacheImage` and `CacheFiles.CacheImage`.
- In the source, the class `LocalCacheService` declares its constructor under the name `InMemoryCacheService`. The model reads that as the class's constructor.
