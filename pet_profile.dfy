/**
 * The client's PetProfile model: seven observable properties, each set
 * through SetProperty, plus the image the caches attach to a profile.
 */
module Models {
  import opened Wrappers
  import opened Clock
  import Notify

  /** The values of a PetProfile's seven properties, which is also what its JSON form holds. */
  datatype ProfileData = ProfileData(
    id: int,
    name: string,
    breed: string,
    age: int,
    imageUrl: Option<string>,
    createdAt: DateTime,
    updatedAt: DateTime)

  /** The property values of a new PetProfile: empty strings, a null ImageUrl, zero numbers and DateTime.MinValue. */
  const DefaultProfileData: ProfileData := ProfileData(0, "", "", 0, None, 0, 0)

  /** Where an ImageSource takes its pixels from. */
  datatype ImageSource =
    | AppFile(name: string)           // ImageSource.FromFile of a file bundled with the app
    | ImageCacheFile(name: string)    // ImageSource.FromFile of a file in the image cache directory
    | StreamImage(url: string)        // ImageSource.FromStream over an authenticated download of url
    | UriImage(url: string)           // ImageSource.FromUri(url)

  /** The paw icon shown when there is no image or it cannot be loaded. */
  const Placeholder: ImageSource := AppFile("paw_icon.png")

  class PetProfile {
    var id: int
    var name: string
    var breed: string
    var age: int
    var imageUrl: Option<string>
    var createdAt: DateTime
    var updatedAt: DateTime
    /** The image a cache attached to this profile; a plain field that raises no event. */
    var preloadedImage: Option<ImageSource>
    /** The PropertyChanged events raised so far, oldest first. */
    var raised: seq<string>

    function Data(): ProfileData
      reads this`id, this`name, this`breed, this`age, this`imageUrl, this`createdAt, this`updatedAt
    {
      ProfileData(id, name, breed, age, imageUrl, createdAt, updatedAt)
    }

    constructor()
      ensures Data() == DefaultProfileData
      ensures preloadedImage == None && raised == []
    {
      id, name, breed, age, imageUrl, createdAt, updatedAt := 0, "", "", 0, None, 0, 0;
      preloadedImage := None;
      raised := [];
    }

    method SetId(value: int)
      modifies this`id, this`raised
      ensures Data() == old(Data()).(id := value)
      ensures raised == old(raised) + Notify.Raised(old(id), value, "Id")
    {
      raised := raised + Notify.Raised(id, value, "Id");
      id := value;
    }

    method SetName(value: string)
      modifies this`name, this`raised
      ensures Data() == old(Data()).(name := value)
      ensures raised == old(raised) + Notify.Raised(old(name), value, "Name")
    {
      raised := raised + Notify.Raised(name, value, "Name");
      name := value;
    }

    method SetBreed(value: string)
      modifies this`breed, this`raised
      ensures Data() == old(Data()).(breed := value)
      ensures raised == old(raised) + Notify.Raised(old(breed), value, "Breed")
    {
      raised := raised + Notify.Raised(breed, value, "Breed");
      breed := value;
    }

    method SetAge(value: int)
      modifies this`age, this`raised
      ensures Data() == old(Data()).(age := value)
      ensures raised == old(raised) + Notify.Raised(old(age), value, "Age")
    {
      raised := raised + Notify.Raised(age, value, "Age");
      age := value;
    }

    method SetImageUrl(value: Option<string>)
      modifies this`imageUrl, this`raised
      ensures Data() == old(Data()).(imageUrl := value)
      ensures raised == old(raised) + Notify.Raised(old(imageUrl), value, "ImageUrl")
    {
      raised := raised + Notify.Raised(imageUrl, value, "ImageUrl");
      imageUrl := value;
    }

    method SetCreatedAt(value: DateTime)
      modifies this`createdAt, this`raised
      ensures Data() == old(Data()).(createdAt := value)
      ensures raised == old(raised) + Notify.Raised(old(createdAt), value, "CreatedAt")
    {
      raised := raised + Notify.Raised(createdAt, value, "CreatedAt");
      createdAt := value;
    }

    method SetUpdatedAt(value: DateTime)
      modifies this`updatedAt, this`raised
      ensures Data() == old(Data()).(updatedAt := value)
      ensures raised == old(raised) + Notify.Raised(old(updatedAt), value, "UpdatedAt")
    {
      raised := raised + Notify.Raised(updatedAt, value, "UpdatedAt");
      updatedAt := value;
    }
  }
}
