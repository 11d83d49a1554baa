/**
 * AddPetProfilePopupViewModel: the add/edit profile form. Each input is
 * checked as it is typed, HasErrors summarises the three error strings,
 * and Save hands the trimmed, parsed form to its listener whenever the
 * required fields are present and the age parses, whatever the per-field
 * errors say.
 */
module PopupViewModel {
  import opened Wrappers
  import opened Text
  import opened Models
  import Notify
  import Validation

  /** A stream of picked image bytes, by identity. */
  datatype ImageStream = ImageStream(handle: nat)

  /** AddPetProfileResult, what a successful Save hands to its listener. */
  datatype AddPetProfileResult = AddPetProfileResult(
    petId: Option<int>,
    name: string,
    breed: string,
    age: int,
    imageUrl: Option<string>,
    imageStream: Option<ImageStream>,
    imageFileName: Option<string>)

  /** The form fields ValidateAndCreateResult reads. */
  datatype Form = Form(
    name: string,
    breed: string,
    age: string,
    imageUrl: Option<string>,
    selectedImageStream: Option<ImageStream>,
    selectedImageFileName: Option<string>,
    petId: Option<int>)

  /** ImageUrl as saved: nothing when blank, trimmed otherwise. */
  function SavedImageUrl(imageUrl: Option<string>): (r: Option<string>)
    ensures r.None? <==> IsNullOrWhiteSpace(imageUrl)
    ensures r.Some? ==> r.value == Trim(imageUrl.value) && r.value != []
  {
    if IsNullOrWhiteSpace(imageUrl) then None
    else
      TrimBlank(imageUrl.value);
      Some(Trim(imageUrl.value))
  }

  /**
   * ValidateAndCreateResult: nothing when Name, Breed or Age is blank or
   * Age is not an int; otherwise the trimmed form with the parsed age.
   */
  function ValidateAndCreateResult(f: Form): (r: Option<AddPetProfileResult>)
    ensures r.None? <==> IsBlank(f.name) || IsBlank(f.breed) || IsBlank(f.age) || ParseInt32(f.age).None?
    ensures r.Some? ==> Some(r.value.age) == ParseInt32(f.age)
    ensures r.Some? ==> r.value.name == Trim(f.name) && r.value.breed == Trim(f.breed)
    ensures r.Some? ==> r.value.imageUrl == SavedImageUrl(f.imageUrl)
    ensures r.Some? ==> r.value.petId == f.petId && r.value.imageStream == f.selectedImageStream &&
                        r.value.imageFileName == f.selectedImageFileName
  {
    if IsBlank(f.name) || IsBlank(f.breed) || IsBlank(f.age) then None
    else
      match ParseInt32(f.age)
      case None => None
      case Some(age) =>
        Some(AddPetProfileResult(f.petId, Trim(f.name), Trim(f.breed), age, SavedImageUrl(f.imageUrl),
                                 f.selectedImageStream, f.selectedImageFileName))
  }

  /** A saved result has a non-empty name and breed with no surrounding whitespace. */
  lemma SavedNamesAreTrimmed(f: Form)
    requires ValidateAndCreateResult(f).Some?
    ensures var r := ValidateAndCreateResult(f).value;
            r.name != [] && Trim(r.name) == r.name && r.breed != [] && Trim(r.breed) == r.breed &&
            r.name == Trim(f.name) && r.breed == Trim(f.breed)
  {
    TrimBlank(f.name);
    TrimBlank(f.breed);
    TrimIdempotent(f.name);
    TrimIdempotent(f.breed);
  }

  /** Surrounding whitespace in the inputs makes no difference to what is saved. */
  lemma TrimmedInputsSaveTheSame(f: Form)
    ensures var g := f.(name := Trim(f.name), breed := Trim(f.breed));
            ValidateAndCreateResult(g) == ValidateAndCreateResult(f)
  {
    TrimKeepsBlankness(f.name);
    TrimKeepsBlankness(f.breed);
  }

  /** A trimmed string is blank exactly when the original is, and trims to itself. */
  lemma TrimKeepsBlankness(s: string)
    ensures IsBlank(Trim(s)) <==> IsBlank(s)
    ensures Trim(Trim(s)) == Trim(s)
  {
    TrimIdempotent(s);
    TrimBlank(s);
    TrimBlank(Trim(s));
  }

  /** HasErrors as UpdateHasErrors computes it: some error string is not empty. */
  predicate AnyError(nameError: string, breedError: string, ageError: string) {
    nameError != "" || breedError != "" || ageError != ""
  }

  /** The form an edit popup opens with, for a profile with the given values. */
  function EditForm(d: ProfileData): (f: Form)
    ensures f.petId == Some(d.id) && f.name == d.name && f.breed == d.breed && f.imageUrl == d.imageUrl
    ensures f.selectedImageStream.None? && f.selectedImageFileName.None?
  {
    Form(d.name, d.breed, IntToString(d.age), d.imageUrl, None, None, Some(d.id))
  }

  /**
   * Saving an edit popup unchanged gives back the profile's id, its
   * trimmed name and breed, and the age it was opened with.
   */
  lemma EditSavesUnchanged(d: ProfileData)
    requires IsInt32(d.age) && !IsBlank(d.name) && !IsBlank(d.breed)
    ensures var r := ValidateAndCreateResult(EditForm(d));
            r.Some? && r.value.petId == Some(d.id) && r.value.age == d.age &&
            r.value.name == Trim(d.name) && r.value.breed == Trim(d.breed) && r.value.imageUrl == SavedImageUrl(d.imageUrl)
  {
    ParseIntToString(d.age);
    ParsedIsNotBlank(IntToString(d.age));
  }

  /** The age field of an edit popup never shows an age error. */
  lemma EditAgeIsValid(n: int)
    ensures Validation.ValidateAge(IntToString(n)).isValid
  {
    var s := IntToString(n);
    forall i | 0 <= i < |s| ensures !IsLetter(s[i]) {
      if n < 0 {
        if i > 0 {
          assert s[i] == NatToString(-n)[i - 1];
        }
      }
    }
  }

  /** Save goes ahead while a field shows an error: a name with a digit is flagged and still saved. */
  lemma SavesDespiteErrors()
    ensures var f := Form("Rex2", "Lab", "3", None, None, None, None);
            !Validation.ValidateName(f.name).isValid && ValidateAndCreateResult(f).Some?
  {
    assert IsDigit("Rex2"[3]);
    assert !IsBlank("Rex2") by { assert !IsWhiteSpace("Rex2"[0]); }
    assert !IsBlank("Lab") by { assert !IsWhiteSpace("Lab"[0]); }
    ParseIntToString(3);
    assert IntToString(3) == "3";
    ParsedIsNotBlank("3");
  }

  class AddPetProfilePopupViewModel {
    var name: string
    var breed: string
    var age: string
    var imageUrl: Option<string>
    var selectedImage: Option<ImageSource>
    var selectedImageStream: Option<ImageStream>
    var selectedImageFileName: Option<string>
    var petId: Option<int>
    var nameError: string
    var breedError: string
    var ageError: string
    var hasErrors: bool
    const isEditMode: bool
    var disposed: bool
    /** The PropertyChanged events raised since construction, oldest first. */
    var raised: seq<string>
    /** The results handed to the SaveCompleted listener, oldest first. */
    var saved: seq<AddPetProfileResult>
    /** How many times CancelRequested has been raised. */
    var cancelRequests: nat
    /** How many times the OnDispose hook has run. */
    ghost var onDisposeRuns: nat

    function Fields(): Form
      reads this`name, this`breed, this`age, this`imageUrl, this`selectedImageStream,
            this`selectedImageFileName, this`petId
    {
      Form(name, breed, age, imageUrl, selectedImageStream, selectedImageFileName, petId)
    }

    /** Each error string is its validator's message for the current input. */
    ghost predicate ErrorsMatchInputs()
      reads this`name, this`breed, this`age, this`nameError, this`breedError, this`ageError
    {
      nameError == Validation.ValidateName(name).errorMessage &&
      breedError == Validation.ValidateBreed(breed).errorMessage &&
      ageError == Validation.ValidateAge(age).errorMessage
    }

    /**
     * The form's invariant: the error strings match the inputs; HasErrors
     * summarises them until the popup is disposed (OnDispose clears the
     * strings but not HasErrors); OnDispose has run once exactly when the
     * popup is disposed.
     */
    ghost predicate Valid()
      reads this`name, this`breed, this`age, this`nameError, this`breedError, this`ageError,
            this`hasErrors, this`disposed, this`onDisposeRuns
    {
      ErrorsMatchInputs() &&
      (!disposed ==> hasErrors == AnyError(nameError, breedError, ageError)) &&
      onDisposeRuns == if disposed then 1 else 0
    }

    /** The add popup: every input empty, no image, no id, no error. */
    constructor()
      ensures Fields() == Form("", "", "", None, None, None, None)
      ensures selectedImage.None? && !isEditMode
      ensures nameError == "" && breedError == "" && ageError == "" && !hasErrors
      ensures !disposed && raised == [] && saved == [] && cancelRequests == 0
      ensures Valid()
    {
      name, breed, age, imageUrl := "", "", "", None;
      selectedImage, selectedImageStream, selectedImageFileName, petId := None, None, None, None;
      nameError, breedError, ageError, hasErrors := "", "", "", false;
      isEditMode := false;
      disposed, raised, saved, cancelRequests := false, [], [], 0;
      onDisposeRuns := 0;
    }

    /**
     * The edit popup: the profile's id, name, breed, age as text and image
     * reference, each checked as the setters do, and its preloaded image
     * when it has an image reference. A null profile gives the add popup.
     */
    constructor Edit(pet: PetProfile?)
      ensures pet == null ==> Fields() == Form("", "", "", None, None, None, None) && selectedImage.None? && !isEditMode
      ensures pet != null ==> Fields() == EditForm(pet.Data()) && isEditMode
      ensures pet != null ==> selectedImage == if IsNullOrEmpty(pet.imageUrl) then None else pet.preloadedImage
      ensures !disposed && raised == [] && saved == [] && cancelRequests == 0
      ensures Valid()
    {
      // The source assigns through the Name, Breed, Age, ImageUrl and SelectedImage
      // setters; no handler can be subscribed while the constructor runs, so their
      // notifications reach nobody and only the values they store remain.
      var d := if pet == null then ProfileData(0, "", "", 0, None, 0, 0) else pet.Data();
      var ageText := if pet == null then "" else IntToString(d.age);
      name, breed, age := d.name, d.breed, ageText;
      imageUrl := d.imageUrl;
      petId := if pet == null then None else Some(d.id);
      selectedImage := if pet != null && !IsNullOrEmpty(d.imageUrl) then pet.preloadedImage else None;
      selectedImageStream, selectedImageFileName := None, None;
      var nameMessage := Validation.ValidateName(d.name).errorMessage;
      var breedMessage := Validation.ValidateBreed(d.breed).errorMessage;
      var ageMessage := Validation.ValidateAge(ageText).errorMessage;
      nameError, breedError, ageError := nameMessage, breedMessage, ageMessage;
      hasErrors := AnyError(nameMessage, breedMessage, ageMessage);
      isEditMode := pet != null;
      disposed, raised, saved, cancelRequests := false, [], [], 0;
      onDisposeRuns := 0;
    }

    /** The Name setter: store the value, then show the name check's message and update HasErrors. */
    method SetName(value: string)
      requires ErrorsMatchInputs()
      modifies this`name, this`nameError, this`hasErrors, this`raised
      ensures name == value && ErrorsMatchInputs()
      ensures nameError == Validation.ValidateName(value).errorMessage
      ensures hasErrors == AnyError(nameError, breedError, ageError)
      ensures raised == old(raised) + Notify.Raised(old(name), value, "Name")
                        + Notify.Raised(old(nameError), nameError, "NameError")
                        + Notify.Raised(old(hasErrors), hasErrors, "HasErrors")
    {
      raised := raised + Notify.Raised(name, value, "Name");
      name := value;
      var result := Validation.ValidateName(name);
      SetNameError(result.errorMessage);
      UpdateHasErrors();
    }

    /** The Breed setter. */
    method SetBreed(value: string)
      requires ErrorsMatchInputs()
      modifies this`breed, this`breedError, this`hasErrors, this`raised
      ensures breed == value && ErrorsMatchInputs()
      ensures breedError == Validation.ValidateBreed(value).errorMessage
      ensures hasErrors == AnyError(nameError, breedError, ageError)
      ensures raised == old(raised) + Notify.Raised(old(breed), value, "Breed")
                        + Notify.Raised(old(breedError), breedError, "BreedError")
                        + Notify.Raised(old(hasErrors), hasErrors, "HasErrors")
    {
      raised := raised + Notify.Raised(breed, value, "Breed");
      breed := value;
      var result := Validation.ValidateBreed(breed);
      SetBreedError(result.errorMessage);
      UpdateHasErrors();
    }

    /** The Age setter. */
    method SetAge(value: string)
      requires ErrorsMatchInputs()
      modifies this`age, this`ageError, this`hasErrors, this`raised
      ensures age == value && ErrorsMatchInputs()
      ensures ageError == Validation.ValidateAge(value).errorMessage
      ensures hasErrors == AnyError(nameError, breedError, ageError)
      ensures raised == old(raised) + Notify.Raised(old(age), value, "Age")
                        + Notify.Raised(old(ageError), ageError, "AgeError")
                        + Notify.Raised(old(hasErrors), hasErrors, "HasErrors")
    {
      raised := raised + Notify.Raised(age, value, "Age");
      age := value;
      var result := Validation.ValidateAge(age);
      SetAgeError(result.errorMessage);
      UpdateHasErrors();
    }

    method SetNameError(value: string)
      modifies this`nameError, this`raised
      ensures nameError == value
      ensures raised == old(raised) + Notify.Raised(old(nameError), value, "NameError")
    {
      raised := raised + Notify.Raised(nameError, value, "NameError");
      nameError := value;
    }

    method SetBreedError(value: string)
      modifies this`breedError, this`raised
      ensures breedError == value
      ensures raised == old(raised) + Notify.Raised(old(breedError), value, "BreedError")
    {
      raised := raised + Notify.Raised(breedError, value, "BreedError");
      breedError := value;
    }

    method SetAgeError(value: string)
      modifies this`ageError, this`raised
      ensures ageError == value
      ensures raised == old(raised) + Notify.Raised(old(ageError), value, "AgeError")
    {
      raised := raised + Notify.Raised(ageError, value, "AgeError");
      ageError := value;
    }

    /** UpdateHasErrors: HasErrors becomes whether any error string is non-empty. */
    method UpdateHasErrors()
      modifies this`hasErrors, this`raised
      ensures hasErrors == AnyError(nameError, breedError, ageError)
      ensures raised == old(raised) + Notify.Raised(old(hasErrors), hasErrors, "HasErrors")
    {
      var value := nameError != "" || breedError != "" || ageError != "";
      raised := raised + Notify.Raised(hasErrors, value, "HasErrors");
      hasErrors := value;
    }

    method SetImageUrl(value: Option<string>)
      modifies this`imageUrl, this`raised
      ensures imageUrl == value
      ensures raised == old(raised) + Notify.Raised(old(imageUrl), value, "ImageUrl")
    {
      raised := raised + Notify.Raised(imageUrl, value, "ImageUrl");
      imageUrl := value;
    }

    /** The SelectedImage setter also announces HasSelectedImage, whether or not the image changed. */
    method SetSelectedImage(value: Option<ImageSource>)
      modifies this`selectedImage, this`raised
      ensures selectedImage == value
      ensures raised == old(raised) + Notify.Raised(old(selectedImage), value, "SelectedImage") + ["HasSelectedImage"]
    {
      raised := raised + Notify.Raised(selectedImage, value, "SelectedImage") + ["HasSelectedImage"];
      selectedImage := value;
    }

    method SetSelectedImageStream(value: Option<ImageStream>)
      modifies this`selectedImageStream, this`raised
      ensures selectedImageStream == value
      ensures raised == old(raised) + Notify.Raised(old(selectedImageStream), value, "SelectedImageStream")
    {
      raised := raised + Notify.Raised(selectedImageStream, value, "SelectedImageStream");
      selectedImageStream := value;
    }

    method SetSelectedImageFileName(value: Option<string>)
      modifies this`selectedImageFileName, this`raised
      ensures selectedImageFileName == value
      ensures raised == old(raised) + Notify.Raised(old(selectedImageFileName), value, "SelectedImageFileName")
    {
      raised := raised + Notify.Raised(selectedImageFileName, value, "SelectedImageFileName");
      selectedImageFileName := value;
    }

    /** DeleteImage: the image, its stream, its file name and the image reference are cleared, and nothing else. */
    method DeleteImage()
      modifies this`selectedImage, this`selectedImageStream, this`selectedImageFileName, this`imageUrl, this`raised
      ensures selectedImage.None? && selectedImageStream.None? && selectedImageFileName.None? && imageUrl.None?
      ensures raised == old(raised) + Notify.Raised(old(selectedImage), None, "SelectedImage") + ["HasSelectedImage"]
                        + Notify.Raised(old(selectedImageStream), None, "SelectedImageStream")
                        + Notify.Raised(old(selectedImageFileName), None, "SelectedImageFileName")
                        + Notify.Raised(old(imageUrl), None, "ImageUrl")
    {
      SetSelectedImage(None);
      SetSelectedImageStream(None);
      SetSelectedImageFileName(None);
      SetImageUrl(None);
    }

    /** ExecuteSave: SaveCompleted receives the result whenever one is built, errors or not. */
    method ExecuteSave()
      modifies this`saved
      ensures saved == old(saved) + match ValidateAndCreateResult(Fields())
                                    case None => []
                                    case Some(r) => [r]
    {
      var result := ValidateAndCreateResult(Fields());
      if result.Some? {
        saved := saved + [result.value];
      }
    }

    /** ExecuteCancel: dispose, then raise CancelRequested. */
    method ExecuteCancel()
      requires Valid()
      modifies this`name, this`breed, this`age, this`imageUrl, this`selectedImage, this`selectedImageStream,
               this`selectedImageFileName, this`nameError, this`breedError, this`ageError,
               this`disposed, this`onDisposeRuns, this`cancelRequests
      ensures Valid() && disposed
      ensures cancelRequests == old(cancelRequests) + 1
      ensures !old(disposed) ==> Fields() == Form("", "", "", None, None, None, old(petId)) && selectedImage.None?
      ensures old(disposed) ==> Fields() == old(Fields()) && selectedImage == old(selectedImage)
    {
      Dispose();
      cancelRequests := cancelRequests + 1;
    }

    /** Dispose(): OnDispose runs on the first call only. */
    method Dispose()
      requires Valid()
      modifies this`name, this`breed, this`age, this`imageUrl, this`selectedImage, this`selectedImageStream,
               this`selectedImageFileName, this`nameError, this`breedError, this`ageError,
               this`disposed, this`onDisposeRuns
      ensures Valid() && disposed && onDisposeRuns == 1
      ensures !old(disposed) ==> Fields() == Form("", "", "", None, None, None, old(petId)) && selectedImage.None?
      ensures !old(disposed) ==> nameError == "" && breedError == "" && ageError == ""
      ensures old(disposed) ==> Fields() == old(Fields()) && selectedImage == old(selectedImage)
    {
      if !disposed {
        OnDispose();
        disposed := true;
      }
    }

    /**
     * OnDispose: release the stream and clear the inputs, the errors and the
     * image fields directly, so no PropertyChanged is raised and HasErrors
     * keeps its value.
     */
    method OnDispose()
      modifies this`name, this`breed, this`age, this`imageUrl, this`selectedImage, this`selectedImageStream,
               this`selectedImageFileName, this`nameError, this`breedError, this`ageError, this`onDisposeRuns
      ensures Fields() == Form("", "", "", None, None, None, old(petId)) && selectedImage.None?
      ensures nameError == "" && breedError == "" && ageError == ""
      ensures onDisposeRuns == old(onDisposeRuns) + 1
    {
      selectedImageStream := None;
      selectedImage := None;
      selectedImageFileName := None;
      imageUrl := None;
      nameError, breedError, ageError := "", "", "";
      name, breed, age := "", "", "";
      onDisposeRuns := onDisposeRuns + 1;
    }
  }
}
