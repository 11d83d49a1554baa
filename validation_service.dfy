/**
 * ValidationService: the per-field checks behind the profile form. A blank
 * field is always valid (the form's save step rejects it instead); a name or
 * breed must not contain a digit and an age must not contain a letter.
 */
module Validation {
  import opened Wrappers
  import opened Text

  datatype ValidationResult = ValidationResult(isValid: bool, errorMessage: string)

  const NameMessage: string := "Name cannot contain numbers"
  const BreedMessage: string := "Breed cannot contain numbers"
  const AgeMessage: string := "Age can only contain numbers"

  const Valid: ValidationResult := ValidationResult(true, "")

  function ValidateName(name: string): (r: ValidationResult)
    ensures r.isValid <==> r.errorMessage == ""
    ensures !r.isValid <==> !IsBlank(name) && HasDigit(name)
    ensures !r.isValid ==> r.errorMessage == NameMessage
  {
    if IsBlank(name) then Valid
    else if exists i :: 0 <= i < |name| && IsDigit(name[i]) then ValidationResult(false, NameMessage)
    else Valid
  }

  function ValidateBreed(breed: string): (r: ValidationResult)
    ensures r.isValid <==> r.errorMessage == ""
    ensures !r.isValid <==> !IsBlank(breed) && HasDigit(breed)
    ensures !r.isValid ==> r.errorMessage == BreedMessage
  {
    if IsBlank(breed) then Valid
    else if exists i :: 0 <= i < |breed| && IsDigit(breed[i]) then ValidationResult(false, BreedMessage)
    else Valid
  }

  function ValidateAge(age: string): (r: ValidationResult)
    ensures r.isValid <==> r.errorMessage == ""
    ensures !r.isValid <==> !IsBlank(age) && HasLetter(age)
    ensures !r.isValid ==> r.errorMessage == AgeMessage
  {
    if IsBlank(age) then Valid
    else if exists i :: 0 <= i < |age| && IsLetter(age[i]) then ValidationResult(false, AgeMessage)
    else Valid
  }

  /**
   * The age check only looks for letters: a sign or a decimal point passes
   * it. int.TryParse then accepts the sign and rejects the point.
   */
  lemma SignedAgePasses()
    ensures ValidateAge("-3").isValid && ParseInt32("-3") == Some(-3)
  {
    assert !HasLetter("-3");
    ParseIntToString(-3);
    assert IntToString(-3) == "-3";
  }

  lemma DecimalAgePassesButDoesNotParse()
    ensures ValidateAge("3.5").isValid && ParseInt32("3.5") == None
  {
    var t := "3.5";
    assert !HasLetter(t);
    assert ParseSigned(t) == None by {
      assert t[1] == '.';
    }
    TrimNoop(t, NumberWhiteSpace);
  }

  /** A name with a digit is flagged, a blank one is not, and neither message is empty. */
  lemma NameExamples()
    ensures ValidateName("Rex2") == ValidationResult(false, NameMessage)
    ensures ValidateName("  ") == ValidationResult(true, "")
    ensures ValidateBreed("Lab") == ValidationResult(true, "")
  {
    assert IsDigit("Rex2"[3]);
    assert !HasDigit("Lab");
  }
}
