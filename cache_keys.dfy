/**
 * The naming scheme of the server-side cache keys: one constant key for the
 * list of all profiles, one templated key per profile id, and a wildcard
 * pattern that selects every per-profile key.
 */
module CacheKeys {
  import opened Text

  const AllPetProfiles: string := "all_pet_profiles"

  /** The common stem of the per-profile keys. */
  const PetProfileStem: string := "pet_profile_"

  /** The key of one profile: the stem followed by the id in decimal. */
  function PetProfile(id: int): (key: string)
    ensures PetProfileStem <= key
    ensures key[|PetProfileStem|..] == IntToString(id)
  {
    PetProfileStem + IntToString(id)
  }

  const PetProfilePattern: string := "pet_profile_*"

  /** Distinct ids give distinct keys. */
  lemma PetProfileInjective(a: int, b: int)
    requires PetProfile(a) == PetProfile(b)
    ensures a == b
  {
    assert PetProfile(a)[|PetProfileStem|..] == PetProfile(b)[|PetProfileStem|..];
    IntToStringInjective(a, b);
  }

  /** With its wildcard removed, the pattern is the stem, which every per-profile key contains. */
  lemma PatternSelectsEveryProfileKey(id: int)
    ensures RemoveAll(PetProfilePattern, '*') == PetProfileStem
    ensures Contains(PetProfile(id), RemoveAll(PetProfilePattern, '*'))
  {
    assert PetProfilePattern == PetProfileStem + "*";
    RemoveAllAppend(PetProfileStem, "*", '*');
    ContainsPrefix(PetProfileStem, IntToString(id));
  }

  /** The stem does not occur in the all-profiles key, so pattern removal keeps that entry. */
  lemma PatternSparesAllProfilesKey()
    ensures !Contains(AllPetProfiles, RemoveAll(PetProfilePattern, '*'))
  {
    PatternSelectsEveryProfileKey(0);
    ContainsIffOccurs(AllPetProfiles, PetProfileStem);
    forall i ensures !OccursAt(AllPetProfiles, PetProfileStem, i) {
      StemMismatch(i);
    }
  }

  /** At every offset where the stem would fit, one character of the all-profiles key differs from it. */
  lemma StemMismatch(i: int)
    ensures !OccursAt(AllPetProfiles, PetProfileStem, i)
  {
    if 0 <= i <= 4 {
      var j := if i < 4 then 0 else 11;
      assert AllPetProfiles[i..i + 12][j] == AllPetProfiles[i + j];
    }
  }
}
