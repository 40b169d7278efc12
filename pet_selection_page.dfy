/**
 * The pet selection page's search: each non-empty search field must be a
 * substring (case-sensitive) of the pet's matching field.  The kana and
 * address fields are collected by the form but never consulted.
 */
module PetSelectionPage {
  import opened Common
  import opened ClinicTypes

  /** The search form's fields. */
  datatype SearchParams = SearchParams(
    ownerId: string,
    ownerName: string,
    ownerNameKana: string,
    phone: string,
    petName: string,
    petNameKana: string,
    species: string,
    address: string)

  const InitialSearchParams := SearchParams("", "", "", "", "", "", "", "")

  /** The filter callback: guard clauses that reject on the first given field the pet does not contain. */
  function Keep(pet: ClientPet, q: SearchParams): (keep: bool)
    ensures keep <==>
      && (q.ownerId == "" || Contains(pet.ownerId, q.ownerId))
      && (q.ownerName == "" || Contains(pet.ownerName, q.ownerName))
      && (q.phone == "" || (pet.phone.Some? && Contains(pet.phone.value, q.phone)))
      && (q.petName == "" || Contains(pet.name, q.petName))
      && (q.species == "" || Contains(pet.species, q.species))
  {
    if q.ownerId != "" && !Contains(pet.ownerId, q.ownerId) then false
    else if q.ownerName != "" && !Contains(pet.ownerName, q.ownerName) then false
    else if q.phone != "" && (pet.phone.None? || pet.phone.value == "" || !Contains(pet.phone.value, q.phone)) then false
    else if q.petName != "" && !Contains(pet.name, q.petName) then false
    else if q.species != "" && !Contains(pet.species, q.species) then false
    else true
  }

  /** filteredPets: the pets the guard clauses keep, in catalogue order. */
  function FilteredPets(pets: seq<ClientPet>, q: SearchParams): (r: seq<ClientPet>)
    ensures IsSubsequence(r, pets)
    ensures forall p :: p in r <==> p in pets && Keep(p, q)
  {
    FilterIsSubsequence(pets, p => Keep(p, q));
    Filter(pets, p => Keep(p, q))
  }

  /** The initial, all-empty form lists every pet. */
  lemma EmptySearchKeepsAll(pets: seq<ClientPet>)
    ensures FilteredPets(pets, InitialSearchParams) == pets
  {
    FilterKeepsAll(pets, p => Keep(p, InitialSearchParams));
  }

  /** A phone query never lists a pet without a phone number. */
  lemma PhoneQueryExcludesNoPhone(pets: seq<ClientPet>, q: SearchParams, p: ClientPet)
    requires q.phone != "" && p.phone.None?
    ensures p !in FilteredPets(pets, q)
  {
  }

  /** The kana and address fields have no effect on the result. */
  lemma KanaAndAddressIgnored(pets: seq<ClientPet>, q: SearchParams, ownerKana: string, petKana: string, address: string)
    ensures FilteredPets(pets, q.(ownerNameKana := ownerKana, petNameKana := petKana, address := address))
         == FilteredPets(pets, q)
  {
    var q' := q.(ownerNameKana := ownerKana, petNameKana := petKana, address := address);
    FilterAgreeing(pets, p => Keep(p, q'), p => Keep(p, q));
  }

  /** Filling in one more field can only narrow the list. */
  lemma MoreFieldsNarrow(pets: seq<ClientPet>, q: SearchParams, species: string, p: ClientPet)
    requires q.species == ""
    requires p in FilteredPets(pets, q.(species := species))
    ensures p in FilteredPets(pets, q)
  {
  }
}
