/**
 * The pet service over the pet repository.  The repository is the `pets`
 * map of a `PetStore`; the id the database assigns to a new row is a
 * parameter.  An update request overwrites a field only when it is
 * non-empty (the weight only when positive).
 */
module PetService {
  import opened Common
  import opened AppErrors
  import opened Formats
  import opened Records
  import opened PetValidation

  /** The repository's error for a pet id with no row. */
  function PetNotFound(id: Uuid): (e: Error)
    ensures IsNotFound(e)
    ensures Text(e) == "pet with id " + UuidString(id) + " not found: resource not found"
  {
    WrapNotFound("pet", UuidString(id))
  }

  /** The stored weight after an update: only a positive weight is taken. */
  function ReplaceWeight(current: Option<real>, given: real): (r: Option<real>)
    ensures given > 0.0 ==> r == Some(given)
    ensures given <= 0.0 ==> r == current
  {
    if given > 0.0 then Some(given) else current
  }

  /** The pet CreatePet inserts: owner, number, name, species, breed and gender from the request; the rest empty. */
  predicate CreatedPet(pet: Pet, req: PetRequest, id: Uuid) {
    && pet.id == id
    && ParseUuid(req.ownerId) == Some(pet.ownerId)
    && pet.petNumber == req.petNumber && pet.name == req.name && pet.species == req.species
    && pet.breed == req.breed && pet.gender == req.gender
    && pet.weight == (if req.weight > 0.0 then Some(req.weight) else None)
    && pet.birthDate == (if req.birthDate == "" then None else ParseDate(req.birthDate))
    && pet.microchipId == "" && pet.environment == "" && pet.insuranceName == ""
    && pet.insuranceDetails == "" && pet.notes == "" && pet.lastVisit.None?
    && pet.status == "生存"
  }

  /** The pet UpdatePet saves: name, species, breed, gender, weight and birth date replaced when given; the rest as stored. */
  predicate UpdatedPet(pet: Pet, stored: Pet, req: PetRequest) {
    && pet.name == Replace(stored.name, req.name)
    && pet.species == Replace(stored.species, req.species)
    && pet.breed == Replace(stored.breed, req.breed)
    && pet.gender == Replace(stored.gender, req.gender)
    && pet.weight == ReplaceWeight(stored.weight, req.weight)
    && pet.birthDate == (if req.birthDate == "" then stored.birthDate else ParseDate(req.birthDate))
    && pet == stored.(name := pet.name, species := pet.species, breed := pet.breed, gender := pet.gender,
                      weight := pet.weight, birthDate := pet.birthDate)
  }

  /** The first four overwrites of UpdatePet: each non-empty descriptive field replaces the stored one. */
  method OverwriteDescription(stored: Pet, req: PetRequest) returns (pet: Pet)
    ensures pet == stored.(name := Replace(stored.name, req.name), species := Replace(stored.species, req.species),
                           breed := Replace(stored.breed, req.breed), gender := Replace(stored.gender, req.gender))
  {
    pet := stored;
    if req.name != "" {
      pet := pet.(name := req.name);
    }
    if req.species != "" {
      pet := pet.(species := req.species);
    }
    if req.breed != "" {
      pet := pet.(breed := req.breed);
    }
    if req.gender != "" {
      pet := pet.(gender := req.gender);
    }
  }

  /** The field-by-field overwrite of UpdatePet, on the fetched pet. */
  method ApplyPetRequest(stored: Pet, req: PetRequest) returns (r: Result<Pet, Error>)
    ensures r.Ok? ==> UpdatedPet(r.value, stored, req)
    ensures r.Err? ==> r.error == WrapInvalidInput("invalid birth date format, expected YYYY-MM-DD")
    ensures r.Err? <==> req.birthDate != "" && ParseDate(req.birthDate).None?
  {
    var pet := OverwriteDescription(stored, req);
    if req.weight > 0.0 {
      pet := pet.(weight := Some(req.weight));
    }
    if req.birthDate != "" {
      var birthDate := ParseDate(req.birthDate);
      if birthDate.None? {
        return Err(WrapInvalidInput("invalid birth date format, expected YYYY-MM-DD"));
      }
      pet := pet.(birthDate := birthDate);
    }
    return Ok(pet);
  }

  class PetStore {
    var pets: map<Uuid, Pet>

    constructor (pets: map<Uuid, Pet>)
      ensures this.pets == pets
    {
      this.pets := pets;
    }

    /** GetPetByID: a malformed id is InvalidInput before any lookup; a missing row is the repository's NotFound. */
    function GetPetByID(id: string): (r: Result<Pet, Error>)
      reads this
      ensures ParseUuid(id).None? ==> r == Err(WrapInvalidInput("invalid pet ID format"))
      ensures ParseUuid(id).Some? ==> (r.Ok? <==> ParseUuid(id).value in pets)
      ensures r.Ok? ==> r.value == pets[ParseUuid(id).value]
      ensures r.Err? ==> IsInvalidInput(r.error) || r.error == PetNotFound(ParseUuid(id).value)
    {
      match ParseUuid(id)
      case None => Err(WrapInvalidInput("invalid pet ID format"))
      case Some(u) => if u in pets then Ok(pets[u]) else Err(PetNotFound(u))
    }

    /**
     * CreatePet: validate, convert the owner id, copy the descriptive
     * fields, keep a positive weight, read the birth date, and insert.
     * A rejected request yields no pet and leaves the store alone.
     */
    method CreatePet(req: PetRequest, newId: Uuid) returns (r: Result<Pet, Error>)
      requires newId !in pets
      modifies this
      ensures ValidateCreatePet(req).Some? ==> r == Err(ValidateCreatePet(req).value) && pets == old(pets)
      ensures r.Err? ==> pets == old(pets) && IsInvalidInput(r.error)
      ensures r.Ok? <==> AcceptableCreate(req)
      ensures r.Ok? ==> CreatedPet(r.value, req, newId)
      ensures r.Ok? ==> pets == old(pets)[newId := r.value]
    {
      var err := ValidateCreatePet(req);
      if err.Some? {
        return Err(err.value);
      }
      var ownerId := ParseUuid(req.ownerId);
      if ownerId.None? {
        return Err(WrapInvalidInput("invalid owner ID format"));
      }
      var pet := Pet(newId, ownerId.value, req.petNumber, req.name, req.species, req.breed, req.gender,
                     None, None, "", "", "生存", "", "", None, "");
      if req.weight > 0.0 {
        pet := pet.(weight := Some(req.weight));
      }
      if req.birthDate != "" {
        var birthDate := ParseDate(req.birthDate);
        if birthDate.None? {
          return Err(WrapInvalidInput("invalid birth date format, expected YYYY-MM-DD"));
        }
        pet := pet.(birthDate := birthDate);
      }
      pets := pets[newId := pet];
      return Ok(pet);
    }

    /**
     * UpdatePet: validate, fetch (a fetch error is returned as it is and
     * nothing is saved), replace the non-empty fields, and save.
     */
    method UpdatePet(id: string, req: PetRequest) returns (r: Result<Pet, Error>)
      modifies this
      ensures r.Err? ==> pets == old(pets)
      ensures ValidateUpdatePet(req).Some? ==> r == Err(ValidateUpdatePet(req).value)
      ensures ValidateUpdatePet(req).None? && old(GetPetByID(id)).Err? ==> r == Err(old(GetPetByID(id)).error)
      ensures r.Ok? <==> AcceptableUpdate(req) && old(GetPetByID(id)).Ok?
      ensures r.Ok? ==> ParseUuid(id).Some? && ParseUuid(id).value in old(pets)
      ensures r.Ok? ==> UpdatedPet(r.value, old(pets)[ParseUuid(id).value], req)
      ensures r.Ok? ==> pets == old(pets)[ParseUuid(id).value := r.value]
    {
      var err := ValidateUpdatePet(req);
      if err.Some? {
        return Err(err.value);
      }
      var fetched := GetPetByID(id);
      if fetched.Err? {
        return Err(fetched.error);
      }
      var applied := ApplyPetRequest(fetched.value, req);
      if applied.Err? {
        return applied;
      }
      var pet := applied.value;
      pets := pets[ParseUuid(id).value := pet];
      return Ok(pet);
    }

    /** DeletePet: a malformed id is InvalidInput; deleting no row is the repository's NotFound. */
    method DeletePet(id: string) returns (err: Option<Error>)
      modifies this
      ensures ParseUuid(id).None? ==> err == Some(WrapInvalidInput("invalid pet ID format"))
      ensures ParseUuid(id).Some? && ParseUuid(id).value !in old(pets) ==> err == Some(PetNotFound(ParseUuid(id).value))
      ensures ParseUuid(id).Some? && ParseUuid(id).value in old(pets) ==> err.None?
      ensures err.Some? ==> pets == old(pets)
      ensures err.None? ==>
        && ParseUuid(id).Some? && ParseUuid(id).value in old(pets)
        && pets == old(pets) - {ParseUuid(id).value}
    {
      var uid := ParseUuid(id);
      if uid.None? {
        return Some(WrapInvalidInput("invalid pet ID format"));
      }
      if uid.value !in pets {
        return Some(PetNotFound(uid.value));
      }
      pets := pets - {uid.value};
      return None;
    }
  }

  /** Updating only the name leaves the species, and every other field, as stored. */
  lemma NameUpdateKeepsSpecies(pet: Pet, stored: Pet, req: PetRequest)
    requires UpdatedPet(pet, stored, req)
    requires req.species == "" && req.breed == "" && req.gender == "" && req.weight <= 0.0 && req.birthDate == ""
    ensures pet == stored.(name := Replace(stored.name, req.name))
  {
  }

  /** Update cannot clear a field: an all-empty request saves the stored pet unchanged. */
  lemma EmptyUpdateKeepsPet(pet: Pet, stored: Pet, req: PetRequest)
    requires UpdatedPet(pet, stored, req)
    requires req.name == "" && req.species == "" && req.breed == "" && req.gender == ""
    requires req.weight <= 0.0 && req.birthDate == ""
    ensures pet == stored
  {
  }

  /** Updating a pet with what it already holds gives it back: the update is idempotent. */
  lemma UpdateIdempotent(once: Pet, twice: Pet, stored: Pet, req: PetRequest)
    requires UpdatedPet(once, stored, req) && UpdatedPet(twice, once, req)
    ensures twice == once
  {
  }
}
