/**
 * Validation of pet requests.  Each check is a guard that returns at once
 * with an InvalidInput error carrying its message, so a request is rejected
 * for its first failing check only.  Lengths are Go byte lengths.
 */
module PetValidation {
  import opened Common
  import opened AppErrors
  import opened ErrorResponses
  import opened Formats
  import opened Records

  /** The fixed vocabularies of the optional enumerated fields. */
  predicate IsGender(s: string) {
    s == "雄" || s == "雌" || s == "不明"
  }

  predicate IsEnvironment(s: string) {
    s == "室内" || s == "室外" || s == "混合"
  }

  predicate IsLifeStatus(s: string) {
    s == "生存" || s == "死亡"
  }

  /** The owner id parses as a UUID in any of the forms google/uuid accepts. */
  predicate IsUuidText(s: string) {
    ParseUuid(s).Some?
  }

  /** The birth date reads with the layout "2006-01-02". */
  predicate IsBirthDate(s: string) {
    ParseDate(s).Some?
  }

  /** The largest weight accepted, in kilograms. */
  const MaxWeight: real := 999.99

  /** The checks of the animal's description both validators share: breed, gender and weight. */
  function CheckAnimalFields(req: PetRequest): (r: Option<Error>)
    ensures r.None? <==> AcceptableAnimalFields(req)
    ensures r.Some? ==> r.value.App? && IsInvalidInput(r.value)
  {
    if req.breed != "" && Utf8Len(req.breed) > 100 then
      Some(WrapInvalidInput("pet breed must be less than 100 characters"))
    else if req.gender != "" && !IsGender(req.gender) then
      Some(WrapInvalidInput("pet gender must be '雄', '雌', or '不明'"))
    else if req.weight < 0.0 then
      Some(WrapInvalidInput("pet weight cannot be negative"))
    else if req.weight > MaxWeight then
      Some(WrapInvalidInput("pet weight must be less than 1000"))
    else None
  }

  /** The owner checks: the owner id is required on create only, and a given one must parse as a UUID. */
  function CheckOwner(ownerId: string, ownerRequired: bool): (r: Option<Error>)
    ensures r.None? <==> AcceptableOwner(ownerId, ownerRequired)
    ensures r.Some? ==> r.value.App? && IsInvalidInput(r.value)
  {
    if ownerRequired && ownerId == "" then
      Some(WrapInvalidInput("owner ID is required"))
    else if (ownerRequired || ownerId != "") && !IsUuidText(ownerId) then
      Some(WrapInvalidInput("invalid owner ID format"))
    else None
  }

  /** The checks of the registration fields both validators share, the owner being required on create only. */
  function CheckRegistrationFields(req: PetRequest, ownerRequired: bool): (r: Option<Error>)
    ensures r.None? <==> AcceptableOwner(req.ownerId, ownerRequired) && AcceptableRegistrationFields(req)
    ensures r.Some? ==> r.value.App? && IsInvalidInput(r.value)
  {
    var owner := CheckOwner(req.ownerId, ownerRequired);
    if owner.Some? then owner
    else if req.birthDate != "" && !IsBirthDate(req.birthDate) then
      Some(WrapInvalidInput("invalid birth date format, expected YYYY-MM-DD"))
    else if req.microchipId != "" && Utf8Len(req.microchipId) > 50 then
      Some(WrapInvalidInput("microchip ID must be less than 50 characters"))
    else CheckEnvironmentAndStatus(req)
  }

  /** The two closed-set fields: environment and status are each empty or one of their few values. */
  function CheckEnvironmentAndStatus(req: PetRequest): (r: Option<Error>)
    ensures r.None? <==> (req.environment == "" || IsEnvironment(req.environment)) && (req.status == "" || IsLifeStatus(req.status))
    ensures r.Some? ==> r.value.App? && IsInvalidInput(r.value)
  {
    if req.environment != "" && !IsEnvironment(req.environment) then
      Some(WrapInvalidInput("environment must be '室内', '室外', or '混合'"))
    else if req.status != "" && !IsLifeStatus(req.status) then
      Some(WrapInvalidInput("status must be '生存' or '死亡'"))
    else None
  }

  /** The checks both validators share, from the breed onward, in source order. */
  function CheckOptionalFields(req: PetRequest, ownerRequired: bool): (r: Option<Error>)
    ensures r.None? <==> AcceptableOptionalFields(req) && AcceptableOwner(req.ownerId, ownerRequired)
    ensures r.Some? ==> r.value.App? && IsInvalidInput(r.value)
  {
    var animal := CheckAnimalFields(req);
    if animal.Some? then animal else CheckRegistrationFields(req, ownerRequired)
  }

  /** ValidateCreatePet: name and species are required; then the shared checks with the owner required. */
  function ValidateCreatePet(req: PetRequest): (r: Option<Error>)
    ensures r.None? <==> AcceptableCreate(req)
    ensures r.Some? ==> r.value.App? && IsInvalidInput(r.value)
  {
    if req.name == "" then Some(WrapInvalidInput("pet name is required"))
    else if Utf8Len(req.name) > 100 then Some(WrapInvalidInput("pet name must be less than 100 characters"))
    else if req.species == "" then Some(WrapInvalidInput("pet species is required"))
    else if Utf8Len(req.species) > 50 then Some(WrapInvalidInput("pet species must be less than 50 characters"))
    else CheckOptionalFields(req, true)
  }

  /** ValidateUpdatePet: every field is optional, and only a non-empty one is checked. */
  function ValidateUpdatePet(req: PetRequest): (r: Option<Error>)
    ensures r.None? <==> AcceptableUpdate(req)
    ensures r.Some? ==> r.value.App? && IsInvalidInput(r.value)
  {
    if req.name != "" && Utf8Len(req.name) > 100 then
      Some(WrapInvalidInput("pet name must be less than 100 characters"))
    else if req.species != "" && Utf8Len(req.species) > 50 then
      Some(WrapInvalidInput("pet species must be less than 50 characters"))
    else CheckOptionalFields(req, false)
  }

  /** The description fields both validators constrain alike. */
  predicate AcceptableAnimalFields(req: PetRequest) {
    && Utf8Len(req.breed) <= 100
    && (req.gender == "" || IsGender(req.gender))
    && 0.0 <= req.weight <= MaxWeight
  }

  /** The registration fields both validators constrain alike, apart from the owner. */
  predicate AcceptableRegistrationFields(req: PetRequest) {
    && (req.birthDate == "" || IsBirthDate(req.birthDate))
    && Utf8Len(req.microchipId) <= 50
    && (req.environment == "" || IsEnvironment(req.environment))
    && (req.status == "" || IsLifeStatus(req.status))
  }

  /** The fields both validators constrain alike, stated field by field. */
  predicate AcceptableOptionalFields(req: PetRequest) {
    AcceptableAnimalFields(req) && AcceptableRegistrationFields(req)
  }

  /** The owner id is a UUID; when it is optional, it may also be left empty. */
  predicate AcceptableOwner(ownerId: string, required: bool) {
    IsUuidText(ownerId) || (!required && ownerId == "")
  }

  /** A create request the validator accepts: a name of 1-100 bytes, a species of 1-50 bytes, a UUID owner. */
  predicate AcceptableCreate(req: PetRequest) {
    && 1 <= Utf8Len(req.name) <= 100
    && 1 <= Utf8Len(req.species) <= 50
    && AcceptableOwner(req.ownerId, true)
    && AcceptableOptionalFields(req)
  }

  /** An update request the validator accepts: no field is required, the owner id is checked only when given. */
  predicate AcceptableUpdate(req: PetRequest) {
    && Utf8Len(req.name) <= 100
    && Utf8Len(req.species) <= 50
    && AcceptableOwner(req.ownerId, false)
    && AcceptableOptionalFields(req)
  }

  /** Anything the create validator accepts, the update validator accepts too. */
  lemma CreateAcceptedIsUpdateAccepted(req: PetRequest)
    ensures ValidateCreatePet(req).None? ==> ValidateUpdatePet(req).None?
  {
  }

  /** A request that changes nothing passes update validation. */
  lemma EmptyUpdatePasses()
    ensures ValidateUpdatePet(PetRequest("", "", "", "", "", "", "", 0.0, "", "", "", "", "", "")) == None
  {
  }

  /** Only the first failure is reported: a missing name wins over every later problem. */
  lemma MissingNameReportedFirst(req: PetRequest)
    requires req.name == ""
    ensures ValidateCreatePet(req) == Some(WrapInvalidInput("pet name is required"))
  {
  }

  /** A rejected pet request reaches the client as a 400 carrying the message. */
  lemma RejectionIsBadRequest(req: PetRequest)
    requires ValidateCreatePet(req).Some?
    ensures HandleError(ValidateCreatePet(req).value).status == 400
  {
    InvalidInputIsBadRequest(ValidateCreatePet(req).value);
  }
}
