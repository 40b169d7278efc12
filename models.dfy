/**
 * The backend's stored entities and request bodies.  Identifiers are parsed
 * UUIDs, times are parsed DateTimes, optional columns are Options, and the
 * JSON body of a partial medical-record update has one Option per field
 * (an absent field decodes to a nil pointer).
 */
module Records {
  import opened Common
  import opened Formats

  datatype MedicalRecord = MedicalRecord(
    id: Uuid,
    recordNo: string,
    petId: Uuid,
    ownerId: Uuid,
    doctorId: Option<Uuid>,
    visitDate: DateTime,
    visitType: string,
    chiefComplaint: string,
    subjective: string,
    objective: string,
    assessment: string,
    plan: string,
    surgeryNotes: string,
    diagnosis: string,
    treatment: string,
    prescription: string,
    notes: string,
    status: string)

  datatype CreateMedicalRecordRequest = CreateMedicalRecordRequest(
    petId: string,
    ownerId: string,
    doctorId: string,
    visitDate: string,
    visitType: string,
    chiefComplaint: string,
    subjective: string,
    objective: string,
    assessment: string,
    plan: string,
    surgeryNotes: string,
    diagnosis: string,
    treatment: string,
    prescription: string,
    notes: string,
    status: string)

  datatype UpdateMedicalRecordRequest = UpdateMedicalRecordRequest(
    petId: Option<string>,
    ownerId: Option<string>,
    doctorId: Option<string>,
    visitDate: Option<string>,
    visitType: Option<string>,
    chiefComplaint: Option<string>,
    subjective: Option<string>,
    objective: Option<string>,
    assessment: Option<string>,
    plan: Option<string>,
    surgeryNotes: Option<string>,
    diagnosis: Option<string>,
    treatment: Option<string>,
    prescription: Option<string>,
    notes: Option<string>,
    status: Option<string>)

  /** Weight in kilograms; the source's float64 is taken as an exact real. */
  datatype Pet = Pet(
    id: Uuid,
    ownerId: Uuid,
    petNumber: string,
    name: string,
    species: string,
    breed: string,
    gender: string,
    birthDate: Option<DateTime>,
    weight: Option<real>,
    microchipId: string,
    environment: string,
    status: string,
    insuranceName: string,
    insuranceDetails: string,
    lastVisit: Option<DateTime>,
    notes: string)

  /** The create and the update request bodies for a pet have the same fields; empty means absent. */
  datatype PetRequest = PetRequest(
    ownerId: string,
    petNumber: string,
    name: string,
    species: string,
    breed: string,
    gender: string,
    birthDate: string,
    weight: real,
    microchipId: string,
    environment: string,
    status: string,
    insuranceName: string,
    insuranceDetails: string,
    notes: string)

  datatype Owner = Owner(
    id: Uuid,
    name: string,
    nameKana: string,
    phone: string,
    email: string,
    address: string,
    notes: string)

  /** The create and the update request bodies for an owner have the same fields; empty means absent. */
  datatype OwnerRequest = OwnerRequest(
    name: string,
    nameKana: string,
    phone: string,
    email: string,
    address: string,
    notes: string)
}
