/**
 * The frontend's shared entity types.  Fields that only a view reads are
 * left out; identifiers are strings, as in the TypeScript types, and
 * optional properties are Options.
 */
module ClinicTypes {
  import opened Common

  /** A pet as the selection screens list it, with its owner's name and phone. */
  datatype ClientPet = ClientPet(
    id: string,
    ownerId: string,
    ownerName: string,
    phone: Option<string>,
    name: string,
    species: string)

  /** A trimming appointment; `date` is "YYYY-MM-DD" text. */
  datatype TrimmingRecord = TrimmingRecord(
    id: string,
    date: string,
    petNumber: string,
    petName: string,
    ownerName: string,
    species: string,
    staff: string,
    status: string)

  /** A catalogue entry of the settings masters (treatments, medicines, services, ...). */
  datatype MasterItem = MasterItem(
    id: string,
    code: string,
    name: string,
    category: Option<string>,
    price: int,
    status: string,
    description: Option<string>,
    inventoryId: Option<string>,
    defaultQuantity: Option<int>)

  /** A reception card on the dashboard board. */
  datatype Appointment = Appointment(
    id: string,
    time: string,
    ownerName: string,
    petType: string,
    petName: string,
    visitType: string,
    serviceType: string,
    nextAppointment: Option<string>,
    isDesignated: Option<bool>,
    doctor: Option<string>,
    petId: Option<string>)

  /** A board column: its workflow title and its cards, top to bottom. */
  datatype ColumnData = ColumnData(title: string, appointments: seq<Appointment>)
}
