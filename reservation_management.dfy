/**
 * The reservation calendar's bookkeeping: the overlap test that guards
 * every save and every drag, saving a form (editing one appointment or
 * creating one per selected pet), moving an appointment in time, changing
 * its status and deleting it.  Times are whole numbers (the Date's
 * millisecond count); ids generated at random are a parameter.
 */
module ReservationManagement {
  import opened Common
  import opened ClinicTypes

  /** A ReservationAppointment. `kind` is the TypeScript `type` field. */
  datatype Reservation = Reservation(
    id: string,
    start: int,
    end: int,
    ownerName: string,
    petName: string,
    visitType: string,
    kind: string,
    doctor: string,
    isDesignated: bool,
    status: string,
    notes: Option<string>,
    petId: Option<string>)

  /** A Partial<ReservationAppointment>, the form's data: every field may be absent. */
  datatype Draft = Draft(
    id: Option<string>,
    start: Option<int>,
    end: Option<int>,
    ownerName: Option<string>,
    petName: Option<string>,
    visitType: Option<string>,
    kind: Option<string>,
    doctor: Option<string>,
    isDesignated: Option<bool>,
    status: Option<string>,
    notes: Option<string>,
    petId: Option<string>)

  /** The doctor a save is checked against when nobody is named. */
  const DefaultDoctor := "医師A"

  /** JavaScript truthiness of an optional string: present and not empty. */
  predicate Truthy(s: Option<string>) {
    s.Some? && s.value != ""
  }

  /**
   * The two time ranges share some instant: the start of each lies before
   * the end of the other.  For ranges that are not empty this says the
   * later start lies before the earlier end, whichever range comes first.
   */
  predicate Overlap(start1: int, end1: int, start2: int, end2: int)
    ensures start1 < end1 && start2 < end2 ==>
              (Overlap(start1, end1, start2, end2) <==>
               (if start1 < start2 then start2 else start1) < (if end1 < end2 then end1 else end2))
  {
    start1 < end2 && end1 > start2
  }

  /** The callback of checkOverlap: an appointment that blocks the range for `doctor`. */
  predicate Clashes(app: Reservation, newStart: int, newEnd: int, doctor: string, excludeId: Option<string>) {
    && !(Truthy(excludeId) && app.id == excludeId.value)
    && app.status != "cancelled"
    && app.doctor == doctor
    && Overlap(newStart, newEnd, app.start, app.end)
  }

  /** checkOverlap: some appointment blocks the range for the doctor. */
  function CheckOverlap(apps: seq<Reservation>, newStart: int, newEnd: int, doctor: string, excludeId: Option<string>): (r: bool)
    ensures r <==> exists i | 0 <= i < |apps| :: Clashes(apps[i], newStart, newEnd, doctor, excludeId)
  {
    if apps == [] then false
    else if Clashes(apps[0], newStart, newEnd, doctor, excludeId) then true
    else
      var rest := CheckOverlap(apps[1..], newStart, newEnd, doctor, excludeId);
      assert forall i | 1 <= i < |apps| :: apps[i] == apps[1..][i - 1];
      rest
  }

  /** The instant `t` lies in the range from `start` up to, not including, `end`. */
  predicate During(t: int, start: int, end: int) {
    start <= t < end
  }

  /** Overlap means a common instant: two non-empty ranges overlap exactly when some time lies in both. */
  lemma OverlapIffCommonInstant(start1: int, end1: int, start2: int, end2: int)
    requires start1 < end1 && start2 < end2
    ensures Overlap(start1, end1, start2, end2) <==> exists t :: During(t, start1, end1) && During(t, start2, end2)
  {
    if Overlap(start1, end1, start2, end2) {
      var t := if start1 <= start2 then start2 else start1;
      assert During(t, start1, end1) && During(t, start2, end2);
    }
  }

  /** Back-to-back appointments do not clash: a range that ends when another starts does not overlap it. */
  lemma AdjacentRangesDoNotOverlap(start1: int, end1: int, end2: int)
    ensures !Overlap(start1, end1, end1, end2)
    ensures !Overlap(end1, end2, start1, end1)
  {
  }

  /**
   * Only the spelling "cancelled" frees the slot: an appointment whose
   * status is "canceled", the other spelling the status type allows, still
   * blocks it.
   */
  lemma CanceledSpellingStillBlocks(app: Reservation, newStart: int, newEnd: int)
    requires app.status == "canceled"
    requires Overlap(newStart, newEnd, app.start, app.end)
    ensures CheckOverlap([app], newStart, newEnd, app.doctor, None)
    ensures !CheckOverlap([app.(status := "cancelled")], newStart, newEnd, app.doctor, None)
  {
    assert Clashes(app, newStart, newEnd, app.doctor, None);
  }

  /**
   * An appointment never blocks its own move when its id is excluded, but
   * the exclusion needs a non-empty id: with id "" it blocks itself.
   */
  lemma ExclusionNeedsAnId(app: Reservation)
    requires app.start < app.end && app.status != "cancelled"
    ensures app.id != "" ==> !CheckOverlap([app], app.start, app.end, app.doctor, Some(app.id))
    ensures app.id == "" ==> CheckOverlap([app], app.start, app.end, app.doctor, Some(app.id))
  {
    if app.id == "" {
      assert Clashes([app][0], app.start, app.end, app.doctor, Some(app.id));
    }
  }

  /** The doctor a save is checked against: the form's, else the edited appointment's, else 医師A. */
  function TargetDoctor(data: Draft, editing: Option<Draft>): (doctor: string)
    ensures doctor != ""
    ensures Truthy(data.doctor) ==> doctor == data.doctor.value
  {
    if Truthy(data.doctor) then data.doctor.value
    else if editing.Some? && Truthy(editing.value.doctor) then editing.value.doctor.value
    else DefaultDoctor
  }

  /** The id excluded from the overlap test of a save: the edited appointment's, if any. */
  function EditingId(editing: Option<Draft>): Option<string> {
    if editing.Some? then editing.value.id else None
  }

  /** The save edits an existing appointment: one is being edited and it has an id. */
  predicate IsEdit(editing: Option<Draft>) {
    editing.Some? && Truthy(editing.value.id)
  }

  /** A save can proceed past its first guard: a start, an end and at least one pet. */
  predicate Ready(data: Draft, selected: seq<ClientPet>) {
    data.start.Some? && data.end.Some? && |selected| > 0
  }

  /** `{...app, ...data}`: each field the form holds replaces the stored one. */
  function Spread(app: Reservation, data: Draft): (r: Reservation)
    ensures data == Draft(None, None, None, None, None, None, None, None, None, None, None, None) ==> r == app
    ensures data.start.Some? ==> r.start == data.start.value
    ensures data.start.None? ==> r.start == app.start
    ensures data.doctor.None? ==> r.doctor == app.doctor
  {
    Reservation(
      data.id.GetOr(app.id), data.start.GetOr(app.start), data.end.GetOr(app.end),
      data.ownerName.GetOr(app.ownerName), data.petName.GetOr(app.petName),
      data.visitType.GetOr(app.visitType), data.kind.GetOr(app.kind), data.doctor.GetOr(app.doctor),
      data.isDesignated.GetOr(app.isDesignated), data.status.GetOr(app.status),
      if data.notes.Some? then data.notes else app.notes,
      if data.petId.Some? then data.petId else app.petId)
  }

  /** The edited appointment: the form spread over it, then the primary pet's owner, name and id. */
  function Edited(app: Reservation, data: Draft, pet: ClientPet): (r: Reservation)
    ensures r.ownerName == pet.ownerName && r.petName == pet.name && r.petId == Some(pet.id)
    ensures r.end == data.end.GetOr(app.end) && r.status == data.status.GetOr(app.status)
  {
    Spread(app, data).(ownerName := pet.ownerName, petName := pet.name, petId := Some(pet.id))
  }

  /** The list after an edit: every appointment with the edited id is edited, the others kept. */
  function EditedAll(apps: seq<Reservation>, id: string, data: Draft, pet: ClientPet): seq<Reservation> {
    seq(|apps|, i requires 0 <= i < |apps| => if apps[i].id == id then Edited(apps[i], data, pet) else apps[i])
  }

  /** An edit keeps the list's length and order and touches only the appointments with the edited id. */
  lemma EditChangesOnlyEdited(apps: seq<Reservation>, id: string, data: Draft, pet: ClientPet)
    ensures |EditedAll(apps, id, data, pet)| == |apps|
    ensures forall i | 0 <= i < |apps| && apps[i].id != id :: EditedAll(apps, id, data, pet)[i] == apps[i]
    ensures forall i | 0 <= i < |apps| && apps[i].id == id ::
      EditedAll(apps, id, data, pet)[i].petId == Some(pet.id) && EditedAll(apps, id, data, pet)[i].petName == pet.name
  {
  }

  /**
   * A created appointment: the random id, then the form's fields, then the
   * pet's owner, name and id.  A field the form left out takes a blank
   * value here (see the README).
   */
  function Created(data: Draft, pet: ClientPet, freshId: string): (r: Reservation)
    ensures r.petId == Some(pet.id) && r.ownerName == pet.ownerName && r.petName == pet.name
    ensures data.start.Some? ==> r.start == data.start.value
    ensures data.end.Some? ==> r.end == data.end.value
    ensures data.id.None? ==> r.id == freshId
  {
    Reservation(
      data.id.GetOr(freshId), data.start.GetOr(0), data.end.GetOr(0), pet.ownerName, pet.name,
      data.visitType.GetOr(""), data.kind.GetOr(""), data.doctor.GetOr(""), data.isDesignated.GetOr(false),
      data.status.GetOr(""), data.notes, Some(pet.id))
  }

  /** The appointments a create adds, one per selected pet in selection order. */
  function CreatedAll(data: Draft, selected: seq<ClientPet>, freshIds: seq<string>): seq<Reservation>
    requires |freshIds| == |selected|
  {
    seq(|selected|, k requires 0 <= k < |selected| => Created(data, selected[k], freshIds[k]))
  }

  /** A create adds exactly one appointment per selected pet, for that pet, at the form's time. */
  lemma CreateOnePerPet(data: Draft, selected: seq<ClientPet>, freshIds: seq<string>)
    requires |freshIds| == |selected| && data.start.Some? && data.end.Some?
    ensures |CreatedAll(data, selected, freshIds)| == |selected|
    ensures forall k | 0 <= k < |selected| ::
      && CreatedAll(data, selected, freshIds)[k].petId == Some(selected[k].id)
      && CreatedAll(data, selected, freshIds)[k].start == data.start.value
      && CreatedAll(data, selected, freshIds)[k].end == data.end.value
  {
  }

  /**
   * A create never double-books the named doctor: when the overlap test
   * passed, no appointment it adds overlaps a live appointment of that
   * doctor already on the list.
   */
  lemma CreateDoesNotDoubleBook(apps: seq<Reservation>, data: Draft, selected: seq<ClientPet>, freshIds: seq<string>,
                                editing: Option<Draft>, k: nat, i: nat)
    requires |freshIds| == |selected| && Ready(data, selected) && !IsEdit(editing)
    requires !CheckOverlap(apps, data.start.value, data.end.value, TargetDoctor(data, editing), EditingId(editing))
    requires Truthy(data.doctor) && data.id.None?
    requires k < |selected| && i < |apps|
    requires apps[i].status != "cancelled" && apps[i].doctor == data.doctor.value
    ensures CreatedAll(data, selected, freshIds)[k].doctor == apps[i].doctor
    ensures !Overlap(CreatedAll(data, selected, freshIds)[k].start, CreatedAll(data, selected, freshIds)[k].end, apps[i].start, apps[i].end)
  {
    assert !Clashes(apps[i], data.start.value, data.end.value, TargetDoctor(data, editing), EditingId(editing));
  }

  /**
   * But the appointments of one create are not checked against each
   * other: two pets booked together get two appointments for the same
   * doctor at the same time, and the overlap test finds the first when the
   * second is checked.
   */
  lemma CreatedSiblingsOverlap(data: Draft, selected: seq<ClientPet>, freshIds: seq<string>)
    requires |freshIds| == |selected| && |selected| >= 2 && Ready(data, selected)
    requires data.start.value < data.end.value && data.status != Some("cancelled")
    ensures CheckOverlap(CreatedAll(data, selected, freshIds)[..1], data.start.value, data.end.value,
                         CreatedAll(data, selected, freshIds)[1].doctor, None)
  {
    var made := CreatedAll(data, selected, freshIds);
    assert made[..1][0] == Created(data, selected[0], freshIds[0]);
    assert Clashes(made[..1][0], data.start.value, data.end.value, made[1].doctor, None);
  }

  /** The list after a drag: the appointment with the id gets the new start and end; nothing else changes. */
  function Rescheduled(apps: seq<Reservation>, id: string, newStart: int, newEnd: int): (r: seq<Reservation>)
    ensures |r| == |apps|
    ensures forall i | 0 <= i < |apps| :: r[i] == if apps[i].id == id then apps[i].(start := newStart, end := newEnd) else apps[i]
  {
    seq(|apps|, i requires 0 <= i < |apps| => if apps[i].id == id then apps[i].(start := newStart, end := newEnd) else apps[i])
  }

  /** Rescheduling to the same slot twice is rescheduling once. */
  lemma RescheduleIdempotent(apps: seq<Reservation>, id: string, newStart: int, newEnd: int)
    ensures Rescheduled(Rescheduled(apps, id, newStart, newEnd), id, newStart, newEnd) == Rescheduled(apps, id, newStart, newEnd)
  {
  }

  /** The list after a status change: every appointment with the id becomes the given appointment with the new status. */
  function WithStatus(apps: seq<Reservation>, app: Reservation, status: string): (r: seq<Reservation>)
    ensures |r| == |apps|
    ensures forall i | 0 <= i < |apps| :: r[i] == if apps[i].id == app.id then app.(status := status) else apps[i]
  {
    seq(|apps|, i requires 0 <= i < |apps| => if apps[i].id == app.id then app.(status := status) else apps[i])
  }

  /** The list after a delete: the appointments without the id, in order; an id nobody has changes nothing. */
  function Deleted(apps: seq<Reservation>, id: string): (r: seq<Reservation>)
    ensures forall a :: a in r <==> a in apps && a.id != id
    ensures (forall i | 0 <= i < |apps| :: apps[i].id != id) ==> r == apps
  {
    if forall i | 0 <= i < |apps| :: apps[i].id != id then
      FilterKeepsAll(apps, (a: Reservation) => a.id != id);
      Filter(apps, (a: Reservation) => a.id != id)
    else
      Filter(apps, (a: Reservation) => a.id != id)
  }

  /** A delete removes exactly the appointments with the id and keeps the rest in order. */
  lemma DeleteRemovesExactlyId(apps: seq<Reservation>, id: string)
    ensures forall a :: a in Deleted(apps, id) <==> a in apps && a.id != id
    ensures IsSubsequence(Deleted(apps, id), apps)
  {
    FilterIsSubsequence(apps, (a: Reservation) => a.id != id);
  }

  /** A cancelled appointment's slot is free again once it is deleted; deleting does not create clashes. */
  lemma DeleteNeverAddsClash(apps: seq<Reservation>, id: string, newStart: int, newEnd: int, doctor: string, excludeId: Option<string>)
    ensures CheckOverlap(Deleted(apps, id), newStart, newEnd, doctor, excludeId) ==> CheckOverlap(apps, newStart, newEnd, doctor, excludeId)
  {
    if CheckOverlap(Deleted(apps, id), newStart, newEnd, doctor, excludeId) {
      var d := Deleted(apps, id);
      var j :| 0 <= j < |d| && Clashes(d[j], newStart, newEnd, doctor, excludeId);
      assert d[j] in apps;
      var i :| 0 <= i < |apps| && apps[i] == d[j];
    }
  }

  /** The appointment list of the reservation screen. */
  class ReservationBook {
    var appointments: seq<Reservation>

    constructor (initial: seq<Reservation>)
      ensures appointments == initial
    {
      appointments := initial;
    }

    /**
     * handleSave: without a start, an end or a selected pet nothing
     * happens; an overlap for the target doctor is refused; an edit
     * rewrites the edited appointment for the first selected pet; a create
     * appends one appointment per selected pet.  The random ids are
     * `freshIds`, one per pet.
     */
    method Save(data: Draft, selected: seq<ClientPet>, editing: Option<Draft>, freshIds: seq<string>) returns (saved: bool)
      requires |freshIds| == |selected|
      modifies this
      ensures saved <==> (Ready(data, selected) &&
        !CheckOverlap(old(appointments), data.start.value, data.end.value, TargetDoctor(data, editing), EditingId(editing)))
      ensures !saved ==> appointments == old(appointments)
      ensures saved && IsEdit(editing) ==> appointments == EditedAll(old(appointments), editing.value.id.value, data, selected[0])
      ensures saved && !IsEdit(editing) ==> appointments == old(appointments) + CreatedAll(data, selected, freshIds)
    {
      if data.start.None? || data.end.None? || |selected| == 0 {
        return false;
      }
      var doctor := TargetDoctor(data, editing);
      var excludeId := if editing.Some? then editing.value.id else None;
      var hasOverlap := CheckOverlap(appointments, data.start.value, data.end.value, doctor, excludeId);
      if hasOverlap {
        return false;
      }
      if editing.Some? && Truthy(editing.value.id) {
        appointments := EditedAll(appointments, editing.value.id.value, data, selected[0]);
      } else {
        var added := NewAppointments(data, selected, freshIds);
        appointments := appointments + added;
      }
      return true;
    }

    /** handleAppointmentUpdate: a drag to a slot that clashes for the doctor is refused; otherwise only the times change. */
    method Reschedule(app: Reservation, newStart: int, newEnd: int) returns (moved: bool)
      modifies this
      ensures moved <==> !CheckOverlap(old(appointments), newStart, newEnd, app.doctor, Some(app.id))
      ensures moved ==> appointments == Rescheduled(old(appointments), app.id, newStart, newEnd)
      ensures !moved ==> appointments == old(appointments)
    {
      var hasOverlap := CheckOverlap(appointments, newStart, newEnd, app.doctor, Some(app.id));
      if hasOverlap {
        return false;
      }
      appointments := Rescheduled(appointments, app.id, newStart, newEnd);
      return true;
    }

    /** handleStatusChange: the appointment shown, with its new status, replaces every entry with its id. */
    method ChangeStatus(app: Reservation, status: string) returns (updated: Reservation)
      modifies this
      ensures updated == app.(status := status)
      ensures appointments == WithStatus(old(appointments), app, status)
    {
      updated := app.(status := status);
      appointments := WithStatus(appointments, app, status);
    }

    /** handleDelete: after the user confirms, every appointment with the id is removed. */
    method Delete(app: Reservation, confirmed: bool)
      modifies this
      ensures confirmed ==> appointments == Deleted(old(appointments), app.id)
      ensures !confirmed ==> appointments == old(appointments)
    {
      if confirmed {
        appointments := Filter(appointments, (a: Reservation) => a.id != app.id);
      }
    }
  }

  /** The `forEach` of a create: one new appointment pushed per selected pet. */
  method NewAppointments(data: Draft, selected: seq<ClientPet>, freshIds: seq<string>) returns (added: seq<Reservation>)
    requires |freshIds| == |selected|
    ensures added == CreatedAll(data, selected, freshIds)
  {
    added := [];
    var k := 0;
    while k < |selected|
      invariant 0 <= k <= |selected|
      invariant added == CreatedAll(data, selected[..k], freshIds[..k])
    {
      added := added + [Created(data, selected[k], freshIds[k])];
      k := k + 1;
    }
    assert selected[..k] == selected && freshIds[..k] == freshIds;
  }
}
