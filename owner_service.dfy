/**
 * The owner service over the owner repository.  Unlike the pet service it
 * answers a malformed id with the bare ErrInvalidInput sentinel, and it
 * recognises a missing owner by the words "not found" in the repository's
 * error text rather than by the error's kind.  Create calls no validator.
 */
module OwnerService {
  import opened Common
  import opened AppErrors
  import opened ErrorResponses
  import opened Formats
  import opened Records

  /** gorm.ErrRecordNotFound, an error that wraps nothing. */
  const RecordNotFound: Error := Plain("record not found")

  /** The repository's error for an owner id with no row. */
  function OwnerMissing(): (e: Error)
    ensures Text(e) == "owner not found: record not found"
    ensures !IsNotFound(e)
  {
    Wrapped("owner not found", RecordNotFound)
  }

  /**
   * How the service reads a repository lookup error: any error whose text
   * mentions "not found" becomes ErrNotFound; any other is kept.
   */
  function NotFoundByText(e: Error): (r: Error)
    ensures Contains(Text(e), "not found") ==> r == Sentinel(NotFound)
    ensures !Contains(Text(e), "not found") ==> r == e
  {
    if Contains(Text(e), "not found") then Sentinel(NotFound) else e
  }

  /** The repository's miss is turned into ErrNotFound, which the handler answers with 404. */
  lemma MissingOwnerIsNotFound()
    ensures NotFoundByText(OwnerMissing()) == Sentinel(NotFound)
    ensures HandleError(NotFoundByText(OwnerMissing())).status == 404
  {
    assert OccursAt(Text(OwnerMissing()), "not found", 6);
  }

  /**
   * The match is on text alone: a failure that is not a miss but whose
   * message mentions "not found" (a missing table, say) is reported as a
   * missing owner too.
   */
  lemma TextDecidesNotKind(cause: string)
    ensures NotFoundByText(Wrapped("failed to get owner by id", Plain(cause + "not found"))) == Sentinel(NotFound)
  {
    var e := Wrapped("failed to get owner by id", Plain(cause + "not found"));
    assert Text(e) == "failed to get owner by id: " + cause + "not found";
    assert OccursAt(Text(e), "not found", |Text(e)| - 9);
  }

  /** Every mapped error is either the sentinel or the error the repository gave. */
  lemma NotFoundByTextKeepsOrReplaces(e: Error)
    ensures NotFoundByText(e) == Sentinel(NotFound) || NotFoundByText(e) == e
    ensures IsNotFound(NotFoundByText(e)) <==> IsNotFound(e) || Contains(Text(e), "not found")
  {
    assert Chain(Sentinel(NotFound)) == [Sentinel(NotFound)];
  }

  /** The owner a create request describes, its fields copied verbatim. */
  function OwnerFrom(req: OwnerRequest, id: Uuid): (o: Owner)
    ensures o.id == id
    ensures OwnerRequest(o.name, o.nameKana, o.phone, o.email, o.address, o.notes) == req
  {
    Owner(id, req.name, req.nameKana, req.phone, req.email, req.address, req.notes)
  }

  /** The owner UpdateOwner saves: each non-empty request field replaces the stored one; the id is kept. */
  predicate UpdatedOwner(o: Owner, stored: Owner, req: OwnerRequest) {
    o == Owner(stored.id, Replace(stored.name, req.name), Replace(stored.nameKana, req.nameKana),
               Replace(stored.phone, req.phone), Replace(stored.email, req.email),
               Replace(stored.address, req.address), Replace(stored.notes, req.notes))
  }

  /** The six conditional overwrites of UpdateOwner, on the fetched owner. */
  method OverwriteOwner(stored: Owner, req: OwnerRequest) returns (o: Owner)
    ensures UpdatedOwner(o, stored, req)
  {
    o := stored;
    if req.name != "" {
      o := o.(name := req.name);
    }
    if req.nameKana != "" {
      o := o.(nameKana := req.nameKana);
    }
    if req.phone != "" {
      o := o.(phone := req.phone);
    }
    if req.email != "" {
      o := o.(email := req.email);
    }
    if req.address != "" {
      o := o.(address := req.address);
    }
    if req.notes != "" {
      o := o.(notes := req.notes);
    }
  }

  /** A request with every field empty saves the stored owner unchanged: update cannot clear a field. */
  lemma EmptyUpdateKeepsOwner(o: Owner, stored: Owner)
    requires UpdatedOwner(o, stored, OwnerRequest("", "", "", "", "", ""))
    ensures o == stored
  {
  }

  /** Applying the same update twice gives what applying it once gives. */
  lemma UpdateIdempotent(once: Owner, twice: Owner, stored: Owner, req: OwnerRequest)
    requires UpdatedOwner(once, stored, req) && UpdatedOwner(twice, once, req)
    ensures twice == once
  {
  }

  class OwnerStore {
    var owners: map<Uuid, Owner>

    constructor (owners: map<Uuid, Owner>)
      ensures this.owners == owners
    {
      this.owners := owners;
    }

    /**
     * The repository's lookup by parsed id.  `fault` is the error the
     * database reports, if any (a lost connection, say); the database is
     * not part of this model, so its failures are a parameter.
     */
    function FindOwner(uid: Uuid, fault: Option<Error>): (r: Result<Owner, Error>)
      reads this
      ensures r.Ok? <==> fault.None? && uid in owners
      ensures r.Ok? ==> r.value == owners[uid]
      ensures fault.Some? ==> r == Err(Wrapped("failed to get owner by id", fault.value))
      ensures fault.None? && r.Err? ==> r.error == OwnerMissing()
    {
      if fault.Some? then Err(Wrapped("failed to get owner by id", fault.value))
      else if uid in owners then Ok(owners[uid])
      else Err(OwnerMissing())
    }

    /** GetOwnerByID: a malformed id is the bare ErrInvalidInput; an error mentioning "not found" is ErrNotFound. */
    function GetOwnerByID(id: string, fault: Option<Error>): (r: Result<Owner, Error>)
      reads this
      ensures ParseUuid(id).None? ==> r == Err(Sentinel(InvalidInput))
      ensures ParseUuid(id).Some? ==> (r.Ok? <==> fault.None? && ParseUuid(id).value in owners)
      ensures r.Ok? ==> r.value == owners[ParseUuid(id).value]
      ensures ParseUuid(id).Some? && fault.None? && r.Err? ==> r.error == Sentinel(NotFound)
      ensures ParseUuid(id).Some? && fault.Some? ==> r.error == NotFoundByText(Wrapped("failed to get owner by id", fault.value))
    {
      match ParseUuid(id)
      case None => Err(Sentinel(InvalidInput))
      case Some(uid) =>
        var found := FindOwner(uid, fault);
        if found.Err? then
          MissingOwnerIsNotFound();
          Err(NotFoundByText(found.error))
        else found
    }

    /** CreateOwner: the request is stored verbatim, with no validation, under the id the database assigns. */
    method CreateOwner(req: OwnerRequest, newId: Uuid) returns (o: Owner)
      requires newId !in owners
      modifies this
      ensures o == OwnerFrom(req, newId)
      ensures owners == old(owners)[newId := o]
    {
      o := Owner(newId, req.name, req.nameKana, req.phone, req.email, req.address, req.notes);
      owners := owners[newId := o];
    }

    /** UpdateOwner: parse, fetch (a miss is ErrNotFound), overwrite the non-empty fields, and save. */
    method UpdateOwner(id: string, req: OwnerRequest, fault: Option<Error>) returns (r: Result<Owner, Error>)
      modifies this
      ensures r.Err? ==> owners == old(owners)
      ensures r.Ok? <==> old(GetOwnerByID(id, fault)).Ok?
      ensures old(GetOwnerByID(id, fault)).Err? && old(GetOwnerByID(id, fault)).error in {Sentinel(InvalidInput), Sentinel(NotFound)}
        ==> r == old(GetOwnerByID(id, fault))
      ensures ParseUuid(id).Some? && fault.Some? && !Contains(Text(Wrapped("failed to get owner by id", fault.value)), "not found")
        ==> r == Err(Wrapped("failed to find owner for update", Wrapped("failed to get owner by id", fault.value)))
      ensures r.Ok? ==> UpdatedOwner(r.value, old(owners)[ParseUuid(id).value], req)
      ensures r.Ok? ==> owners == old(owners)[ParseUuid(id).value := r.value]
    {
      var uid := ParseUuid(id);
      if uid.None? {
        return Err(Sentinel(InvalidInput));
      }
      var found := FindOwner(uid.value, fault);
      if found.Err? {
        MissingOwnerIsNotFound();
        if Contains(Text(found.error), "not found") {
          return Err(Sentinel(NotFound));
        }
        return Err(Wrap(Some(found.error), "failed to find owner for update").value);
      }
      var o := OverwriteOwner(found.value, req);
      owners := owners[uid.value := o];
      return Ok(o);
    }

    /** DeleteOwner: parse, check that the owner exists (a miss is ErrNotFound), then delete. */
    method DeleteOwner(id: string, fault: Option<Error>) returns (err: Option<Error>)
      modifies this
      ensures err.Some? ==> owners == old(owners) && old(GetOwnerByID(id, fault)) == Err(err.value)
      ensures err.None? <==> old(GetOwnerByID(id, fault)).Ok?
      ensures err.None? ==> owners == old(owners) - {ParseUuid(id).value}
    {
      var uid := ParseUuid(id);
      if uid.None? {
        return Some(Sentinel(InvalidInput));
      }
      var found := FindOwner(uid.value, fault);
      if found.Err? {
        MissingOwnerIsNotFound();
        if Contains(Text(found.error), "not found") {
          return Some(Sentinel(NotFound));
        }
        return Some(found.error);
      }
      owners := owners - {uid.value};
      return None;
    }
  }

  /** With the database answering, every failed owner lookup reaches the client as 400 or 404, never as 500. */
  lemma LookupFailureStatus(store: OwnerStore, id: string)
    requires store.GetOwnerByID(id, None).Err?
    ensures HandleError(store.GetOwnerByID(id, None).error).status == (if ParseUuid(id).None? then 400 else 404)
  {
    assert Chain(Sentinel(InvalidInput)) == [Sentinel(InvalidInput)];
    assert Chain(Sentinel(NotFound)) == [Sentinel(NotFound)];
  }
}
