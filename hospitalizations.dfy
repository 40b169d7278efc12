/**
 * The hospitalization list hook: filtering the stays by status and by a
 * case-insensitive search, and moving a pet to another cage, swapping cages
 * with the active stay that occupies it.
 */
module Hospitalizations {
  import opened Common
  import opened HospitalizationTypes
  import HospitalizationApi

  /** The status filter: "active" keeps stays in the hospital or home for a while; "all" and unknown filters keep every stay. */
  predicate PassesStatus(h: Hospitalization, statusFilter: string) {
    if statusFilter == "all" then true
    else if statusFilter == "active" then h.status == Active || h.status == TempDischarge
    else if statusFilter == "discharged" then h.status == Discharged
    else if statusFilter == "reserved" then h.status == Reserved
    else true
  }

  /** The search: the term occurs, ignoring case, in the owner's name, the pet's name or the stay's number. */
  predicate MatchesSearch(h: Hospitalization, searchTerm: string) {
    ContainsIgnoringCase(h.ownerName, searchTerm) ||
    ContainsIgnoringCase(h.petName, searchTerm) ||
    ContainsIgnoringCase(h.hospitalizationNo, searchTerm)
  }

  /** filteredHospitalizations: the stays passing the status filter and, for a non-empty term, the search, in list order. */
  function FilteredHospitalizations(hs: seq<Hospitalization>, searchTerm: string, statusFilter: string): (r: seq<Hospitalization>)
    ensures forall h :: h in r <==> h in hs && PassesStatus(h, statusFilter) && (searchTerm == "" || MatchesSearch(h, searchTerm))
    ensures IsSubsequence(r, hs)
  {
    var byStatus := if statusFilter != "all" then Filter(hs, (h: Hospitalization) => PassesStatus(h, statusFilter)) else hs;
    FilterIsSubsequence(hs, (h: Hospitalization) => PassesStatus(h, statusFilter));
    PrefixIsSubsequence(hs, |hs|);
    assert hs[..|hs|] == hs;
    var r := if searchTerm != "" then Filter(byStatus, (h: Hospitalization) => MatchesSearch(h, searchTerm)) else byStatus;
    FilterIsSubsequence(byStatus, (h: Hospitalization) => MatchesSearch(h, searchTerm));
    PrefixIsSubsequence(byStatus, |byStatus|);
    assert byStatus[..|byStatus|] == byStatus;
    SubsequenceTransitive(r, byStatus, hs);
    r
  }

  /** The default "active" filter keeps exactly the stays in the hospital or temporarily at home. */
  lemma ActiveFilterKeeps(hs: seq<Hospitalization>, h: Hospitalization)
    ensures h in FilteredHospitalizations(hs, "", "active") <==> h in hs && (h.status == Active || h.status == TempDischarge)
  {
  }

  /** With no filter and no term the list is shown as it is. */
  lemma NoFilterShowsAll(hs: seq<Hospitalization>)
    ensures FilteredHospitalizations(hs, "", "all") == hs
  {
  }

  /** The search ignores case: an upper-case term finds what its lower-case form finds. */
  lemma SearchIgnoresCase(h: Hospitalization, term: string)
    ensures MatchesSearch(h, term) <==> MatchesSearch(h, Lower(term))
  {
    LowerIdempotent(term);
  }

  lemma {:induction false} LowerIdempotent(s: string)
    ensures Lower(Lower(s)) == Lower(s)
  {
    if s != [] {
      LowerIdempotent(s[1..]);
      assert Lower(s) == [LowerChar(s[0])] + Lower(s[1..]);
      assert Lower(s)[1..] == Lower(s[1..]);
    }
  }

  // ---------------------------------------------------------------------------
  // movePet

  /** The stay the pet leaves from. */
  function SourceIndex(hs: seq<Hospitalization>, hospitalizationId: string): Option<nat> {
    FindIndex(hs, (h: Hospitalization) => h.id == hospitalizationId)
  }

  /** The first other active stay in the target cage. */
  function OccupantIndex(hs: seq<Hospitalization>, hospitalizationId: string, targetCageId: string): Option<nat> {
    FindIndex(hs, (h: Hospitalization) => h.cageId == Some(targetCageId) && h.status == Active && h.id != hospitalizationId)
  }

  /** The list after the optimistic update of a move. */
  function Moved(hs: seq<Hospitalization>, hospitalizationId: string, targetCageId: string): (r: seq<Hospitalization>)
    ensures |r| == |hs|
  {
    match SourceIndex(hs, hospitalizationId)
    case None => hs
    case Some(s) =>
      var source := hs[s];
      match OccupantIndex(hs, hospitalizationId, targetCageId)
      case Some(o) =>
        var t := FindIndex(hs, (h: Hospitalization) => h.id == hs[o].id);
        if t.None? then hs
        else hs[s := source.(cageId := Some(targetCageId))][t.value := hs[t.value].(cageId := Some(source.cageId.GetOr("")))]
      case None => hs[s := source.(cageId := Some(targetCageId))]
  }

  /** An unknown stay is not moved. */
  lemma MoveUnknownIsNoOp(hs: seq<Hospitalization>, hospitalizationId: string, targetCageId: string)
    requires forall i | 0 <= i < |hs| :: hs[i].id != hospitalizationId
    ensures Moved(hs, hospitalizationId, targetCageId) == hs
  {
  }

  /** A move into a cage no other active stay occupies changes the source's cage and nothing else. */
  lemma MoveToFreeCage(hs: seq<Hospitalization>, hospitalizationId: string, targetCageId: string, s: nat)
    requires s < |hs| && hs[s].id == hospitalizationId
    requires forall i | 0 <= i < s :: hs[i].id != hospitalizationId
    requires forall i | 0 <= i < |hs| :: !(hs[i].cageId == Some(targetCageId) && hs[i].status == Active && hs[i].id != hospitalizationId)
    ensures Moved(hs, hospitalizationId, targetCageId) == hs[s := hs[s].(cageId := Some(targetCageId))]
  {
    assert SourceIndex(hs, hospitalizationId) == Some(s);
  }

  /**
   * A move into a cage held by another active stay swaps the two: the pet
   * goes into the cage, the occupant into the pet's old cage (or none, ""),
   * and every other stay keeps its cage.  Stay ids are taken to be distinct.
   */
  lemma MoveSwapsWithOccupant(hs: seq<Hospitalization>, hospitalizationId: string, targetCageId: string, s: nat, o: nat)
    requires forall i, j | 0 <= i < j < |hs| :: hs[i].id != hs[j].id
    requires s < |hs| && hs[s].id == hospitalizationId
    requires o < |hs| && hs[o].cageId == Some(targetCageId) && hs[o].status == Active && hs[o].id != hospitalizationId
    requires forall i | 0 <= i < o :: !(hs[i].cageId == Some(targetCageId) && hs[i].status == Active && hs[i].id != hospitalizationId)
    ensures Moved(hs, hospitalizationId, targetCageId)[s] == hs[s].(cageId := Some(targetCageId))
    ensures Moved(hs, hospitalizationId, targetCageId)[o] == hs[o].(cageId := Some(hs[s].cageId.GetOr("")))
    ensures forall i | 0 <= i < |hs| && i != s && i != o :: Moved(hs, hospitalizationId, targetCageId)[i] == hs[i]
  {
    assert SourceIndex(hs, hospitalizationId) == Some(s);
    assert OccupantIndex(hs, hospitalizationId, targetCageId) == Some(o);
    assert FindIndex(hs, (h: Hospitalization) => h.id == hs[o].id) == Some(o);
  }

  /** The cages of the stays, in list order. */
  function Cages(hs: seq<Hospitalization>): (r: seq<Option<string>>)
    ensures |r| == |hs| && forall i | 0 <= i < |hs| :: r[i] == hs[i].cageId
  {
    seq(|hs|, i requires 0 <= i < |hs| => hs[i].cageId)
  }

  /** A swap of a caged pet with the occupant of the target cage hands cages around: no cage is gained or lost. */
  lemma SwapKeepsCages(hs: seq<Hospitalization>, hospitalizationId: string, targetCageId: string, s: nat, o: nat)
    requires forall i, j | 0 <= i < j < |hs| :: hs[i].id != hs[j].id
    requires s < |hs| && hs[s].id == hospitalizationId && hs[s].cageId.Some?
    requires o < |hs| && hs[o].cageId == Some(targetCageId) && hs[o].status == Active && hs[o].id != hospitalizationId
    requires forall i | 0 <= i < o :: !(hs[i].cageId == Some(targetCageId) && hs[i].status == Active && hs[i].id != hospitalizationId)
    ensures multiset(Cages(Moved(hs, hospitalizationId, targetCageId))) == multiset(Cages(hs))
  {
    MoveSwapsWithOccupant(hs, hospitalizationId, targetCageId, s, o);
    var m := Moved(hs, hospitalizationId, targetCageId);
    var c := Cages(hs);
    assert Cages(m) == c[s := c[o]][o := c[s]];
  }

  /** Merging a cage update sets the cage. */
  lemma CageUpdateSetsCage(h: Hospitalization, cageId: string)
    ensures Merged(h, CageUpdate(cageId)) == h.(cageId := Some(cageId))
  {
  }

  /**
   * The optimistic move agrees with the store: moving into a free cage is
   * the one cage update movePet sends, and a swap is its two updates, the
   * pet's first and then the occupant's.  Stay ids are taken to be distinct.
   */
  lemma MoveMatchesStoreUpdates(hs: seq<Hospitalization>, hospitalizationId: string, targetCageId: string)
    requires forall i, j | 0 <= i < j < |hs| :: hs[i].id != hs[j].id
    ensures OccupantIndex(hs, hospitalizationId, targetCageId).None? ==>
            Moved(hs, hospitalizationId, targetCageId) == HospitalizationApi.UpdatedStays(hs, hospitalizationId, CageUpdate(targetCageId))
    ensures SourceIndex(hs, hospitalizationId).Some? && OccupantIndex(hs, hospitalizationId, targetCageId).Some? ==>
            var s := SourceIndex(hs, hospitalizationId).value;
            var o := OccupantIndex(hs, hospitalizationId, targetCageId).value;
            Moved(hs, hospitalizationId, targetCageId) ==
              HospitalizationApi.UpdatedStays(HospitalizationApi.UpdatedStays(hs, hospitalizationId, CageUpdate(targetCageId)),
                                              hs[o].id, CageUpdate(hs[s].cageId.GetOr("")))
  {
    match SourceIndex(hs, hospitalizationId)
    case None =>
    case Some(s) =>
      CageUpdateSetsCage(hs[s], targetCageId);
      match OccupantIndex(hs, hospitalizationId, targetCageId)
      case None =>
      case Some(o) =>
        var first := HospitalizationApi.UpdatedStays(hs, hospitalizationId, CageUpdate(targetCageId));
        assert first == hs[s := hs[s].(cageId := Some(targetCageId))];
        assert first[o] == hs[o];
        assert forall i | 0 <= i < o :: first[i].id != hs[o].id;
        assert FindIndex(first, (h: Hospitalization) => h.id == hs[o].id) == Some(o);
        assert FindIndex(hs, (h: Hospitalization) => h.id == hs[o].id) == Some(o);
        CageUpdateSetsCage(hs[o], hs[s].cageId.GetOr(""));
  }

  /** The board's list of stays, updated optimistically by a move. */
  class HospitalizationBoard {
    var hospitalizations: seq<Hospitalization>

    constructor (initial: seq<Hospitalization>)
      ensures hospitalizations == initial
    {
      hospitalizations := initial;
    }

    /**
     * movePet: the optimistic update, rolled back when the store refuses the
     * new cages (`storeFailed`, the outcome of the calls to the store).
     */
    method MovePet(hospitalizationId: string, targetCageId: string, storeFailed: bool)
      modifies this
      ensures storeFailed ==> hospitalizations == old(hospitalizations)
      ensures !storeFailed ==> hospitalizations == Moved(old(hospitalizations), hospitalizationId, targetCageId)
    {
      var source := SourceIndex(hospitalizations, hospitalizationId);
      if source.None? {
        return;
      }
      var sourceHosp := hospitalizations[source.value];
      var previous := hospitalizations;
      var targetHosp := OccupantIndex(hospitalizations, hospitalizationId, targetCageId);
      var next := hospitalizations;
      var sourceIndex := FindIndex(next, (h: Hospitalization) => h.id == hospitalizationId);
      if targetHosp.Some? {
        var occupantId := previous[targetHosp.value].id;
        var targetIndex := FindIndex(next, (h: Hospitalization) => h.id == occupantId);
        if sourceIndex.Some? && targetIndex.Some? {
          next := next[sourceIndex.value := next[sourceIndex.value].(cageId := Some(targetCageId))];
          next := next[targetIndex.value := next[targetIndex.value].(cageId := Some(sourceHosp.cageId.GetOr("")))];
        }
      } else {
        if sourceIndex.Some? {
          next := next[sourceIndex.value := next[sourceIndex.value].(cageId := Some(targetCageId))];
        }
      }
      hospitalizations := next;
      if storeFailed {
        hospitalizations := previous;
      }
    }
  }
}
