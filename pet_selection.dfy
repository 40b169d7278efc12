/**
 * The pet picker: a search over the pet catalogue capped at a maximum
 * number of results, and the selection toggle in its three modes.
 */
module PetSelection {
  import opened Common
  import opened ClinicTypes

  datatype SelectionMode = Single | Multiple | MultipleSameOwner

  /** The cap `maxResults || 100`: an absent or zero option means 100. */
  function ResultCap(maxResults: Option<int>): (n: int)
    ensures maxResults.Some? && maxResults.value != 0 ==> n == maxResults.value
    ensures n != 0
  {
    if maxResults.None? || maxResults.value == 0 then 100 else maxResults.value
  }

  /** The end index of Array.prototype.slice(0, n): a negative n counts back from the end. */
  function SliceEnd(n: int, len: nat): (e: nat)
    ensures e <= len
    ensures n >= 0 ==> e == if n < len then n else len
    ensures n < 0 ==> e == if len + n > 0 then len + n else 0
  {
    if n < 0 then (if len + n > 0 then len + n else 0)
    else if n < len then n else len
  }

  /** The search test: the lower-cased query occurs in the owner name, pet name, species, owner id or pet id. */
  predicate MatchesQuery(pet: ClientPet, query: string) {
    || ContainsIgnoringCase(pet.ownerName, query)
    || ContainsIgnoringCase(pet.name, query)
    || ContainsIgnoringCase(pet.species, query)
    || ContainsIgnoringCase(pet.ownerId, query)
    || ContainsIgnoringCase(pet.id, query)
  }

  /** The search test as the callback handed to the filter. */
  function Matcher(query: string): ClientPet -> bool {
    p => MatchesQuery(p, query)
  }

  /**
   * filteredPets: with no query, nothing unless returnAllOnEmpty (an
   * absent option is false), else the catalogue; with a query, the
   * matching pets; either list cut to the cap.
   */
  function FilteredPets(pets: seq<ClientPet>, query: string, returnAllOnEmpty: bool, maxResults: Option<int>)
    : (r: seq<ClientPet>)
    ensures query == "" && !returnAllOnEmpty ==> r == []
    ensures query == "" && returnAllOnEmpty ==> r == pets[..SliceEnd(ResultCap(maxResults), |pets|)]
    ensures query != "" ==> IsSubsequence(r, pets) && forall p :: p in r ==> MatchesQuery(p, query)
    ensures ResultCap(maxResults) > 0 ==> |r| <= ResultCap(maxResults)
  {
    if query == "" && !returnAllOnEmpty then []
    else if query == "" then pets[..SliceEnd(ResultCap(maxResults), |pets|)]
    else
      var results := Filter(pets, Matcher(query));
      FilterIsSubsequence(pets, Matcher(query));
      PrefixIsSubsequence(results, SliceEnd(ResultCap(maxResults), |results|));
      var capped := results[..SliceEnd(ResultCap(maxResults), |results|)];
      SubsequenceTransitive(capped, results, pets);
      assert forall p | p in capped :: p in results;
      capped
  }

  /** The number of pets of the catalogue that match the query. */
  function MatchCount(pets: seq<ClientPet>, query: string): nat {
    if pets == [] then 0
    else (if MatchesQuery(pets[0], query) then 1 else 0) + MatchCount(pets[1..], query)
  }

  /** The filter keeps as many pets as match. */
  lemma {:induction false} FilterCountsMatches(pets: seq<ClientPet>, query: string)
    ensures |Filter(pets, Matcher(query))| == MatchCount(pets, query)
  {
    if pets != [] {
      FilterCountsMatches(pets[1..], query);
    }
  }

  /**
   * With a query, the result is the first matching pets in catalogue
   * order, as many of them as the cap allows; when every match fits
   * under a non-negative cap, every matching pet is returned.
   */
  lemma FilteredPetsFirstMatches(pets: seq<ClientPet>, query: string, returnAllOnEmpty: bool, maxResults: Option<int>)
    requires query != ""
    ensures FilteredPets(pets, query, returnAllOnEmpty, maxResults) <= Filter(pets, Matcher(query))
    ensures |FilteredPets(pets, query, returnAllOnEmpty, maxResults)| == SliceEnd(ResultCap(maxResults), MatchCount(pets, query))
    ensures 0 <= ResultCap(maxResults) && MatchCount(pets, query) <= ResultCap(maxResults) ==>
      forall p | p in pets && MatchesQuery(p, query) :: p in FilteredPets(pets, query, returnAllOnEmpty, maxResults)
  {
    FilterCountsMatches(pets, query);
    var results := Filter(pets, Matcher(query));
    if 0 <= ResultCap(maxResults) && MatchCount(pets, query) <= ResultCap(maxResults) {
      assert FilteredPets(pets, query, returnAllOnEmpty, maxResults) == results;
      forall p | p in pets && MatchesQuery(p, query)
        ensures p in results
      {
        assert Matcher(query)(p);
      }
    }
  }

  /** A negative cap drops that many pets from the end instead of capping. */
  lemma NegativeCapDropsTail(pets: seq<ClientPet>, k: nat)
    requires 0 < k <= |pets|
    ensures FilteredPets(pets, "", true, Some(-(k as int))) == pets[..|pets| - k]
  {
  }

  /** prev.some(p => p.id === id). */
  predicate IsSelected(selected: seq<ClientPet>, id: string) {
    exists i | 0 <= i < |selected| :: selected[i].id == id
  }

  /** No two selected pets share an id. */
  predicate DistinctIds(selected: seq<ClientPet>) {
    forall i, j | 0 <= i < j < |selected| :: selected[i].id != selected[j].id
  }

  /** The deselection test: the pet has another id. */
  function NotId(id: string): ClientPet -> bool {
    (p: ClientPet) => p.id != id
  }

  /**
   * togglePetSelection: a selected pet is deselected; otherwise single
   * mode selects only it, same-owner mode starts over when its owner
   * differs from the first selected pet's, and the other modes append it.
   */
  function Toggle(prev: seq<ClientPet>, pet: ClientPet, mode: SelectionMode): (r: seq<ClientPet>)
    ensures IsSelected(prev, pet.id) ==> IsSubsequence(r, prev) && forall q :: q in r <==> q in prev && q.id != pet.id
    ensures !IsSelected(prev, pet.id) ==> r != [] && r[|r| - 1] == pet
    ensures !IsSelected(prev, pet.id) && mode == Single ==> |r| == 1
    ensures !IsSelected(prev, pet.id) && mode == Multiple ==> r[..|r| - 1] == prev
    ensures !IsSelected(prev, pet.id) && mode == MultipleSameOwner ==> r == [pet] || r[..|r| - 1] == prev
  {
    if IsSelected(prev, pet.id) then
      FilterIsSubsequence(prev, NotId(pet.id));
      Filter(prev, NotId(pet.id))
    else match mode
      case Single => [pet]
      case MultipleSameOwner => if |prev| > 0 && prev[0].ownerId != pet.ownerId then [pet] else prev + [pet]
      case Multiple => prev + [pet]
  }

  /** Every selected pet belongs to `owner`. */
  predicate OneOwner(selected: seq<ClientPet>, owner: string) {
    forall i | 0 <= i < |selected| :: selected[i].ownerId == owner
  }

  /**
   * In same-owner mode the selection never mixes owners: after selecting
   * a new pet every selected pet is its owner's, and deselecting keeps a
   * one-owner selection one-owner.
   */
  lemma SameOwnerModeKeepsOneOwner(prev: seq<ClientPet>, pet: ClientPet, owner: string)
    requires prev == [] || OneOwner(prev, owner)
    ensures !IsSelected(prev, pet.id) ==> OneOwner(Toggle(prev, pet, MultipleSameOwner), pet.ownerId)
    ensures IsSelected(prev, pet.id) ==> OneOwner(Toggle(prev, pet, MultipleSameOwner), owner)
  {
    var r := Toggle(prev, pet, MultipleSameOwner);
    if IsSelected(prev, pet.id) {
      forall i | 0 <= i < |r|
        ensures r[i].ownerId == owner
      {
        assert r[i] in r;
        var k :| 0 <= k < |prev| && prev[k] == r[i];
      }
    }
  }

  /** A toggle flips whether the pet is selected. */
  lemma ToggleFlips(prev: seq<ClientPet>, pet: ClientPet, mode: SelectionMode)
    ensures IsSelected(Toggle(prev, pet, mode), pet.id) <==> !IsSelected(prev, pet.id)
  {
    var r := Toggle(prev, pet, mode);
    if !IsSelected(prev, pet.id) {
      assert r[|r| - 1] == pet;
    } else {
      forall i | 0 <= i < |r|
        ensures r[i].id != pet.id
      {
        assert r[i] in r;
      }
    }
  }

  /** The selection never holds two pets with the same id. */
  lemma ToggleKeepsIdsDistinct(prev: seq<ClientPet>, pet: ClientPet, mode: SelectionMode)
    requires DistinctIds(prev)
    ensures DistinctIds(Toggle(prev, pet, mode))
  {
    if IsSelected(prev, pet.id) {
      FilterKeepsDistinct(prev, NotId(pet.id));
    }
  }

  lemma {:induction false} FilterKeepsDistinct(s: seq<ClientPet>, p: ClientPet -> bool)
    requires DistinctIds(s)
    ensures DistinctIds(Filter(s, p))
  {
    if s != [] {
      FilterKeepsDistinct(s[1..], p);
      var rest := Filter(s[1..], p);
      if p(s[0]) {
        var r := [s[0]] + rest;
        forall i, j | 0 <= i < j < |r|
          ensures r[i].id != r[j].id
        {
          if i == 0 {
            assert r[j] in s[1..];
          }
        }
      }
    }
  }

  /** In the multiple modes, selecting a new pet and toggling it again restores the selection. */
  lemma ToggleTwiceRestores(prev: seq<ClientPet>, pet: ClientPet)
    requires !IsSelected(prev, pet.id)
    ensures Toggle(Toggle(prev, pet, Multiple), pet, Multiple) == prev
  {
    var once := Toggle(prev, pet, Multiple);
    assert once[|once| - 1] == pet;
    FilterConcat(prev, [pet], NotId(pet.id));
    FilterKeepsAll(prev, NotId(pet.id));
  }
}
