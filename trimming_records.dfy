/**
 * The trimming list filter: a keyword matched against the owner and pet
 * names, ignoring case, and an inclusive date range whose empty bounds are
 * open.  Dates are compared as strings, which orders "YYYY-MM-DD" text by
 * date.
 */
module TrimmingRecords {
  import opened Common
  import opened ClinicTypes

  /** The from/to inputs of the date range; "" leaves that side open. */
  datatype DateRange = DateRange(from: string, to: string)

  /** The keyword test: an empty keyword, or a substring of the owner or pet name in any case. */
  predicate MatchesKeyword(r: TrimmingRecord, term: string) {
    term == "" || ContainsIgnoringCase(r.ownerName, term) || ContainsIgnoringCase(r.petName, term)
  }

  /** The date test: on or after `from` unless it is empty, on or before `to` unless it is empty. */
  predicate MatchesDate(r: TrimmingRecord, range: DateRange) {
    (range.from == "" || LexLe(range.from, r.date)) && (range.to == "" || LexLe(r.date, range.to))
  }

  /** useTrimmingRecords' filteredRecords: the records that pass both tests, in their order. */
  function FilteredRecords(records: seq<TrimmingRecord>, term: string, range: DateRange): (r: seq<TrimmingRecord>)
    ensures IsSubsequence(r, records)
    ensures forall x :: x in r <==> x in records && MatchesKeyword(x, term) && MatchesDate(x, range)
  {
    FilterIsSubsequence(records, x => MatchesKeyword(x, term) && MatchesDate(x, range));
    Filter(records, x => MatchesKeyword(x, term) && MatchesDate(x, range))
  }

  /** With no keyword and an open range every record is listed. */
  lemma NoCriteriaKeepsAll(records: seq<TrimmingRecord>)
    ensures FilteredRecords(records, "", DateRange("", "")) == records
  {
    FilterKeepsAll(records, x => MatchesKeyword(x, "") && MatchesDate(x, DateRange("", "")));
  }

  /** Both ends are inclusive: a record dated on the from day or the to day is kept. */
  lemma BoundsAreInclusive(r: TrimmingRecord, term: string)
    requires MatchesKeyword(r, term)
    ensures r in FilteredRecords([r], term, DateRange(r.date, r.date))
  {
    LexLeReflexive(r.date);
  }

  /** A range whose from sorts after its to keeps nothing. */
  lemma ReversedRangeIsEmpty(records: seq<TrimmingRecord>, term: string, range: DateRange)
    requires range.from != "" && range.to != "" && !LexLe(range.from, range.to)
    ensures FilteredRecords(records, term, range) == []
  {
    var r := FilteredRecords(records, term, range);
    forall x | x in r
      ensures false
    {
      LexLeTransitive(range.from, x.date, range.to);
    }
    EmptyIffNoMember(r);
  }

  /** Widening the range never drops a record: a record kept for [from, to] is kept with either bound opened. */
  lemma OpeningABoundKeeps(records: seq<TrimmingRecord>, term: string, range: DateRange, x: TrimmingRecord)
    requires x in FilteredRecords(records, term, range)
    ensures x in FilteredRecords(records, term, range.(from := ""))
    ensures x in FilteredRecords(records, term, range.(to := ""))
  {
  }
}
