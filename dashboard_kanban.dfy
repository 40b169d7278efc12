/**
 * The reception board: columns of appointment cards in workflow order
 * (受付予約, 受付済, 診療中, 会計待ち, 会計済), a view filtered by visit type,
 * doctor and trimming, and the moves a receptionist makes: drag a card,
 * advance it to the next column, cancel it, edit it.
 *
 * The operations are specified by functions on the column list; the
 * `Board` class holds the columns and the filter settings and performs the
 * operations step by step.
 */
module DashboardKanban {
  import opened Common
  import opened ClinicTypes

  /** The filter settings: selected visit types, a doctor ("all", "医師指名なし" or a name), trimming only. */
  datatype Filters = Filters(visitTypes: seq<string>, doctor: string, trimmingOnly: bool)

  const InitialFilters := Filters(["初診", "再診"], "all", false)

  /** The filter callback: selected visit type, then the doctor condition, then the trimming condition. */
  predicate Visible(app: Appointment, f: Filters) {
    && app.visitType in f.visitTypes
    && (f.doctor == "all" ||
        if f.doctor == "医師指名なし" then app.isDesignated != Some(true)
        else app.doctor == Some(f.doctor) && app.isDesignated == Some(true))
    && (!f.trimmingOnly || Contains(app.serviceType, "トリミング"))
  }

  /** With the initial settings every card is shown: every appointment is 初診 or 再診. */
  lemma InitialFiltersShowAll(app: Appointment)
    requires app.visitType in {"初診", "再診"}
    ensures Visible(app, InitialFilters)
  {
  }

  /** Naming a doctor shows only the cards designated to that doctor. */
  lemma DoctorFilterShowsDesignated(app: Appointment, f: Filters)
    requires f.doctor != "all" && f.doctor != "医師指名なし" && Visible(app, f)
    ensures app.isDesignated == Some(true) && app.doctor == Some(f.doctor)
  {
  }

  /** One column as the filtered view shows it: its title and its visible cards in order. */
  function ShownColumn(col: ColumnData, f: Filters): (r: ColumnData)
    ensures r.title == col.title
    ensures IsSubsequence(r.appointments, col.appointments)
    ensures forall a :: a in r.appointments <==> a in col.appointments && Visible(a, f)
  {
    FilterIsSubsequence(col.appointments, (a: Appointment) => Visible(a, f));
    ColumnData(col.title, Filter(col.appointments, (a: Appointment) => Visible(a, f)))
  }

  /** filteredColumns: every column, in order, with only its visible cards. */
  function FilteredColumns(cols: seq<ColumnData>, f: Filters): (r: seq<ColumnData>)
    ensures |r| == |cols|
    ensures forall i | 0 <= i < |cols| :: r[i] == ShownColumn(cols[i], f)
    ensures Titles(r) == Titles(cols)
  {
    var r := seq(|cols|, i requires 0 <= i < |cols| => ShownColumn(cols[i], f));
    assert Titles(r) == Titles(cols);
    r
  }

  /** toggleVisitType: a selected type is dropped (every copy), an unselected one appended. */
  function ToggledTypes(selected: seq<string>, kind: string): (r: seq<string>)
    ensures kind in r <==> kind !in selected
    ensures forall t | t != kind :: t in r <==> t in selected
  {
    if kind in selected then Filter(selected, (t: string) => t != kind) else selected + [kind]
  }

  /** Toggling a type twice, starting from unselected, restores the selection. */
  lemma ToggleVisitTypeTwice(selected: seq<string>, kind: string)
    requires kind !in selected
    ensures ToggledTypes(ToggledTypes(selected, kind), kind) == selected
  {
    FilterConcat(selected, [kind], (t: string) => t != kind);
    FilterKeepsAll(selected, (t: string) => t != kind);
  }

  // ---------------------------------------------------------------------------
  // Columns and cards

  function Titles(cols: seq<ColumnData>): (r: seq<string>)
    ensures |r| == |cols| && forall i | 0 <= i < |cols| :: r[i] == cols[i].title
  {
    seq(|cols|, i requires 0 <= i < |cols| => cols[i].title)
  }

  /** `columns.find(col => col.title === title)`, as an index. */
  function ColumnIndex(cols: seq<ColumnData>, title: string): (r: Option<nat>)
    ensures r.Some? ==> r.value < |cols| && cols[r.value].title == title
    ensures r.Some? ==> forall j | 0 <= j < r.value :: cols[j].title != title
    ensures r.None? ==> forall j | 0 <= j < |cols| :: cols[j].title != title
  {
    FindIndex(Titles(cols), (t: string) => t == title)
  }

  /** `appointments.findIndex(a => a.id === id)`. */
  function CardIndex(apps: seq<Appointment>, id: string): (r: Option<nat>)
    ensures r.Some? ==> r.value < |apps| && apps[r.value].id == id
    ensures r.Some? ==> forall j | 0 <= j < r.value :: apps[j].id != id
    ensures r.None? ==> forall j | 0 <= j < |apps| :: apps[j].id != id
  {
    FindIndex(apps, (a: Appointment) => a.id == id)
  }

  /** The column list with column i's cards replaced. */
  function SetColumn(cols: seq<ColumnData>, i: nat, apps: seq<Appointment>): (r: seq<ColumnData>)
    requires i < |cols|
    ensures |r| == |cols| && Titles(r) == Titles(cols)
    ensures r[i].appointments == apps
    ensures forall j | 0 <= j < |cols| && j != i :: r[j] == cols[j]
  {
    var r := cols[i := ColumnData(cols[i].title, apps)];
    assert Titles(r) == Titles(cols);
    r
  }

  /** Every card on the board, column by column. */
  function AllCards(cols: seq<ColumnData>): seq<Appointment> {
    if cols == [] then [] else cols[0].appointments + AllCards(cols[1..])
  }

  /** Replacing one column's cards replaces exactly those cards in the board's card multiset. */
  lemma {:induction false} CardsAfterSet(cols: seq<ColumnData>, i: nat, apps: seq<Appointment>)
    requires i < |cols|
    ensures multiset(AllCards(SetColumn(cols, i, apps))) + multiset(cols[i].appointments)
         == multiset(AllCards(cols)) + multiset(apps)
  {
    var r := SetColumn(cols, i, apps);
    if i == 0 {
      assert r[1..] == cols[1..];
    } else {
      var tail := SetColumn(cols[1..], i - 1, apps);
      CardsAfterSet(cols[1..], i - 1, apps);
      assert r[1..] == tail;
      assert r[0] == cols[0];
      assert cols[1..][i - 1] == cols[i];
      var head := multiset(cols[0].appointments);
      assert AllCards(r) == cols[0].appointments + AllCards(tail);
      assert AllCards(cols) == cols[0].appointments + AllCards(cols[1..]);
      calc {
        multiset(AllCards(r)) + multiset(cols[i].appointments);
        head + multiset(AllCards(tail)) + multiset(cols[i].appointments);
        head + (multiset(AllCards(tail)) + multiset(cols[1..][i - 1].appointments));
        head + (multiset(AllCards(cols[1..])) + multiset(apps));
        multiset(AllCards(cols)) + multiset(apps);
      }
    }
  }

  /** Multiset addition cancels. */
  lemma Cancel<T>(a: multiset<T>, b: multiset<T>, c: multiset<T>)
    requires a + c == b + c
    ensures a == b
  {
    forall x
      ensures a[x] == b[x]
    {
      assert (a + c)[x] == (b + c)[x];
    }
  }

  // ---------------------------------------------------------------------------
  // moveCard

  /**
   * Where the dragged card goes in the target column (the card already
   * taken out): before the card the filtered view shows at the hover
   * index, found by id, or at the end.
   */
  function HoverPosition(dest: seq<Appointment>, shown: seq<Appointment>, hoverIndex: nat): (p: nat)
    ensures p <= |dest|
    ensures hoverIndex >= |shown| ==> p == |dest|
    ensures hoverIndex < |shown| && CardIndex(dest, shown[hoverIndex].id).Some? ==>
      p == CardIndex(dest, shown[hoverIndex].id).value
  {
    if hoverIndex < |shown| then
      match CardIndex(dest, shown[hoverIndex].id)
      case Some(k) => k
      case None => |dest|
    else |dest|
  }

  /**
   * Card k of column s taken out, and `card` inserted into column t at
   * the hover position computed on the column as it then is.
   */
  function Relocate(cols: seq<ColumnData>, s: nat, k: nat, t: nat, card: Appointment, shown: seq<Appointment>, hoverIndex: nat)
    : (r: seq<ColumnData>)
    requires s < |cols| && t < |cols| && k < |cols[s].appointments|
    ensures |r| == |cols| && Titles(r) == Titles(cols)
  {
    var removed := SetColumn(cols, s, RemoveAt(cols[s].appointments, k));
    var dest := removed[t].appointments;
    SetColumn(removed, t, InsertAt(dest, HoverPosition(dest, shown, hoverIndex), card))
  }

  /** Relocating trades the removed card for the inserted one and leaves every other card in place. */
  lemma RelocateCards(cols: seq<ColumnData>, s: nat, k: nat, t: nat, card: Appointment, shown: seq<Appointment>, hoverIndex: nat)
    requires s < |cols| && t < |cols| && k < |cols[s].appointments|
    ensures multiset(AllCards(Relocate(cols, s, k, t, card, shown, hoverIndex))) + multiset{cols[s].appointments[k]}
         == multiset(AllCards(cols)) + multiset{card}
  {
    var apps := cols[s].appointments;
    var removedApps := RemoveAt(apps, k);
    var removed := SetColumn(cols, s, removedApps);
    var dest := removed[t].appointments;
    var inserted := InsertAt(dest, HoverPosition(dest, shown, hoverIndex), card);
    var after := SetColumn(removed, t, inserted);
    var c0, c1, c2 := multiset(AllCards(cols)), multiset(AllCards(removed)), multiset(AllCards(after));
    CardsAfterSet(cols, s, removedApps);
    assert c1 + multiset(apps) == c0 + multiset(removedApps);
    assert multiset(removedApps) + multiset{apps[k]} == multiset(apps);
    Cancel(c1 + multiset{apps[k]}, c0, multiset(removedApps));
    CardsAfterSet(removed, t, inserted);
    assert c2 + multiset(dest) == c1 + multiset(dest) + multiset{card};
    Cancel(c2, c1 + multiset{card}, multiset(dest));
  }

  /** The move a drag asks for is allowed: not 受付済 to 診療中, both columns exist, the index names a shown card. */
  predicate MoveAllowed(cols: seq<ColumnData>, f: Filters, dragIndex: int, source: string, target: string) {
    && !(source == "受付済" && target == "診療中")
    && ColumnIndex(cols, source).Some? && ColumnIndex(cols, target).Some?
    && 0 <= dragIndex < |FilteredColumns(cols, f)[ColumnIndex(cols, source).value].appointments|
  }

  /** The card a drag picks up: the one the filtered view shows at the drag index. */
  function DraggedCard(cols: seq<ColumnData>, f: Filters, dragIndex: int, source: string, target: string): Appointment
    requires MoveAllowed(cols, f, dragIndex, source, target)
  {
    FilteredColumns(cols, f)[ColumnIndex(cols, source).value].appointments[dragIndex]
  }

  /**
   * The columns after moveCard: the first card with the dragged card's id
   * is taken out of the source column and the dragged card inserted into
   * the target column at the hover position.  Source and target may be
   * the same column.
   */
  function Moved(cols: seq<ColumnData>, f: Filters, dragIndex: int, hoverIndex: nat, source: string, target: string)
    : (r: seq<ColumnData>)
    requires MoveAllowed(cols, f, dragIndex, source, target)
    ensures |r| == |cols| && Titles(r) == Titles(cols)
  {
    var s := ColumnIndex(cols, source).value;
    var t := ColumnIndex(cols, target).value;
    var card := DraggedCard(cols, f, dragIndex, source, target);
    match CardIndex(cols[s].appointments, card.id)
    case None => cols
    case Some(k) => Relocate(cols, s, k, t, card, FilteredColumns(cols, f)[t].appointments, hoverIndex)
  }

  /** The dragged card is found in its real column: it is one of that column's cards. */
  lemma DraggedCardIsInSource(cols: seq<ColumnData>, f: Filters, dragIndex: int, source: string, target: string)
    requires MoveAllowed(cols, f, dragIndex, source, target)
    ensures DraggedCard(cols, f, dragIndex, source, target) in cols[ColumnIndex(cols, source).value].appointments
    ensures CardIndex(cols[ColumnIndex(cols, source).value].appointments,
                      DraggedCard(cols, f, dragIndex, source, target).id).Some?
  {
    var s := ColumnIndex(cols, source).value;
    var card := DraggedCard(cols, f, dragIndex, source, target);
    assert card in FilteredColumns(cols, f)[s].appointments;
    var k :| 0 <= k < |cols[s].appointments| && cols[s].appointments[k] == card;
  }

  /** No two cards of the list share an id. */
  predicate UniqueIds(apps: seq<Appointment>) {
    forall i, j | 0 <= i < j < |apps| :: apps[i].id != apps[j].id
  }

  /**
   * A move keeps the number of cards on the board.  When the ids in the
   * source column are unique it moves the very card it picked up, so
   * every card stays on the board exactly once; with a repeated id the
   * first card of that id is taken out and the dragged one put in.
   */
  lemma MovePreservesCards(cols: seq<ColumnData>, f: Filters, dragIndex: int, hoverIndex: nat, source: string, target: string)
    requires MoveAllowed(cols, f, dragIndex, source, target)
    ensures |AllCards(Moved(cols, f, dragIndex, hoverIndex, source, target))| == |AllCards(cols)|
    ensures UniqueIds(cols[ColumnIndex(cols, source).value].appointments) ==>
      multiset(AllCards(Moved(cols, f, dragIndex, hoverIndex, source, target))) == multiset(AllCards(cols))
  {
    var s := ColumnIndex(cols, source).value;
    var t := ColumnIndex(cols, target).value;
    var card := DraggedCard(cols, f, dragIndex, source, target);
    DraggedCardIsInSource(cols, f, dragIndex, source, target);
    var apps := cols[s].appointments;
    var k := CardIndex(apps, card.id).value;
    var shown := FilteredColumns(cols, f)[t].appointments;
    var after := Relocate(cols, s, k, t, card, shown, hoverIndex);
    assert after == Moved(cols, f, dragIndex, hoverIndex, source, target);
    RelocateCards(cols, s, k, t, card, shown, hoverIndex);
    SizesFromTrade(AllCards(after), AllCards(cols), apps[k], card);
    if UniqueIds(apps) {
      FirstMatchIsCard(apps, card);
      Cancel(multiset(AllCards(after)), multiset(AllCards(cols)), multiset{card});
    }
  }

  /** Two lists that differ by trading one element for one element have the same length. */
  lemma SizesFromTrade(a: seq<Appointment>, b: seq<Appointment>, x: Appointment, y: Appointment)
    requires multiset(a) + multiset{x} == multiset(b) + multiset{y}
    ensures |a| == |b|
  {
    assert |multiset(a) + multiset{x}| == |multiset(b) + multiset{y}|;
  }

  /** With unique ids, the first card with a card's id is that card. */
  lemma FirstMatchIsCard(apps: seq<Appointment>, card: Appointment)
    requires UniqueIds(apps) && card in apps
    ensures CardIndex(apps, card.id).Some? && apps[CardIndex(apps, card.id).value] == card
  {
    var q :| 0 <= q < |apps| && apps[q] == card;
  }

  /** Columns other than the source and the target are untouched by a move. */
  lemma MoveTouchesOnlyEnds(cols: seq<ColumnData>, f: Filters, dragIndex: int, hoverIndex: nat, source: string, target: string, j: nat)
    requires MoveAllowed(cols, f, dragIndex, source, target)
    requires j < |cols| && cols[j].title != source && cols[j].title != target
    ensures Moved(cols, f, dragIndex, hoverIndex, source, target)[j] == cols[j]
  {
  }

  /** Dropped below the shown cards of the target, the card becomes its last card. */
  lemma MoveDefaultsToEnd(cols: seq<ColumnData>, f: Filters, dragIndex: int, hoverIndex: nat, source: string, target: string)
    requires MoveAllowed(cols, f, dragIndex, source, target)
    requires hoverIndex >= |FilteredColumns(cols, f)[ColumnIndex(cols, target).value].appointments|
    ensures var r := Moved(cols, f, dragIndex, hoverIndex, source, target)[ColumnIndex(cols, target).value].appointments;
      r != [] && r[|r| - 1] == DraggedCard(cols, f, dragIndex, source, target)
  {
    DraggedCardIsInSource(cols, f, dragIndex, source, target);
  }

  /** Dropped on a shown card of another column, the dragged card lands just above that card. */
  lemma MovePlacesAboveReference(cols: seq<ColumnData>, f: Filters, dragIndex: int, hoverIndex: nat, source: string, target: string)
    requires MoveAllowed(cols, f, dragIndex, source, target)
    requires source != target
    requires hoverIndex < |FilteredColumns(cols, f)[ColumnIndex(cols, target).value].appointments|
    ensures var t := ColumnIndex(cols, target).value;
      var r := Moved(cols, f, dragIndex, hoverIndex, source, target)[t].appointments;
      exists p | 0 <= p < |r| - 1 ::
        r[p] == DraggedCard(cols, f, dragIndex, source, target) && r[p + 1].id == FilteredColumns(cols, f)[t].appointments[hoverIndex].id
  {
    var s := ColumnIndex(cols, source).value;
    var t := ColumnIndex(cols, target).value;
    var card := DraggedCard(cols, f, dragIndex, source, target);
    DraggedCardIsInSource(cols, f, dragIndex, source, target);
    var k := CardIndex(cols[s].appointments, card.id).value;
    var shown := FilteredColumns(cols, f)[t].appointments;
    var reference := shown[hoverIndex];
    assert reference in shown;
    var removed := SetColumn(cols, s, RemoveAt(cols[s].appointments, k));
    var dest := removed[t].appointments;
    assert dest == cols[t].appointments;
    var q :| 0 <= q < |dest| && dest[q] == reference;
    var p := CardIndex(dest, reference.id).value;
    var r := Relocate(cols, s, k, t, card, shown, hoverIndex)[t].appointments;
    assert r == InsertAt(dest, p, card);
    assert r[p] == card && r[p + 1] == dest[p];
  }

  // ---------------------------------------------------------------------------
  // advanceStatus

  /** The workflow: 受付予約 → 受付済 → 診療中 → 会計待ち → 会計済; nothing follows 会計済 or an unknown title. */
  function NextColumn(title: string): (next: Option<string>)
    ensures next.Some? ==> next.value != title
    ensures next.Some? <==> title in {"受付予約", "受付済", "診療中", "会計待ち"}
  {
    match title
    case "受付予約" => Some("受付済")
    case "受付済" => Some("診療中")
    case "診療中" => Some("会計待ち")
    case "会計待ち" => Some("会計済")
    case _ => None
  }

  /** The board's columns in workflow order. */
  const Workflow: seq<string> := ["受付予約", "受付済", "診療中", "会計待ち", "会計済"]

  /** advanceStatus moves a card exactly one column along the workflow, and only from a column before the last. */
  lemma NextColumnFollowsWorkflow(title: string)
    ensures NextColumn(title).Some? <==> exists i | 0 <= i < |Workflow| - 1 :: Workflow[i] == title
    ensures forall i | 0 <= i < |Workflow| - 1 && Workflow[i] == title :: NextColumn(title) == Some(Workflow[i + 1])
  {
    if NextColumn(title).Some? {
      assert title == Workflow[0] || title == Workflow[1] || title == Workflow[2] || title == Workflow[3];
    }
  }

  /** The column a card reaches after `steps` advances, if it can advance that often. */
  function AdvancedTitle(title: string, steps: nat): (r: Option<string>)
    ensures steps == 0 ==> r == Some(title)
    decreases steps
  {
    if steps == 0 then Some(title)
    else match NextColumn(title)
      case None => None
      case Some(next) => AdvancedTitle(next, steps - 1)
  }

  /** From any column, advancing once per remaining column reaches 会計済, after which nothing follows. */
  lemma {:induction false} WorkflowReachesSettled(i: nat)
    requires i < |Workflow|
    ensures AdvancedTitle(Workflow[i], |Workflow| - 1 - i) == Some("会計済")
    ensures AdvancedTitle(Workflow[i], |Workflow| - i) == None
    decreases |Workflow| - i
  {
    if i < |Workflow| - 1 {
      NextColumnFollowsWorkflow(Workflow[i]);
      WorkflowReachesSettled(i + 1);
    } else {
      assert NextColumn("会計済") == None;
    }
  }

  /** The first shown column holding a card with the id: advanceStatus ignores a card the filters hide. */
  function ShowingColumn(cols: seq<ColumnData>, f: Filters, id: string): (r: Option<nat>)
    ensures r.Some? ==> r.value < |cols| && CardIndex(FilteredColumns(cols, f)[r.value].appointments, id).Some?
  {
    FindIndex(FilteredColumns(cols, f), (c: ColumnData) => CardIndex(c.appointments, id).Some?)
  }

  /**
   * The columns after advanceStatus: in the column the view shows the
   * card in, the first card with the id leaves; from 会計済 it leaves the
   * board, from the other four columns it goes to the bottom of the next.
   */
  function Advanced(cols: seq<ColumnData>, f: Filters, id: string): (r: seq<ColumnData>)
    ensures |r| == |cols| && Titles(r) == Titles(cols)
  {
    match ShowingColumn(cols, f, id)
    case None => cols
    case Some(c) => AdvanceFrom(cols, cols[c].title, id)
  }

  /** The state update of advanceStatus, once the title of the card's column is known. */
  function AdvanceFrom(cols: seq<ColumnData>, title: string, id: string): (r: seq<ColumnData>)
    ensures |r| == |cols| && Titles(r) == Titles(cols)
  {
    match ColumnIndex(cols, title)
    case None => cols
    case Some(s) =>
      match CardIndex(cols[s].appointments, id)
      case None => cols
      case Some(k) =>
        if title == "会計済" then SetColumn(cols, s, RemoveAt(cols[s].appointments, k))
        else match NextColumn(title)
          case None => cols
          case Some(next) =>
            match ColumnIndex(cols, next)
            case None => cols
            case Some(t) => Relocate(cols, s, k, t, cols[s].appointments[k], [], 0)
  }

  lemma AdvancedFromShowing(cols: seq<ColumnData>, f: Filters, id: string, c: nat)
    requires ShowingColumn(cols, f, id) == Some(c)
    ensures Advanced(cols, f, id) == AdvanceFrom(cols, cols[c].title, id)
  {
  }

  /** The card the view shows is in the real column too. */
  lemma ShownCardIsInColumn(cols: seq<ColumnData>, f: Filters, id: string, c: nat)
    requires ShowingColumn(cols, f, id) == Some(c)
    ensures CardIndex(cols[c].appointments, id).Some?
  {
    var shownApps := FilteredColumns(cols, f)[c].appointments;
    var j := CardIndex(shownApps, id).value;
    assert shownApps[j] in cols[c].appointments;
  }

  /**
   * Advancing a shown card on to the next column keeps every card on the
   * board and puts the card at the bottom of that column (the showing
   * column is taken to be the first with its title, as it is when titles
   * differ).
   */
  lemma AdvanceMovesToBottom(cols: seq<ColumnData>, f: Filters, id: string, c: nat, t: nat)
    requires ShowingColumn(cols, f, id) == Some(c) && ColumnIndex(cols, cols[c].title) == Some(c)
    requires NextColumn(cols[c].title).Some? && ColumnIndex(cols, NextColumn(cols[c].title).value) == Some(t)
    ensures multiset(AllCards(Advanced(cols, f, id))) == multiset(AllCards(cols))
    ensures var r := Advanced(cols, f, id)[t].appointments; r != [] && r[|r| - 1].id == id
  {
    AdvancedFromShowing(cols, f, id, c);
    ShownCardIsInColumn(cols, f, id, c);
    AdvanceToNext(cols, cols[c].title, id, c, t);
  }

  lemma AdvanceToNext(cols: seq<ColumnData>, title: string, id: string, s: nat, t: nat)
    requires ColumnIndex(cols, title) == Some(s) && CardIndex(cols[s].appointments, id).Some?
    requires NextColumn(title).Some? && ColumnIndex(cols, NextColumn(title).value) == Some(t)
    ensures multiset(AllCards(AdvanceFrom(cols, title, id))) == multiset(AllCards(cols))
    ensures var r := AdvanceFrom(cols, title, id)[t].appointments; r != [] && r[|r| - 1].id == id
  {
    var k := CardIndex(cols[s].appointments, id).value;
    var card := cols[s].appointments[k];
    var after := Relocate(cols, s, k, t, card, [], 0);
    assert AdvanceFrom(cols, title, id) == after;
    RelocateCards(cols, s, k, t, card, [], 0);
    Cancel(multiset(AllCards(after)), multiset(AllCards(cols)), multiset{card});
  }

  /** Advancing a shown card from 会計済 takes exactly one card with that id off the board. */
  lemma AdvanceFromSettledRemoves(cols: seq<ColumnData>, f: Filters, id: string, c: nat)
    requires ShowingColumn(cols, f, id) == Some(c) && ColumnIndex(cols, cols[c].title) == Some(c)
    requires cols[c].title == "会計済"
    ensures exists x: Appointment | x.id == id :: multiset(AllCards(Advanced(cols, f, id))) + multiset{x} == multiset(AllCards(cols))
  {
    AdvancedFromShowing(cols, f, id, c);
    ShownCardIsInColumn(cols, f, id, c);
    SettledLeaves(cols, id, c);
  }

  lemma SettledLeaves(cols: seq<ColumnData>, id: string, s: nat)
    requires ColumnIndex(cols, "会計済") == Some(s) && CardIndex(cols[s].appointments, id).Some?
    ensures exists x: Appointment | x.id == id :: multiset(AllCards(AdvanceFrom(cols, "会計済", id))) + multiset{x} == multiset(AllCards(cols))
  {
    var apps := cols[s].appointments;
    var k := CardIndex(apps, id).value;
    var after := SetColumn(cols, s, RemoveAt(apps, k));
    assert AdvanceFrom(cols, "会計済", id) == after;
    CardsAfterSet(cols, s, RemoveAt(apps, k));
    Cancel(multiset(AllCards(after)) + multiset{apps[k]}, multiset(AllCards(cols)), multiset(RemoveAt(apps, k)));
  }

  // ---------------------------------------------------------------------------
  // cancelAppointment and updateAppointment

  /** The first column, in board order, holding a card with the id. */
  function HoldingColumn(cols: seq<ColumnData>, id: string): (r: Option<nat>)
    ensures r.Some? ==> r.value < |cols| && CardIndex(cols[r.value].appointments, id).Some?
    ensures r.Some? ==> forall j | 0 <= j < r.value :: CardIndex(cols[j].appointments, id).None?
    ensures r.None? ==> forall j | 0 <= j < |cols| :: CardIndex(cols[j].appointments, id).None?
  {
    FindIndex(cols, (c: ColumnData) => CardIndex(c.appointments, id).Some?)
  }

  /** The first column holding a card with the id is the one the search stops at. */
  lemma HoldingColumnAt(cols: seq<ColumnData>, id: string, i: nat)
    requires i < |cols| && CardIndex(cols[i].appointments, id).Some?
    requires forall j | 0 <= j < i :: CardIndex(cols[j].appointments, id).None?
    ensures HoldingColumn(cols, id) == Some(i)
  {
  }

  /** The columns after cancelAppointment: the first card with the id, in board order, is taken off. */
  function Cancelled(cols: seq<ColumnData>, id: string): (r: seq<ColumnData>)
    ensures |r| == |cols| && Titles(r) == Titles(cols)
  {
    match HoldingColumn(cols, id)
    case None => cols
    case Some(i) => SetColumn(cols, i, RemoveAt(cols[i].appointments, CardIndex(cols[i].appointments, id).value))
  }

  /** Cancelling takes exactly one card with the id off the board, or changes nothing when no card has it. */
  lemma CancelRemovesOne(cols: seq<ColumnData>, id: string)
    ensures HoldingColumn(cols, id).None? ==> Cancelled(cols, id) == cols
    ensures HoldingColumn(cols, id).Some? ==>
      exists x: Appointment | x.id == id :: multiset(AllCards(Cancelled(cols, id))) + multiset{x} == multiset(AllCards(cols))
  {
    if HoldingColumn(cols, id).Some? {
      var i := HoldingColumn(cols, id).value;
      var apps := cols[i].appointments;
      var k := CardIndex(apps, id).value;
      var after := SetColumn(cols, i, RemoveAt(apps, k));
      CardsAfterSet(cols, i, RemoveAt(apps, k));
      Cancel(multiset(AllCards(after)) + multiset{apps[k]}, multiset(AllCards(cols)), multiset(RemoveAt(apps, k)));
    }
  }

  /** `{...existing, ...update}`: every field from the update, an optional one only when the update has it. */
  function Overlay(existing: Appointment, update: Appointment): (r: Appointment)
    ensures r.id == update.id && r.visitType == update.visitType && r.serviceType == update.serviceType
    ensures r.doctor == (if update.doctor.Some? then update.doctor else existing.doctor)
    ensures r.isDesignated == (if update.isDesignated.Some? then update.isDesignated else existing.isDesignated)
  {
    update.(
      nextAppointment := if update.nextAppointment.Some? then update.nextAppointment else existing.nextAppointment,
      isDesignated := if update.isDesignated.Some? then update.isDesignated else existing.isDesignated,
      doctor := if update.doctor.Some? then update.doctor else existing.doctor,
      petId := if update.petId.Some? then update.petId else existing.petId)
  }

  /** The columns after updateAppointment: the first card with the update's id is overlaid in place. */
  function UpdatedColumns(cols: seq<ColumnData>, update: Appointment): (r: seq<ColumnData>)
    ensures |r| == |cols| && Titles(r) == Titles(cols)
  {
    match HoldingColumn(cols, update.id)
    case None => cols
    case Some(i) =>
      var apps := cols[i].appointments;
      var k := CardIndex(apps, update.id).value;
      SetColumn(cols, i, apps[k := Overlay(apps[k], update)])
  }

  /** An edit moves no card: every column keeps its length and the id at every position. */
  lemma UpdateKeepsPositions(cols: seq<ColumnData>, update: Appointment)
    ensures forall i | 0 <= i < |cols| ::
      |UpdatedColumns(cols, update)[i].appointments| == |cols[i].appointments| &&
      forall k | 0 <= k < |cols[i].appointments| :: UpdatedColumns(cols, update)[i].appointments[k].id == cols[i].appointments[k].id
  {
  }

  // ---------------------------------------------------------------------------
  // The hook's state

  class Board {
    var columns: seq<ColumnData>
    var filters: Filters

    constructor (initial: seq<ColumnData>)
      ensures columns == initial && filters == InitialFilters
    {
      columns := initial;
      filters := InitialFilters;
    }

    /** filteredColumns of the current state. */
    function Shown(): (r: seq<ColumnData>)
      reads this
      ensures |r| == |columns| && Titles(r) == Titles(columns)
    {
      FilteredColumns(columns, filters)
    }

    /** toggleVisitType. */
    method ToggleVisitType(kind: string)
      modifies this
      ensures filters == old(filters).(visitTypes := ToggledTypes(old(filters).visitTypes, kind))
      ensures columns == old(columns)
    {
      filters := filters.(visitTypes := ToggledTypes(filters.visitTypes, kind));
    }

    /**
     * moveCard: refuse 受付済 → 診療中, find both columns and the dragged
     * card in the filtered view, take the card out of its real column and
     * insert it where the hover index points.
     */
    method MoveCard(dragIndex: int, hoverIndex: nat, source: string, target: string) returns (moved: bool)
      modifies this
      ensures moved == MoveAllowed(old(columns), filters, dragIndex, source, target)
      ensures moved ==> columns == Moved(old(columns), filters, dragIndex, hoverIndex, source, target)
      ensures !moved ==> columns == old(columns)
      ensures filters == old(filters)
    {
      if source == "受付済" && target == "診療中" {
        return false;
      }
      var shown := FilteredColumns(columns, filters);
      var s := ColumnIndex(shown, source);
      var t := ColumnIndex(shown, target);
      if s.None? || t.None? {
        return false;
      }
      if dragIndex < 0 || dragIndex >= |shown[s.value].appointments| {
        return false;
      }
      var card := shown[s.value].appointments[dragIndex];
      var found := CardIndex(columns[s.value].appointments, card.id);
      if found.None? {
        return true;
      }
      columns := Take(columns, s.value, found.value);
      var hover := |columns[t.value].appointments|;
      if hoverIndex < |shown[t.value].appointments| {
        var reference := shown[t.value].appointments[hoverIndex];
        var refIndex := CardIndex(columns[t.value].appointments, reference.id);
        if refIndex.Some? {
          hover := refIndex.value;
        }
      }
      columns := SetColumn(columns, t.value, InsertAt(columns[t.value].appointments, hover, card));
      return true;
    }

    /** advanceStatus: the card goes to the bottom of the next column, or off the board from 会計済. */
    method AdvanceStatus(app: Appointment)
      modifies this
      ensures columns == Advanced(old(columns), filters, app.id)
      ensures filters == old(filters)
    {
      var c := ShowingColumn(columns, filters, app.id);
      if c.None? {
        return;
      }
      AdvanceFromColumn(columns[c.value].title, app.id);
    }

    /** The state update of advanceStatus for a card shown in the column titled `title`. */
    method AdvanceFromColumn(title: string, id: string)
      modifies this
      ensures columns == AdvanceFrom(old(columns), title, id)
      ensures filters == old(filters)
    {
      var s := ColumnIndex(columns, title);
      if s.None? {
        return;
      }
      var k := CardIndex(columns[s.value].appointments, id);
      if k.None? {
        return;
      }
      if title == "会計済" {
        columns := Take(columns, s.value, k.value);
        return;
      }
      var next := NextColumn(title);
      if next.None? {
        return;
      }
      var t := ColumnIndex(columns, next.value);
      if t.None? {
        return;
      }
      var card := columns[s.value].appointments[k.value];
      columns := Take(columns, s.value, k.value);
      var dest := columns[t.value].appointments;
      assert InsertAt(dest, HoverPosition(dest, [], 0), card) == dest + [card];
      columns := SetColumn(columns, t.value, dest + [card]);
    }

    /** cancelAppointment: the columns are searched in order; the first card with the id is removed. */
    method CancelAppointment(id: string)
      modifies this
      ensures columns == Cancelled(old(columns), id)
      ensures filters == old(filters)
    {
      var i := 0;
      while i < |columns|
        invariant 0 <= i <= |columns|
        invariant forall j | 0 <= j < i :: CardIndex(columns[j].appointments, id).None?
      {
        var index := CardIndex(columns[i].appointments, id);
        if index.Some? {
          HoldingColumnAt(columns, id, i);
          columns := Take(columns, i, index.value);
          return;
        }
        i := i + 1;
      }
      assert HoldingColumn(columns, id).None?;
    }

    /** updateAppointment: the columns are searched in order; the first card with the id is overlaid in place. */
    method UpdateAppointment(update: Appointment)
      modifies this
      ensures columns == UpdatedColumns(old(columns), update)
      ensures filters == old(filters)
    {
      var i := 0;
      while i < |columns|
        invariant 0 <= i <= |columns|
        invariant forall j | 0 <= j < i :: CardIndex(columns[j].appointments, update.id).None?
      {
        var index := CardIndex(columns[i].appointments, update.id);
        if index.Some? {
          var apps := columns[i].appointments;
          columns := SetColumn(columns, i, apps[index.value := Overlay(apps[index.value], update)]);
          return;
        }
        i := i + 1;
      }
    }
  }

  /** `col.appointments.splice(k, 1)` on column s. */
  function Take(cols: seq<ColumnData>, s: nat, k: nat): seq<ColumnData>
    requires s < |cols| && k < |cols[s].appointments|
  {
    SetColumn(cols, s, RemoveAt(cols[s].appointments, k))
  }
}
