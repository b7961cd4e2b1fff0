/**
 * The `/edittrip` conversation: ASK_TRIP_ID_TO_EDIT -> ASK_FIELD_TO_EDIT -> ASK_NEW_VALUE or
 * ASK_DOCUMENTS -> ASK_AFTER_EDIT_OPTION, looping back or ending (the states AwaitTripId ...
 * here). The list of trips is copied into the scratch dictionary when the conversation starts
 * (the snapshot) and every later selection refers to that copy, not to the store.
 */
module EditTrip {
  import opened Wrappers
  import opened Text
  import opened Numerals
  import opened Dates
  import opened Trips
  import opened Session
  import opened Attachment

  datatype EditState =
    AwaitTripId | AwaitField | AwaitNewValue | AwaitContinue | AwaitAfterEdit | AwaitDocuments

  const FieldTitle: string := "t\U{ED}tulo"
  const FieldStart: string := "inicio"
  const FieldEnd: string := "fin"
  const FieldDocuments: string := "documentos"

  /** The field names `ask_new_value` accepts. */
  predicate IsField(f: string) {
    f == FieldTitle || f == FieldStart || f == FieldEnd || f == FieldDocuments
  }

  /** `edit_trip_start` (restricted): a user without trips is told so and the conversation
      ends; otherwise the trips are copied into the scratch dictionary in dict order. */
  function EditTripStart(authorized: bool, sc: Scratch, data: TripMap): (e: Effect<EditState>)
    ensures e.saved.None?
    ensures !authorized ==> e == Rejected(sc)
    ensures authorized && data == [] ==> e == Effect(End, sc, None)
    ensures authorized && data != [] ==> e == Effect(Goto(AwaitTripId), sc.(tripsList := Some(data)), None)
  {
    if !authorized then Rejected(sc)
    else if data == [] then Effect(End, sc, None)
    else Effect(Goto(AwaitTripId), sc.(tripsList := Some(data)), None)
  }

  /** The check in `ask_field_to_edit`: `int(text) - 1` as an index into a snapshot of `count`
      trips. */
  function SelectTrip(text: string, count: nat): (r: Option<nat>)
    ensures r.Some? <==> ParseInt(text).Some? && 1 <= ParseInt(text).value <= count
    ensures r.Some? ==> r.value == ParseInt(text).value - 1 && r.value < count
  {
    match ParseInt(text)
    case None => None
    case Some(i) => if i - 1 < 0 || i - 1 >= count then None else Some(i - 1)
  }

  /** `ask_field_to_edit`: a number shown in the list selects that trip and the field is
      asked for; anything else asks again. */
  function AskFieldToEdit(sc: Scratch, text: string): (e: Effect<EditState>)
    ensures e.saved.None?
    ensures var k := SelectTrip(Strip(text), |sc.tripsList.GetOr([])|);
      if k.Some? then e == Effect(Goto(AwaitField), sc.(editTripIndex := Some(k.value)), None)
      else e == Effect(Goto(AwaitTripId), sc, None)
  {
    var trips := sc.tripsList.GetOr([]);
    match SelectTrip(Strip(text), |trips|)
    case None => Effect(Goto(AwaitTripId), sc, None)
    case Some(k) => Effect(Goto(AwaitField), sc.(editTripIndex := Some(k)), None)
  }

  /** `ask_new_value`: the lower-cased field name must be one of the four; `documentos` starts
      collecting documents, the others ask for the new value. */
  function AskNewValue(sc: Scratch, text: string): (e: Effect<EditState>)
    ensures e.saved.None?
    ensures !IsField(Lower(Strip(text))) ==> e == Effect(Goto(AwaitField), sc, None)
    ensures IsField(Lower(Strip(text))) ==> e.scratch.editField == Some(Lower(Strip(text)))
    ensures e.scratch.(editField := sc.editField, newFiles := sc.newFiles) == sc
    ensures Lower(Strip(text)) == FieldDocuments ==> e.scratch.newFiles == Some([])
    ensures Lower(Strip(text)) != FieldDocuments ==> e.scratch.newFiles == sc.newFiles
    ensures e.step == Goto(AwaitDocuments) <==> Lower(Strip(text)) == FieldDocuments
    ensures e.step == Goto(AwaitNewValue) <==> IsField(Lower(Strip(text))) && Lower(Strip(text)) != FieldDocuments
  {
    var field := Lower(Strip(text));
    if !IsField(field) then Effect(Goto(AwaitField), sc, None)
    else if field == FieldDocuments then
      Effect(Goto(AwaitDocuments), sc.(editField := Some(field), newFiles := Some([])), None)
    else Effect(Goto(AwaitNewValue), sc.(editField := Some(field)), None)
  }

  /** The scratch names a field and a trip of the snapshot. */
  predicate Selected(sc: Scratch) {
    sc.editTripIndex.Some? && sc.editField.Some? && sc.editTripIndex.value < |sc.tripsList.GetOr([])|
  }

  /** The snapshot entry the scratch selects. */
  function SelectedEntry(sc: Scratch): Entry
    requires Selected(sc)
  {
    sc.tripsList.value[sc.editTripIndex.value]
  }

  /** The scratch with the selected snapshot entry's trip replaced; the entry keeps its name. */
  function WithSnapshotInfo(sc: Scratch, info: Trip): (r: Scratch)
    requires Selected(sc)
    ensures Selected(r) && r.editTripIndex == sc.editTripIndex && r.editField == sc.editField
    ensures SelectedEntry(r) == Entry(SelectedEntry(sc).name, info)
    ensures r.(tripsList := sc.tripsList) == sc
    ensures |r.tripsList.value| == |sc.tripsList.value|
    ensures forall k :: 0 <= k < |sc.tripsList.value| && k != sc.editTripIndex.value ==>
      r.tripsList.value[k] == sc.tripsList.value[k]
  {
    var trips, k := sc.tripsList.value, sc.editTripIndex.value;
    sc.(tripsList := Some(trips[k := Entry(trips[k].name, info)]))
  }

  /** `info` with the date that `field` (inicio or fin) names set to `value`. */
  function WithDate(info: Trip, field: string, value: string): (r: Trip)
    ensures field == FieldStart ==> r.startDate == value && r.endDate == info.endDate
    ensures field != FieldStart ==> r.endDate == value && r.startDate == info.startDate
    ensures r.destination == info.destination && r.files == info.files && r.title == info.title
  {
    if field == FieldStart then info.(startDate := value) else info.(endDate := value)
  }

  /** The stored trips after renaming `oldName`, whose trip (as the snapshot has it) is `info`,
      to `newName`. */
  function Renamed(data: TripMap, oldName: string, newName: string, info: Trip): (r: TripMap)
    requires Has(data, oldName)
    ensures Has(r, newName) && Get(r, newName) == info.(title := Some(newName))
    ensures oldName != newName ==> !Has(r, oldName)
  {
    Put(Pop(data, oldName), newName, info.(title := Some(newName)))
  }

  /** `save_new_value`. The trip is the snapshot's entry at the selected index. A date edit
      changes that snapshot entry only and writes back the store's trips as reloaded; a rename
      pops the old name from the reloaded trips and stores the snapshot entry, with `title` set,
      under the new name, while the snapshot entry keeps its old name. */
  function SaveNewValue(sc: Scratch, text: string, data: TripMap): (e: Effect<EditState>)
    ensures sc.editTripIndex.None? ==> e == Effect(Raise(KeyError("edit_trip_index")), sc, None)
    ensures sc.editTripIndex.Some? && sc.editField.None? ==> e == Effect(Raise(KeyError("edit_field")), sc, None)
    ensures sc.editTripIndex.Some? && sc.editField.Some? && !Selected(sc) ==> e == Effect(End, sc, None)
    ensures Selected(sc) && sc.editField.value in {FieldStart, FieldEnd} ==>
              if ParseDate(Strip(text)).None? then e == Effect(Goto(AwaitNewValue), sc, None)
              else e == Effect(Goto(AwaitAfterEdit),
                               WithSnapshotInfo(sc, WithDate(SelectedEntry(sc).info, sc.editField.value, Strip(text))),
                               Some(data))
    ensures Selected(sc) && sc.editField.value == FieldTitle ==>
              var entry := SelectedEntry(sc);
              if !Has(data, entry.name) then e == Effect(Raise(KeyError(entry.name)), sc, None)
              else e == Effect(Goto(AwaitAfterEdit),
                               WithSnapshotInfo(sc, entry.info.(title := Some(Strip(text)))),
                               Some(Renamed(data, entry.name, Strip(text), entry.info)))
    ensures Selected(sc) && sc.editField.value !in {FieldStart, FieldEnd, FieldTitle} ==>
              e == Effect(Goto(AwaitAfterEdit), sc, Some(data))
  {
    var newValue := Strip(text);
    if sc.editTripIndex.None? then Effect(Raise(KeyError("edit_trip_index")), sc, None)
    else if sc.editField.None? then Effect(Raise(KeyError("edit_field")), sc, None)
    else if !Selected(sc) then Effect(End, sc, None)
    else
      var field, entry := sc.editField.value, SelectedEntry(sc);
      if field == FieldStart || field == FieldEnd then
        if ParseDate(newValue).None? then Effect(Goto(AwaitNewValue), sc, None)
        else Effect(Goto(AwaitAfterEdit), WithSnapshotInfo(sc, WithDate(entry.info, field, newValue)), Some(data))
      else if field == FieldTitle then
        if !Has(data, entry.name) then Effect(Raise(KeyError(entry.name)), sc, None)
        else Effect(Goto(AwaitAfterEdit), WithSnapshotInfo(sc, entry.info.(title := Some(newValue))),
                    Some(Renamed(data, entry.name, newValue, entry.info)))
      else Effect(Goto(AwaitAfterEdit), sc, Some(data))
  }

  /** What a rename does to the stored trips: the new name holds the snapshot's trip with its
      title set, the old name is gone, every other trip is kept, and a fresh name goes last. */
  lemma RenameMovesTrip(data: TripMap, oldName: string, newName: string, info: Trip)
    requires Has(data, oldName)
    ensures var r := Renamed(data, oldName, newName, info);
      && Has(r, newName) && Get(r, newName) == info.(title := Some(newName))
      && (oldName != newName ==> !Has(r, oldName))
      && (forall n :: n != oldName && n != newName ==> (Has(r, n) <==> Has(data, n)))
      && (forall n :: n != oldName && n != newName && Has(data, n) ==> Get(r, n) == Get(data, n))
      && (!Has(data, newName) || newName == oldName ==>
            r[|r| - 1].name == newName && |r| == |data| && Names(r)[..|r| - 1] == Names(Pop(data, oldName)))
      && (Has(data, newName) && newName != oldName ==> Names(r) == Names(Pop(data, oldName)))
  {
    var popped := Pop(data, oldName);
    var r := Renamed(data, oldName, newName, info);
    assert Assigns(popped, newName, info.(title := Some(newName)), r);
    if !Has(data, newName) || newName == oldName {
      assert !Has(popped, newName);
      assert r == popped + [Entry(newName, info.(title := Some(newName)))];
      assert Names(r)[..|r| - 1] == Names(popped);
    }
  }

  /** A date edit reaches the store only through a later rename in the same session, which
      stores the snapshot's trip with the edited date. */
  lemma DateEditPersistsOnRename(sc: Scratch, date: string, name: string, data1: TripMap, data2: TripMap)
    requires Selected(sc) && sc.editField == Some(FieldStart) && ParseDate(Strip(date)).Some?
    requires Has(data2, SelectedEntry(sc).name)
    ensures var e1 := SaveNewValue(sc, date, data1);
      && e1.saved == Some(data1)
      && var e2 := SaveNewValue(e1.scratch.(editField := Some(FieldTitle)), name, data2);
         e2.saved.Some? && Get(e2.saved.value, Strip(name)).startDate == Strip(date)
  {
    var e1 := SaveNewValue(sc, date, data1);
    var sc2 := e1.scratch.(editField := Some(FieldTitle));
    assert Selected(sc2) && SelectedEntry(sc2) == SelectedEntry(e1.scratch);
    RenameMovesTrip(data2, SelectedEntry(sc).name, Strip(name), SelectedEntry(sc2).info);
  }

  /** The snapshot keeps the old name after a rename, so renaming the same trip again in the
      same session pops a name the store no longer has and raises KeyError. */
  lemma SecondRenameRaises(sc: Scratch, first: string, second: string, data: TripMap)
    requires Selected(sc) && sc.editField == Some(FieldTitle)
    requires Has(data, SelectedEntry(sc).name) && Strip(first) != SelectedEntry(sc).name
    ensures var e1 := SaveNewValue(sc, first, data);
      && e1.step == Goto(AwaitAfterEdit) && e1.saved.Some?
      && SaveNewValue(e1.scratch, second, e1.saved.value).step == Raise(KeyError(SelectedEntry(sc).name))
  {
    var entry := SelectedEntry(sc);
    RenameMovesTrip(data, entry.name, Strip(first), entry.info);
    var e1 := SaveNewValue(sc, first, data);
    assert SelectedEntry(e1.scratch).name == entry.name;
  }

  /** A rename stores the snapshot's copy of the trip, so a document added to the stored trip
      earlier in the same session (the snapshot does not see it) is dropped. */
  lemma RenameDropsSessionDocument(sc: Scratch, doc: Document, name: string, data: TripMap)
    requires Selected(sc) && Has(data, SelectedEntry(sc).name)
    requires Get(data, SelectedEntry(sc).name) == SelectedEntry(sc).info
    requires DocumentPath(SelectedEntry(sc).name, doc.fileName) !in FilesOf(SelectedEntry(sc).info)
    ensures var old_ := SelectedEntry(sc).name;
      var path := DocumentPath(old_, doc.fileName);
      var e1 := ReceiveDocumentEdit(true, sc, Some(doc), data);
      && e1.saved.Some? && path in FilesOf(Get(e1.saved.value, old_))
      && var e2 := SaveNewValue(e1.scratch.(editField := Some(FieldTitle)), name, e1.saved.value);
         e2.saved.Some? && path !in FilesOf(Get(e2.saved.value, Strip(name)))
  {
    var entry := SelectedEntry(sc);
    var path := DocumentPath(entry.name, doc.fileName);
    var d1 := AppendFile(data, entry.name, path);
    assert ReceiveDocumentEdit(true, sc, Some(doc), data) == Effect(Goto(AwaitDocuments), sc, Some(d1));
    assert Has(d1, entry.name) && path in FilesOf(Get(d1, entry.name));
    var sc2 := sc.(editField := Some(FieldTitle));
    assert Selected(sc2) && SelectedEntry(sc2) == entry;
    assert SaveNewValue(sc2, name, d1).saved == Some(Renamed(d1, entry.name, Strip(name), entry.info));
    RenameMovesTrip(d1, entry.name, Strip(name), entry.info);
  }

  /** `after_edit_option`: 1 edits another field of the same trip, 2 shows the snapshot again
      (or ends if it is empty), 3 ends; anything else asks again. */
  function AfterEditOption(sc: Scratch, text: string): (e: Effect<EditState>)
    ensures e.scratch == sc && e.saved.None?
    ensures Strip(text) == "1" ==> e.step == Goto(AwaitField)
    ensures Strip(text) == "2" ==> e.step == if sc.tripsList.GetOr([]) == [] then End else Goto(AwaitTripId)
    ensures Strip(text) == "3" ==> e.step == End
    ensures Strip(text) !in {"1", "2", "3"} ==> e.step == Goto(AwaitAfterEdit)
  {
    var option := Strip(text);
    if option == "1" then Effect(Goto(AwaitField), sc, None)
    else if option == "2" then
      if sc.tripsList.GetOr([]) == [] then Effect(End, sc, None) else Effect(Goto(AwaitTripId), sc, None)
    else if option == "3" then Effect(End, sc, None)
    else Effect(Goto(AwaitAfterEdit), sc, None)
  }

  /** The answers `continue_edit` takes as yes. */
  predicate IsYes(answer: string) {
    answer in {"s\U{ED}", "si", "s", "yes", "y"}
  }

  /** `continue_edit`: yes goes back to the field question, anything else ends. No handler
      returns ASK_CONTINUE_EDIT, so the framework never calls it. */
  function ContinueEdit(sc: Scratch, text: string): (e: Effect<EditState>)
    ensures e.scratch == sc && e.saved.None?
    ensures e.step == if IsYes(Lower(Strip(text))) then Goto(AwaitField) else End
  {
    if IsYes(Lower(Strip(text))) then Effect(Goto(AwaitField), sc, None) else Effect(End, sc, None)
  }

  /** `receive_document_edit` (restricted): the path is appended to the stored trip named by
      the snapshot entry, and saved at once; a selection outside the snapshot, or a snapshot
      name the store no longer has, ends the conversation without a write. */
  function ReceiveDocumentEdit(authorized: bool, sc: Scratch, doc: Option<Document>, data: TripMap)
    : (e: Effect<EditState>)
    ensures e.scratch == sc
    ensures !authorized ==> e == Rejected(sc)
    ensures authorized && doc.None? ==> e == Effect(Goto(AwaitDocuments), sc, None)
    ensures authorized && doc.Some? && e.saved.None? ==> e.step == End
    ensures e.saved.Some? <==>
              (authorized && doc.Some? && sc.editTripIndex.Some? &&
               sc.editTripIndex.value < |sc.tripsList.GetOr([])| &&
               Has(data, sc.tripsList.value[sc.editTripIndex.value].name))
    ensures e.saved.Some? ==>
              (var tripName := sc.tripsList.value[sc.editTripIndex.value].name;
               e.step == Goto(AwaitDocuments) &&
               e.saved.value == AppendFile(data, tripName, DocumentPath(tripName, doc.value.fileName)))
  {
    if !authorized then Rejected(sc)
    else if doc.None? then Effect(Goto(AwaitDocuments), sc, None)
    else
      var trips := sc.tripsList.GetOr([]);
      if sc.editTripIndex.None? || sc.editTripIndex.value >= |trips| then Effect(End, sc, None)
      else
        var tripName := trips[sc.editTripIndex.value].name;
        var path := DocumentPath(tripName, doc.value.fileName);
        if !Has(data, tripName) then Effect(End, sc, None)
        else Effect(Goto(AwaitDocuments), sc, Some(AppendFile(data, tripName, path)))
  }

  /** `finish_adding_documents` (restricted): `/finish` while adding documents to a trip ends
      the whole edit conversation, not just the document step. */
  function FinishAddingDocuments(authorized: bool, sc: Scratch): (e: Effect<EditState>)
    ensures e.scratch == sc && e.saved.None?
    ensures e.step == if authorized then End else Stay
  {
    if !authorized then Rejected(sc) else Effect(End, sc, None)
  }

  /** One line of the numbered list `edit_trip_start` and option 2 of `after_edit_option`
      send: the number to type, the trip's name and its dates. */
  datatype Row = Row(number: string, name: string, startDate: string, endDate: string)

  /** Builds the numbered list of the snapshot, one row per trip in dict order. */
  method Listing(trips: seq<Entry>) returns (rows: seq<Row>)
    ensures |rows| == |trips|
    ensures forall k :: 0 <= k < |trips| ==>
      rows[k] == Row(DecimalText(k + 1), trips[k].name, trips[k].info.startDate, trips[k].info.endDate)
  {
    rows := [];
    var i := 0;
    while i < |trips|
      invariant 0 <= i <= |trips| && |rows| == i
      invariant forall k :: 0 <= k < i ==>
        rows[k] == Row(DecimalText(k + 1), trips[k].name, trips[k].info.startDate, trips[k].info.endDate)
    {
      rows := rows + [Row(DecimalText(i + 1), trips[i].name, trips[i].info.startDate, trips[i].info.endDate)];
      i := i + 1;
    }
  }

  /** Typing the number a row shows selects that row's trip. */
  lemma {:induction false} ShownNumberSelectsTrip(sc: Scratch, k: nat)
    requires sc.tripsList.Some? && k < |sc.tripsList.value|
    ensures AskFieldToEdit(sc, DecimalText(k + 1)).scratch.editTripIndex == Some(k)
    ensures AskFieldToEdit(sc, DecimalText(k + 1)).step == Goto(AwaitField)
  {
    DecimalTextIsStripped(k + 1);
    ParseIntOfDecimal(k + 1);
  }
}
