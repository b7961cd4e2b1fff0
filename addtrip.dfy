/**
 * The `/addtrip` conversation: the direct form `/addtrip <name> <date>` and the interactive
 * form ASK_NAME -> ASK_DESTINATION -> ASK_START_DATE -> ASK_END_DATE -> ASK_DOCUMENTS (the
 * states AwaitName ... AwaitDocuments here), left by `/finish` or `/cancel`. Each handler is
 * a function from the scratch dictionary, the user's trips as loaded and the input to the
 * handler's `Effect`.
 */
module AddTrip {
  import opened Wrappers
  import opened Text
  import opened Dates
  import opened Trips
  import opened Session
  import opened Attachment

  datatype AddState = AwaitName | AwaitDestination | AwaitStartDate | AwaitEndDate | AwaitDocuments

  /** The destination `finish` records when none was collected. */
  const DefaultDestination: string := "\U{BF}Sin destino?"

  /** A trip created by the direct form: one day, no destination, no files. */
  function DayTrip(date: string): (t: Trip)
    ensures t.startDate == date && t.endDate == date && FilesOf(t) == [] && t.files.Some?
    ensures t.destination.None? && t.title.None?
  {
    Trip(date, date, None, Some([]), None)
  }

  /** `add_trip_start` (restricted). With two or more arguments the trip is created at once,
      unless the date is not a date or the name is taken; either way the conversation ends.
      Otherwise the conversation asks for a name. */
  function AddTripStart(authorized: bool, sc: Scratch, args: seq<string>, data: TripMap)
    : (e: Effect<AddState>)
    ensures e.scratch == sc
    ensures !authorized ==> e == Rejected(sc)
    ensures authorized && |args| < 2 ==> e.step == Goto(AwaitName) && e.saved.None?
    ensures authorized && |args| >= 2 ==> e.step == End
    ensures e.saved.Some? <==>
      authorized && |args| >= 2 && ParseDate(args[1]).Some? && !Has(data, args[0])
    ensures e.saved.Some? ==> e.saved.value == data + [Entry(args[0], DayTrip(args[1]))]
  {
    if !authorized then Rejected(sc)
    else if |args| >= 2 then
      var tripName, date := args[0], args[1];
      if ParseDate(date).None? then Effect(End, sc, None)
      else if Has(data, tripName) then Effect(End, sc, None)
      else Effect(End, sc, Some(Put(data, tripName, DayTrip(date))))
    else Effect(Goto(AwaitName), sc, None)
  }

  /** `ask_trip_name`: records the stripped text as the trip name, whatever it is. */
  function AskTripName(sc: Scratch, text: string): (e: Effect<AddState>)
    ensures e.step == Goto(AwaitDestination) && e.saved.None?
    ensures e.scratch.tripName == Some(Strip(text)) && e.scratch.(tripName := sc.tripName) == sc
  {
    Effect(Goto(AwaitDestination), sc.(tripName := Some(Strip(text))), None)
  }

  /** `ask_destination`: records the stripped text as the destination. */
  function AskDestination(sc: Scratch, text: string): (e: Effect<AddState>)
    ensures e.step == Goto(AwaitStartDate) && e.saved.None?
    ensures e.scratch.destination == Some(Strip(text)) && e.scratch.(destination := sc.destination) == sc
  {
    Effect(Goto(AwaitStartDate), sc.(destination := Some(Strip(text))), None)
  }

  /** `ask_start_date`: a date moves on to the end date and is kept as typed; anything else
      asks again, changing nothing. */
  function AskStartDate(sc: Scratch, text: string): (e: Effect<AddState>)
    ensures e.saved.None?
    ensures ParseDate(Strip(text)).None? ==> e == Effect(Goto(AwaitStartDate), sc, None)
    ensures ParseDate(Strip(text)).Some? ==>
      e == Effect(Goto(AwaitEndDate), sc.(startDate := Some(Strip(text))), None)
  {
    var dateText := Strip(text);
    if ParseDate(dateText).Some? then Effect(Goto(AwaitEndDate), sc.(startDate := Some(dateText)), None)
    else Effect(Goto(AwaitStartDate), sc, None)
  }

  /** The end date `ask_end_date` accepts for a recorded start date: both are dates and the end
      is not before the start. */
  predicate EndDateAccepted(startText: string, endText: string) {
    ParseDate(startText).Some? && ParseDate(endText).Some? &&
    !Before(ParseDate(endText).value, ParseDate(startText).value)
  }

  /** `ask_end_date`: without a start date it goes back to ASK_START_DATE; an end date that
      is not a date, or is before the start, asks again for the end date only; otherwise the
      end date is kept as typed, the scratch file list starts empty and documents are awaited.
      Nothing is saved. */
  function AskEndDate(sc: Scratch, text: string): (e: Effect<AddState>)
    ensures e.saved.None?
    ensures sc.startDate.None? || sc.startDate.value == [] ==> e == Effect(Goto(AwaitStartDate), sc, None)
    ensures sc.startDate.Some? && sc.startDate.value != [] ==>
      if EndDateAccepted(sc.startDate.value, Strip(text)) then
        e == Effect(Goto(AwaitDocuments), sc.(endDate := Some(Strip(text)), files := Some([])), None)
      else e == Effect(Goto(AwaitEndDate), sc, None)
  {
    var endText := Strip(text);
    var startText := sc.startDate.GetOr("");
    if startText == [] then Effect(Goto(AwaitStartDate), sc, None)
    else
      var start, end := ParseDate(startText), ParseDate(endText);
      if start.None? || end.None? then Effect(Goto(AwaitEndDate), sc, None)
      else if Before(end.value, start.value) then Effect(Goto(AwaitEndDate), sc, None)
      else Effect(Goto(AwaitDocuments), sc.(endDate := Some(endText), files := Some([])), None)
  }

  /** `collect_documents` (restricted): the document's path is appended to the scratch file
      list; the store is not written. Without a trip name the conversation ends. */
  function CollectDocuments(authorized: bool, sc: Scratch, doc: Option<Document>): (e: Effect<AddState>)
    ensures e.saved.None?
    ensures !authorized ==> e == Rejected(sc)
    ensures authorized && doc.None? ==> e == Effect(Goto(AwaitDocuments), sc, None)
    ensures authorized && doc.Some? && (sc.tripName.None? || sc.tripName.value == []) ==> e == Effect(End, sc, None)
    ensures authorized && doc.Some? && sc.tripName.Some? && sc.tripName.value != [] && sc.files.None? ==>
      e == Effect(Raise(KeyError("files")), sc, None)
    ensures authorized && doc.Some? && sc.tripName.Some? && sc.tripName.value != [] && sc.files.Some? ==>
      e == Effect(Goto(AwaitDocuments),
                  sc.(files := Some(sc.files.value + [DocumentPath(sc.tripName.value, doc.value.fileName)])), None)
  {
    if !authorized then Rejected(sc)
    else if doc.None? then Effect(Goto(AwaitDocuments), sc, None)
    else
      var tripName := sc.tripName.GetOr("");
      if tripName == [] then Effect(End, sc, None)
      else if sc.files.None? then Effect(Raise(KeyError("files")), sc, None)
      else Effect(Goto(AwaitDocuments), sc.(files := Some(sc.files.value + [DocumentPath(tripName, doc.value.fileName)])), None)
  }

  /** The trip `finish` writes from the scratch dictionary. */
  function CollectedTrip(sc: Scratch): (t: Trip)
    requires sc.startDate.Some? && sc.endDate.Some?
    ensures t.startDate == sc.startDate.value && t.endDate == sc.endDate.value && t.title.None?
    ensures t.destination == Some(if sc.destination.Some? then sc.destination.value else DefaultDestination)
    ensures FilesOf(t) == (if sc.files.Some? then sc.files.value else []) && t.files.Some?
  {
    Trip(sc.startDate.value, sc.endDate.value, Some(sc.destination.GetOr(DefaultDestination)),
         Some(sc.files.GetOr([])), None)
  }

  /** `finish` (restricted): writes the collected trip under the collected name, replacing a
      trip of that name if there is one, and ends the conversation. */
  function Finish(authorized: bool, sc: Scratch, data: TripMap): (e: Effect<AddState>)
    ensures e.scratch == sc
    ensures !authorized ==> e == Rejected(sc)
    ensures authorized && sc.tripName.None? ==> e == Effect(End, sc, None)
    ensures authorized && sc.tripName.Some? && sc.startDate.None? ==> e.step == Raise(KeyError("start_date"))
    ensures authorized && sc.tripName.Some? && sc.startDate.Some? && sc.endDate.None? ==>
              e.step == Raise(KeyError("end_date"))
    ensures e.saved.Some? <==> authorized && sc.tripName.Some? && sc.startDate.Some? && sc.endDate.Some?
    ensures e.saved.Some? ==>
              e.step == End && Assigns(data, sc.tripName.value, CollectedTrip(sc), e.saved.value)
  {
    if !authorized then Rejected(sc)
    else if sc.tripName.None? then Effect(End, sc, None)
    else if sc.startDate.None? then Effect(Raise(KeyError("start_date")), sc, None)
    else if sc.endDate.None? then Effect(Raise(KeyError("end_date")), sc, None)
    else Effect(End, sc, Some(Put(data, sc.tripName.value, CollectedTrip(sc))))
  }

  // ---------------------------------------------------------------------------------------
  // Runs of several events.
  // ---------------------------------------------------------------------------------------

  /** Feeding a sequence of documents to the ASK_DOCUMENTS state, one event after another,
      for as long as the conversation stays there without writing. */
  function Feed(e: Effect<AddState>, docs: seq<Document>): Effect<AddState>
    decreases |docs|
  {
    if docs == [] || e.step != Goto(AwaitDocuments) || e.saved.Some? then e
    else Feed(CollectDocuments(true, e.scratch, Some(docs[0])), docs[1..])
  }

  /** The paths recorded for a sequence of documents, in order. */
  function DocumentPaths(tripName: string, docs: seq<Document>): seq<string>
  {
    if docs == [] then [] else [DocumentPath(tripName, docs[0].fileName)] + DocumentPaths(tripName, docs[1..])
  }

  /** One document appends its path to the scratch list. */
  lemma CollectingOneDocument(sc: Scratch, fs: seq<string>, doc: Document)
    requires sc.tripName.Some? && sc.tripName.value != []
    ensures CollectDocuments(true, sc.(files := Some(fs)), Some(doc)) ==
      Effect(Goto(AwaitDocuments), sc.(files := Some(fs + [DocumentPath(sc.tripName.value, doc.fileName)])), None)
  {
  }

  /** Feeding one document and then the others is feeding them all. */
  lemma FeedStep(sc: Scratch, fs: seq<string>, docs: seq<Document>)
    requires sc.tripName.Some? && sc.tripName.value != [] && docs != []
    ensures Feed(Effect(Goto(AwaitDocuments), sc.(files := Some(fs)), None), docs) ==
      Feed(Effect(Goto(AwaitDocuments), sc.(files := Some(fs + [DocumentPath(sc.tripName.value, docs[0].fileName)])), None), docs[1..])
  {
    CollectingOneDocument(sc, fs, docs[0]);
  }

  /** N documents leave exactly N more paths in the scratch list, in the order received, and
      nothing in the store. */
  lemma {:induction false} CollectingDocuments(sc: Scratch, fs: seq<string>, docs: seq<Document>)
    requires sc.tripName.Some? && sc.tripName.value != []
    ensures Feed(Effect(Goto(AwaitDocuments), sc.(files := Some(fs)), None), docs) ==
      Effect(Goto(AwaitDocuments), sc.(files := Some(fs + DocumentPaths(sc.tripName.value, docs))), None)
    decreases |docs|
  {
    var tripName := sc.tripName.value;
    if docs == [] {
      assert fs + DocumentPaths(tripName, docs) == fs;
    } else {
      var fs' := fs + [DocumentPath(tripName, docs[0].fileName)];
      FeedStep(sc, fs, docs);
      CollectingDocuments(sc, fs', docs[1..]);
      assert fs + DocumentPaths(tripName, docs) == fs' + DocumentPaths(tripName, docs[1..]);
    }
  }

  /** An end date equal to the start date is accepted. */
  lemma SameDayAccepted(sc: Scratch, text: string)
    requires sc.startDate == Some(Strip(text)) && ParseDate(Strip(text)).Some? && Strip(text) != []
    ensures AskEndDate(sc, text) ==
      Effect(Goto(AwaitDocuments), sc.(endDate := Some(Strip(text)), files := Some([])), None)
  {
    BeforeIsStrictTotal(ParseDate(Strip(text)).value, ParseDate(Strip(text)).value, ParseDate(Strip(text)).value);
  }

  /** An end date before the start date asks for the end date again and keeps the start. */
  lemma EndBeforeStartRePrompts(sc: Scratch, text: string)
    requires sc.startDate.Some? && sc.startDate.value != []
    requires ParseDate(sc.startDate.value).Some? && ParseDate(Strip(text)).Some?
    requires Before(ParseDate(Strip(text)).value, ParseDate(sc.startDate.value).value)
    ensures AskEndDate(sc, text) == Effect(Goto(AwaitEndDate), sc, None)
    ensures AskEndDate(sc, text).scratch.startDate == sc.startDate
  {
  }

  /** The whole interactive form: a name, a destination, two accepted dates, any number of
      documents and `/finish` write one trip holding exactly what was typed and sent, under
      the typed name. */
  lemma InteractiveAddWritesCollectedTrip(sc: Scratch, name: string, dest: string, start: string, end: string,
                                          docs: seq<Document>, data: TripMap)
    requires Strip(name) != [] && ParseDate(Strip(start)).Some? && EndDateAccepted(Strip(start), Strip(end))
    ensures
      var e1 := AskTripName(sc, name);
      var e2 := AskDestination(e1.scratch, dest);
      var e3 := AskStartDate(e2.scratch, start);
      var e4 := AskEndDate(e3.scratch, end);
      var e5 := Feed(e4, docs);
      var e6 := Finish(true, e5.scratch, data);
      && e5.saved.None?
      && e6.step == End
      && e6.saved == Some(Put(data, Strip(name), Trip(Strip(start), Strip(end), Some(Strip(dest)),
                                                      Some(DocumentPaths(Strip(name), docs)), None)))
  {
    RejectedLayouts();
    var sc3 := sc.(tripName := Some(Strip(name)), destination := Some(Strip(dest)), startDate := Some(Strip(start)));
    assert AskStartDate(AskDestination(AskTripName(sc, name).scratch, dest).scratch, start) ==
      Effect(Goto(AwaitEndDate), sc3, None);
    var sc4 := sc3.(endDate := Some(Strip(end)), files := Some([]));
    assert AskEndDate(sc3, end) == Effect(Goto(AwaitDocuments), sc4, None);
    CollectingDocuments(sc4, [], docs);
    assert [] + DocumentPaths(Strip(name), docs) == DocumentPaths(Strip(name), docs);
  }

  /** The paths of two documents sent for the trip "Rome". */
  lemma RomePaths(f1: Document, f2: Document)
    ensures DocumentPaths("Rome", [f1, f2]) == ["files/Rome_" + f1.fileName, "files/Rome_" + f2.fileName]
  {
    assert ReplaceSpaces("Rome") == "Rome";
    assert FilesDir + "/" + "Rome" + "_" == "files/Rome_";
    assert DocumentPath("Rome", f1.fileName) == "files/Rome_" + f1.fileName;
    assert DocumentPath("Rome", f2.fileName) == "files/Rome_" + f2.fileName;
    assert [f1, f2][1..] == [f2];
    assert DocumentPaths("Rome", [f2]) == [DocumentPath("Rome", f2.fileName)];
  }

  /** The worked example: "Rome", "Italy", 2025-06-01 to 2025-06-10 and two documents give
      exactly that trip, with the two document paths in the order sent. */
  lemma RomeExample(sc: Scratch, f1: Document, f2: Document, data: TripMap)
    ensures
      var e1 := AskTripName(sc, "Rome");
      var e2 := AskDestination(e1.scratch, "Italy");
      var e3 := AskStartDate(e2.scratch, "2025-06-01");
      var e4 := AskEndDate(e3.scratch, "2025-06-10");
      var e6 := Finish(true, Feed(e4, [f1, f2]).scratch, data);
      e6.saved == Some(Put(data, "Rome", Trip("2025-06-01", "2025-06-10", Some("Italy"),
                                             Some(["files/Rome_" + f1.fileName, "files/Rome_" + f2.fileName]), None)))
  {
    StripKeepsUnpadded("Rome");
    StripKeepsUnpadded("Italy");
    StripKeepsUnpadded("2025-06-01");
    StripKeepsUnpadded("2025-06-10");
    AcceptedFirstOfJune();
    AcceptedTenthOfJune();
    assert EndDateAccepted("2025-06-01", "2025-06-10");
    InteractiveAddWritesCollectedTrip(sc, "Rome", "Italy", "2025-06-01", "2025-06-10", [f1, f2], data);
    RomePaths(f1, f2);
  }
}
