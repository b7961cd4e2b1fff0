/**
 * The bot as a mutable object: the per-user scratch dictionaries (`context.user_data`) and the
 * trip store, with one method per handler that updates them step by step as the handler does.
 * Each method is proved to have the effect its transition function describes; the properties
 * of those functions are proved in their own modules. The set of authorised users is a
 * parameter of the bot, and so is "tomorrow" for the reminder scan.
 */
module Handlers {
  import opened Wrappers
  import opened Text
  import opened Dates
  import opened Trips
  import opened TripStore
  import opened Session
  import opened Attachment
  import AddTrip
  import EditTrip
  import ProfileForm
  import Reminders

  /** A user's scratch dictionary within the map of all of them. */
  function ScratchIn(userData: map<UserId, Scratch>, u: UserId): Scratch {
    if u in userData then userData[u] else EmptyScratch
  }

  class Bot {
    const allowed: set<UserId>
    const store: Store
    var userData: map<UserId, Scratch>

    constructor (allowed: set<UserId>, store: Store)
      ensures this.allowed == allowed && this.store == store && userData == map[]
    {
      this.allowed := allowed;
      this.store := store;
      userData := map[];
    }

    function ScratchOf(u: UserId): Scratch
      reads this
    {
      ScratchIn(userData, u)
    }

    /** A handler call by user `u` had effect `e`: it returned `e.step`, left `e.scratch` as
        u's dictionary and every other user's as it was, and wrote `e.saved` for `u` if any. */
    ghost predicate Took<S>(u: UserId, e: Effect<S>, step: Step<S>, oldUserData: map<UserId, Scratch>, oldDb: Db)
      reads this, store
    {
      && step == e.step
      && ScratchOf(u) == e.scratch
      && (forall v :: v != u ==> ScratchOf(v) == ScratchIn(oldUserData, v))
      && store.db == (if e.saved.Some? then SaveTo(oldDb, u, e.saved.value) else oldDb)
    }

    /** Replaces u's scratch dictionary. */
    method SetScratch(u: UserId, sc: Scratch)
      modifies this
      ensures ScratchOf(u) == sc && forall v :: v != u ==> ScratchOf(v) == old(ScratchOf(v))
      ensures unchanged(store)
    {
      userData := userData[u := sc];
    }

    // ---- direct attachment -------------------------------------------------------------

    method HandleDocument(u: UserId, caption: Option<string>, doc: Document)
      modifies store
      ensures store.db == match Attachment.HandleDocument(u in allowed, caption, doc, old(store.Load(u)))
                          case None => old(store.db)
                          case Some(d) => SaveTo(old(store.db), u, d)
    {
      if u !in allowed { return; }
      var tripName := caption.GetOr("");
      if tripName == [] { return; }
      var data := store.Load(u);
      if !Has(data, tripName) { return; }
      var filePath := CaptionPath(tripName, doc.fileName);
      data := AppendFile(data, tripName, filePath);
      store.Save(u, data);
    }

    // ---- /addtrip ----------------------------------------------------------------------

    method AddTripStart(u: UserId, args: seq<string>) returns (step: Step<AddTrip.AddState>)
      modifies store
      ensures Took(u, AddTrip.AddTripStart(u in allowed, old(ScratchOf(u)), args, old(store.Load(u))),
                   step, old(userData), old(store.db))
    {
      if u !in allowed { return Stay; }
      if |args| >= 2 {
        var tripName, date := args[0], args[1];
        if ParseDate(date).None? { return End; }
        var data := store.Load(u);
        if Has(data, tripName) { return End; }
        data := Put(data, tripName, AddTrip.DayTrip(date));
        store.Save(u, data);
        return End;
      }
      return Goto(AddTrip.AwaitName);
    }

    method AskTripName(u: UserId, text: string) returns (step: Step<AddTrip.AddState>)
      modifies this
      ensures Took(u, AddTrip.AskTripName(old(ScratchOf(u)), text), step, old(userData), old(store.db))
    {
      var sc := ScratchOf(u);
      SetScratch(u, sc.(tripName := Some(Strip(text))));
      return Goto(AddTrip.AwaitDestination);
    }

    method AskDestination(u: UserId, text: string) returns (step: Step<AddTrip.AddState>)
      modifies this
      ensures Took(u, AddTrip.AskDestination(old(ScratchOf(u)), text), step, old(userData), old(store.db))
    {
      var destination := Strip(text);
      var sc := ScratchOf(u);
      SetScratch(u, sc.(destination := Some(destination)));
      return Goto(AddTrip.AwaitStartDate);
    }

    method AskStartDate(u: UserId, text: string) returns (step: Step<AddTrip.AddState>)
      modifies this
      ensures Took(u, AddTrip.AskStartDate(old(ScratchOf(u)), text), step, old(userData), old(store.db))
    {
      var dateText := Strip(text);
      if ParseDate(dateText).None? { return Goto(AddTrip.AwaitStartDate); }
      var sc := ScratchOf(u);
      SetScratch(u, sc.(startDate := Some(dateText)));
      return Goto(AddTrip.AwaitEndDate);
    }

    method AskEndDate(u: UserId, text: string) returns (step: Step<AddTrip.AddState>)
      modifies this
      ensures Took(u, AddTrip.AskEndDate(old(ScratchOf(u)), text), step, old(userData), old(store.db))
    {
      var endText := Strip(text);
      var sc := ScratchOf(u);
      var startText := sc.startDate.GetOr("");
      if startText == [] { return Goto(AddTrip.AwaitStartDate); }
      // Both texts must parse, and the end must not be before the start.
      if !AddTrip.EndDateAccepted(startText, endText) { return Goto(AddTrip.AwaitEndDate); }
      SetScratch(u, sc.(endDate := Some(endText), files := Some([])));
      return Goto(AddTrip.AwaitDocuments);
    }

    method CollectDocuments(u: UserId, doc: Option<Document>) returns (step: Step<AddTrip.AddState>)
      modifies this
      ensures Took(u, AddTrip.CollectDocuments(u in allowed, old(ScratchOf(u)), doc), step, old(userData), old(store.db))
    {
      if u !in allowed { return Stay; }
      if doc.None? { return Goto(AddTrip.AwaitDocuments); }
      var sc := ScratchOf(u);
      var tripName := sc.tripName.GetOr("");
      if tripName == [] { return End; }
      var filePath := DocumentPath(tripName, doc.value.fileName);
      if sc.files.None? { return Raise(KeyError("files")); }
      SetScratch(u, sc.(files := Some(sc.files.value + [filePath])));
      return Goto(AddTrip.AwaitDocuments);
    }

    method Finish(u: UserId) returns (step: Step<AddTrip.AddState>)
      modifies store
      ensures Took(u, AddTrip.Finish(u in allowed, old(ScratchOf(u)), old(store.Load(u))), step, old(userData), old(store.db))
    {
      if u !in allowed { return Stay; }
      var sc := ScratchOf(u);
      if sc.tripName.Some? {
        var tripName := sc.tripName.value;
        var data := store.Load(u);
        if sc.startDate.None? { return Raise(KeyError("start_date")); }
        if sc.endDate.None? { return Raise(KeyError("end_date")); }
        data := Put(data, tripName, AddTrip.CollectedTrip(sc));
        store.Save(u, data);
      }
      return End;
    }

    /** `cancel`, shared by both trip conversations. */
    method Cancel<S>(u: UserId) returns (step: Step<S>)
      ensures Took(u, Session.Cancel<S>(u in allowed, ScratchOf(u)), step, userData, store.db)
    {
      if u !in allowed { return Stay; }
      return End;
    }

    // ---- /edittrip ---------------------------------------------------------------------

    method EditTripStart(u: UserId) returns (step: Step<EditTrip.EditState>, rows: seq<EditTrip.Row>)
      modifies this
      ensures Took(u, EditTrip.EditTripStart(u in allowed, old(ScratchOf(u)), store.Load(u)), step, old(userData), old(store.db))
      ensures step.Goto? ==>
                |rows| == |store.Load(u)| &&
                forall k :: 0 <= k < |rows| ==>
                  rows[k].number == Numerals.DecimalText(k + 1) && rows[k].name == store.Load(u)[k].name
    {
      rows := [];
      if u !in allowed { return Stay, rows; }
      var data := store.Load(u);
      if data == [] { return End, rows; }
      var sc := ScratchOf(u);
      SetScratch(u, sc.(tripsList := Some(data)));
      rows := EditTrip.Listing(data);
      return Goto(EditTrip.AwaitTripId), rows;
    }

    method AskFieldToEdit(u: UserId, text: string) returns (step: Step<EditTrip.EditState>)
      modifies this
      ensures Took(u, EditTrip.AskFieldToEdit(old(ScratchOf(u)), text), step, old(userData), old(store.db))
    {
      var sc := ScratchOf(u);
      ghost var e := EditTrip.AskFieldToEdit(sc, text);
      var tripsList := sc.tripsList.GetOr([]);
      var tripIndex := EditTrip.SelectTrip(Strip(text), |tripsList|);
      if tripIndex.None? {
        assert e == Effect(Goto(EditTrip.AwaitTripId), sc, None);
        return Goto(EditTrip.AwaitTripId);
      }
      assert e == Effect(Goto(EditTrip.AwaitField), sc.(editTripIndex := Some(tripIndex.value)), None);
      SetScratch(u, sc.(editTripIndex := Some(tripIndex.value)));
      return Goto(EditTrip.AwaitField);
    }

    method AskNewValue(u: UserId, text: string) returns (step: Step<EditTrip.EditState>)
      modifies this
      ensures Took(u, EditTrip.AskNewValue(old(ScratchOf(u)), text), step, old(userData), old(store.db))
    {
      var field := Lower(Strip(text));
      if !EditTrip.IsField(field) { return Goto(EditTrip.AwaitField); }
      var sc := ScratchOf(u);
      if field == EditTrip.FieldDocuments {
        SetScratch(u, sc.(editField := Some(field), newFiles := Some([])));
        return Goto(EditTrip.AwaitDocuments);
      }
      SetScratch(u, sc.(editField := Some(field)));
      return Goto(EditTrip.AwaitNewValue);
    }

    method SaveNewValue(u: UserId, text: string) returns (step: Step<EditTrip.EditState>)
      modifies this, store
      ensures Took(u, EditTrip.SaveNewValue(old(ScratchOf(u)), text, old(store.Load(u))), step, old(userData), old(store.db))
    {
      var newValue := Strip(text);
      var sc := ScratchOf(u);
      if sc.editTripIndex.None? { return Raise(KeyError("edit_trip_index")); }
      var tripIndex := sc.editTripIndex.value;
      if sc.editField.None? { return Raise(KeyError("edit_field")); }
      var field := sc.editField.value;
      var data := store.Load(u);
      var tripsList := sc.tripsList.GetOr([]);
      if tripsList == [] || tripIndex >= |tripsList| { return End; }
      var tripName, tripInfo := tripsList[tripIndex].name, tripsList[tripIndex].info;
      if field == EditTrip.FieldStart || field == EditTrip.FieldEnd {
        if ParseDate(newValue).None? { return Goto(EditTrip.AwaitNewValue); }
        tripInfo := EditTrip.WithDate(tripInfo, field, newValue);
        SetScratch(u, EditTrip.WithSnapshotInfo(sc, tripInfo));
      } else if field == EditTrip.FieldTitle {
        if !Has(data, tripName) { return Raise(KeyError(tripName)); }
        data := Pop(data, tripName);
        tripName := newValue;
        tripInfo := tripInfo.(title := Some(tripName));
        SetScratch(u, EditTrip.WithSnapshotInfo(sc, tripInfo));
        data := Put(data, tripName, tripInfo);
      }
      store.Save(u, data);
      return Goto(EditTrip.AwaitAfterEdit);
    }

    method AfterEditOption(u: UserId, text: string) returns (step: Step<EditTrip.EditState>, rows: seq<EditTrip.Row>)
      ensures Took(u, EditTrip.AfterEditOption(ScratchOf(u), text), step, userData, store.db)
      ensures step == Goto(EditTrip.AwaitTripId) ==>
                var trips := ScratchOf(u).tripsList.value;
                |rows| == |trips| &&
                forall k :: 0 <= k < |rows| ==> rows[k].number == Numerals.DecimalText(k + 1) && rows[k].name == trips[k].name
    {
      rows := [];
      var option := Strip(text);
      var tripsList := ScratchOf(u).tripsList.GetOr([]);
      if option == "1" { return Goto(EditTrip.AwaitField), rows; }
      if option == "2" {
        if tripsList == [] { return End, rows; }
        rows := EditTrip.Listing(tripsList);
        return Goto(EditTrip.AwaitTripId), rows;
      }
      if option == "3" { return End, rows; }
      return Goto(EditTrip.AwaitAfterEdit), rows;
    }

    method ContinueEdit(u: UserId, text: string) returns (step: Step<EditTrip.EditState>)
      ensures Took(u, EditTrip.ContinueEdit(ScratchOf(u), text), step, userData, store.db)
    {
      var answer := Lower(Strip(text));
      if EditTrip.IsYes(answer) { return Goto(EditTrip.AwaitField); }
      return End;
    }

    method ReceiveDocumentEdit(u: UserId, doc: Option<Document>) returns (step: Step<EditTrip.EditState>)
      modifies store
      ensures Took(u, EditTrip.ReceiveDocumentEdit(u in allowed, old(ScratchOf(u)), doc, old(store.Load(u))),
                   step, old(userData), old(store.db))
    {
      if u !in allowed { return Stay; }
      if doc.None? { return Goto(EditTrip.AwaitDocuments); }
      var sc := ScratchOf(u);
      var tripsList := sc.tripsList.GetOr([]);
      if sc.editTripIndex.None? || sc.editTripIndex.value >= |tripsList| { return End; }
      var tripName := tripsList[sc.editTripIndex.value].name;
      var filePath := DocumentPath(tripName, doc.value.fileName);
      var data := store.Load(u);
      if !Has(data, tripName) { return End; }
      data := AppendFile(data, tripName, filePath);
      store.Save(u, data);
      return Goto(EditTrip.AwaitDocuments);
    }

    method FinishAddingDocuments(u: UserId) returns (step: Step<EditTrip.EditState>)
      ensures Took(u, EditTrip.FinishAddingDocuments(u in allowed, ScratchOf(u)), step, userData, store.db)
    {
      if u !in allowed { return Stay; }
      return End;
    }

    // ---- reminders ---------------------------------------------------------------------

    /** `daily_check` for the user a job was scheduled for: the trips to remind, in order. */
    method DailyCheck(u: UserId, tomorrow: Date) returns (names: seq<string>)
      requires ValidDate(tomorrow)
      ensures names == Reminders.Reminders(store.Load(u), IsoFormat(tomorrow))
    {
      var data := store.Load(u);
      var day := IsoFormat(tomorrow);
      names := [];
      var i := 0;
      while i < |data|
        invariant 0 <= i <= |data|
        invariant names == Reminders.Reminders(data[..i], day)
      {
        if data[i].info.startDate == day {
          names := names + [data[i].name];
        }
        Reminders.RemindersAppend(data[..i], [data[i]], day);
        assert data[..i + 1] == data[..i] + [data[i]];
        i := i + 1;
      }
      assert data[..|data|] == data;
    }

    // ---- /infoform ---------------------------------------------------------------------

    method StartInfoform(u: UserId) returns (step: Step<ProfileForm.InfoState>)
      ensures Took(u, ProfileForm.StartInfoform(ScratchOf(u)), step, userData, store.db)
    {
      return Goto(ProfileForm.InfoName);
    }

    method InfoformName(u: UserId, text: string) returns (step: Step<ProfileForm.InfoState>)
      modifies this
      ensures Took(u, ProfileForm.InfoformName(old(ScratchOf(u)), text), step, old(userData), old(store.db))
    {
      var sc := ScratchOf(u);
      SetScratch(u, sc.(name := Some(Strip(text))));
      return Goto(ProfileForm.InfoLastname);
    }

    method InfoformLastname(u: UserId, text: string) returns (step: Step<ProfileForm.InfoState>)
      modifies this
      ensures Took(u, ProfileForm.InfoformLastname(old(ScratchOf(u)), text), step, old(userData), old(store.db))
    {
      var sc := ScratchOf(u);
      SetScratch(u, sc.(lastname := Some(Strip(text))));
      return Goto(ProfileForm.InfoBirthdate);
    }

    method InfoformBirthdate(u: UserId, text: string) returns (step: Step<ProfileForm.InfoState>)
      ensures Took(u, ProfileForm.InfoformBirthdate(ScratchOf(u), text), step, userData, store.db)
    {
      return Raise(AttributeError("strptime"));
    }

    method InfoformCertificates(u: UserId, text: string) returns (step: Step<ProfileForm.InfoState>)
      modifies this
      ensures Took(u, ProfileForm.InfoformCertificates(old(ScratchOf(u)), text), step, old(userData), old(store.db))
    {
      var sc := ScratchOf(u);
      sc := sc.(certificates := Some(Strip(text)));
      SetScratch(u, sc);
      if sc.name.None? { return Raise(KeyError("name")); }
      if sc.lastname.None? { return Raise(KeyError("lastname")); }
      if sc.birthdate.None? { return Raise(KeyError("birthdate")); }
      return Raise(TypeError);
    }

    method FinishInfoform(u: UserId) returns (step: Step<ProfileForm.InfoState>)
      ensures Took(u, ProfileForm.FinishInfoform(ScratchOf(u)), step, userData, store.db)
    {
      if ScratchOf(u).birthdate.None? { return Stay; }
      return Raise(TypeError);
    }

    method CancelInfoform(u: UserId) returns (step: Step<ProfileForm.InfoState>)
      ensures Took(u, ProfileForm.CancelInfoform(ScratchOf(u)), step, userData, store.db)
    {
      return End;
    }
  }
}
