# Viajante trip bot — a Dafny model of its handlers

Viajante is a Telegram bot, written in Python in a single file (`main.py`), for a small set of
authorised users. It keeps each user's trips (name, start and end date, destination, attached
documents) in one JSON file and sends a reminder the day before a trip starts. Users drive it
through three conversations:

- `/addtrip` creates a trip, either directly or with a question-and-answer form;
- `/edittrip` renames a trip, changes one of its dates or adds documents to it;
- `/infoform` collects a profile.

A document sent with a trip name as its caption is attached to that trip.

This project models the bot's handlers and proves properties of that model. The layers are:

- **Data and helpers.**
  - `Trips`: a user's trips as an insertion-ordered dict. Python dicts keep insertion order, and the bot lists and scans trips in that order.
  - `TripStore`: the JSON store, through `load_data` and `save_data`.
  - `Text`: `str.strip`, `str.lower`, `str.replace` and `os.path.join`.
  - `Numerals`: `str(n)` and `int(text)`.
  - `Dates`: `strptime(text, "%Y-%m-%d")`, following the regular expression CPython compiles, and `date.isoformat()`.
  - `Attachment`: the file paths the handlers record.
- **Handlers as functions.** `AddTrip`, `EditTrip` and `ProfileForm` give each handler as a function. The function maps the user's scratch dictionary (`context.user_data`), the user's stored trips and the input to an `Effect`. An `Effect` holds three things:
  - the value returned to the conversation framework: a state, `END`, `None`, or an escaping exception;
  - the new scratch dictionary;
  - the dict passed to `save_data`, if any.
- **Reminders.** `Reminders` models the daily reminder.
- **The bot as an object.** `Handlers.Bot` is a class whose fields are the per-user scratch dictionaries and the store. It has one method per handler, and each method is proved to have exactly the effect of its function.

The set of authorised users is a constructor parameter of `Bot`. "Tomorrow" is a parameter of
the reminder scan.

The model follows the code as written, including where it departs from what the bot's own replies announce (main.py:150, 256, 360-361, 571, 593):

- **Interactive add overwrites.** The interactive `/addtrip` form replaces an existing trip of the same name without asking. Only the direct form `/addtrip <name> <date>` refuses a taken name.
- **Date edits are not saved.** A date edit in `/edittrip` changes only the copy of the trip list taken when the conversation started (the snapshot). It saves the stored trips unchanged and never checks the end against the start.
- **Renames store the snapshot.** A rename stores the snapshot's copy of the trip, with a `title` key added, under the new name. So it drops documents added earlier in the same session and keeps earlier date edits. The snapshot keeps the old name, so a second rename of the same trip raises KeyError.
- **Non-ISO dates are never reminded.** The date check accepts one-digit months and days and a space-padded day (`2025-6-1`, `2025-06- 1`). The reminder compares texts with the ISO spelling, so a trip whose start date was typed another way is never reminded.
- **The profile is never written.** The birthdate step looks up `strptime` on the `datetime` module, which raises AttributeError. Both steps that would write the profile call `save_data` with one argument, which raises TypeError.
- **`/finish` ends the edit.** `/finish` while adding documents in `/edittrip` ends the whole edit conversation.
- **One user per reminder job.** The reminder job scans one user's trips: the one the job was scheduled for.

## Model

| member | source | states |
|---|---|---|
| TripStore.LoadFrom | main.py:47-54 | `load_data(u)`: the user's entry, or the empty dict for a user without one |
| TripStore.SaveTo | main.py:56-60 | `save_data`: the saved user's entry is `d`, every other user's entry is kept, no other key appears |
| TripStore.LoadAfterSave | main.py:47-60 | loading after `save_data(u, d)` gives `d` for `u` and the old entry for every other user |
| TripStore.LoadUnknown | main.py:47-54 | a user without an entry loads as the empty dict |
| TripStore.Store.Save | main.py:56-60 | the store after saving is the old store with one entry replaced; `u` loads `d`, every other user loads what it did |
| TripStore.Store.Load | main.py:47-54 | `load_data(u)` on the store's current content: the user's entry, or the empty dict |
| Trips.IndexOf | main.py:119 | `name in data`: the position found holds the name; when none is found no entry has it |
| Trips.IndexOfUnique | main.py:119 | in a dict each key sits at one position only |
| Trips.Names | main.py:277 | the keys in dict order |
| Trips.Put | main.py:249-254 | `data[name] = t`: an existing key keeps its place and takes `t`, a new key goes last, every other key keeps its value |
| Trips.Pop | main.py:351 | `data.pop(name)`: the key is gone, one entry fewer, every other key present with its value and in its order |
| Trips.RemoveAtKeepsOrder | main.py:351 | removing one entry keeps the names distinct and the others in order |
| Trips.RemoveAtKeepsOthers | main.py:351 | removing one entry keeps every other key with its value |
| Trips.AppendFile | main.py:131-133 | the trip's file list (created empty when missing) gains the path at its end; keys, order, other fields and other trips unchanged |
| Text.IsSpace | main.py:169 | the characters `str.isspace()` accepts, which `strip()` removes |
| Text.TrimStart | main.py:169 | the result is no longer than the input and does not start with white space |
| Text.TrimEnd | main.py:169 | the result is a prefix of the input that does not end with white space |
| Text.Strip | main.py:169 | `str.strip()`: no longer than the input, no white space at either end |
| Text.TrimStartRemovesSpace | main.py:169 | what `TrimStart` removes is a prefix made only of white space |
| Text.TrimEndRemovesSpace | main.py:169 | what `TrimEnd` removes is a suffix made only of white space |
| Text.StripRemovesOnlySpace | main.py:169 | the stripped text is an infix of the input and every character removed is white space |
| Text.StripKeepsUnpadded | main.py:169 | a text without white space at its ends is unchanged by strip |
| Text.StripIdempotent | main.py:286 | stripping twice is stripping once |
| Text.LowerChar | main.py:305 | ASCII and Latin-1 capitals (U+00C0-U+00DE except U+00D7) map to their lower-case letter, so `TÍTULO` lowers to `título`; every other character, `×` included, is kept |
| Text.Lower | main.py:305 | `str.lower()`: same length, each character lowered |
| Text.ReplaceSpaces | main.py:123 | `replace(" ", "_")`: same length, no space left, spaces become `_`, everything else kept |
| Text.PathJoin | main.py:124-127 | `os.path.join`: ends with its second argument, an absolute second argument wins, otherwise one `/` joins them unless the first is empty or already ends with `/` |
| Numerals.DigitChar | main.py:278 | the digit character of a value below ten, whose value is that number |
| Numerals.DecimalText | main.py:278 | `str(n)`: a non-empty digit string without leading zero that denotes `n` |
| Numerals.IsNumeral | main.py:286 | the body of a base-10 `int()` literal: digits, with single underscores between two digits |
| Numerals.NumeralValue | main.py:286 | the value of such a literal, its underscores ignored |
| Numerals.IntLiteral | main.py:286 | an accepted literal is non-empty and a negative value needs a leading `-` |
| Numerals.ParseInt | main.py:286 | `int(text)`: succeeds only on text that is not blank, and negative only after `-` |
| Numerals.DecimalTextIsStripped | main.py:278-286 | `str(n)` has no white space to strip |
| Numerals.IntLiteralOfDecimal | main.py:278-286 | the decimal text of `n` is a literal for `n` |
| Numerals.ParseIntOfDecimal | main.py:277-286 | `int(str(n)) == n` |
| Dates.DaysInMonth | main.py:182 | 28 to 31 days; 29 exactly for February of a leap year |
| Dates.ValidDate | main.py:182 | the dates `datetime.date` represents: year 1 to 9999, month 1 to 12, day within the month |
| Dates.Before | main.py:201 | `<` on dates: chronological order |
| Dates.MatchDay | main.py:182 | the `%d` group: the first alternative that matches, with the characters it consumes |
| Dates.MatchMonthDay | main.py:182 | the `%m-%d` part, trying the month alternatives in order with backtracking |
| Dates.MatchDateFormat | main.py:182 | the `%Y-%m-%d` match at the start of the text and its length |
| Dates.BeforeIsStrictTotal | main.py:201 | `<` on dates is irreflexive, transitive and total |
| Dates.ParseDate | main.py:182 | `strptime(s, "%Y-%m-%d")`: only valid calendar dates are returned |
| Dates.ParseDateSound | main.py:182 | every accepted text spells the date returned in an accepted layout |
| Dates.ParseDateComplete | main.py:182 | every accepted spelling of a valid date is read as that date |
| Dates.ParseDateIff | main.py:182 | a text is read as `d` if and only if `d` is valid and the text spells it |
| Dates.IsoFormat | main.py:470 | `isoformat()`: ten characters spelling the date, with a four-digit year and two-digit month and day |
| Dates.ParseIsoFormat | main.py:470-472 | reading back the ISO spelling of a valid date gives the date |
| Dates.Pad4RoundTrip | main.py:182 | a year written with four digits reads back as itself |
| Dates.RejectedLayouts | main.py:186-188 | empty text, slashes, day-first order and trailing characters are refused |
| Dates.RejectedImpossibleDates | main.py:186-188 | 29 February of a common year, year 0 and month 13 are refused |
| Dates.AcceptedLeapDay | main.py:182 | 29 February of a leap year is accepted |
| Dates.AcceptedShortSpelling | main.py:182 | one-digit month and day are accepted |
| Dates.AcceptedSpacePaddedDay | main.py:182 | a day written as a space and a digit is accepted |
| Dates.AcceptedFirstOfJune | main.py:182 | `2025-06-01` is read as 1 June 2025 |
| Dates.AcceptedTenthOfJune | main.py:199 | `2025-06-10` is read as 10 June 2025 |
| Session.Rejected | main.py:62-72 | `@restricted` turns away a user who is not authorised: `None`, nothing changed, nothing saved |
| Session.Cancel | main.py:261-264 | `cancel` ends the conversation for an authorised user and touches neither the scratch nor the store |
| Attachment.DocumentPath | main.py:231-232 | `files/<name with _ for spaces>_<file name>` for a relative trip name |
| Attachment.CaptionPath | main.py:123-127 | `files/<name with _ for spaces>/<file name>`, or the file name when it is absolute |
| Attachment.HandleDocument | main.py:108-136 | a write happens exactly when the user is authorised and the caption names a stored trip; it appends the caption path to that trip |
| Attachment.DirectAttachmentAppendsOne | main.py:131-134 | one path more, at the end of that trip's list; nothing else changes |
| AddTrip.DayTrip | main.py:153-157 | the trip of the direct form: start and end the given date, an empty file list, no destination |
| AddTrip.AddTripStart | main.py:139-166 | with two arguments: ends, and saves a one-day trip at the end of the dict exactly when the date is valid and the name is new; otherwise asks for a name |
| AddTrip.AskTripName | main.py:168-171 | stores the stripped name, changes nothing else, asks for the destination |
| AddTrip.AskDestination | main.py:173-177 | stores the stripped destination, changes nothing else, asks for the start date |
| AddTrip.AskStartDate | main.py:179-188 | a valid date is kept as typed and the end date is asked; otherwise nothing changes and the start date is asked again |
| AddTrip.EndDateAccepted | main.py:198-201 | both texts are dates and the end is not before the start |
| AddTrip.AskEndDate | main.py:190-217 | no start date: back to the start date; an end that is not a date or is before the start: asked again, nothing changed; else end kept and file list emptied |
| AddTrip.CollectDocuments | main.py:219-241 | each branch: not authorised, no document, no trip name (END), no file list (KeyError), or the path appended to the scratch list; never saved |
| AddTrip.CollectedTrip | main.py:249-254 | the trip `finish` writes: the collected dates, the destination or `¿Sin destino?`, the collected files or `[]` |
| AddTrip.Finish | main.py:243-259 | saves exactly when a name and both dates were collected, as a `data[name] = trip` assignment of the collected trip; KeyError for a missing date |
| AddTrip.CollectingOneDocument | main.py:237 | one document appends its path to the scratch list |
| AddTrip.FeedStep | main.py:237 | feeding one document and then the rest is feeding them all |
| AddTrip.CollectingDocuments | main.py:219-241 | N documents leave exactly their N paths, in order, after the previous list, and no store write |
| AddTrip.SameDayAccepted | main.py:201-213 | an end date equal to the start date is accepted |
| AddTrip.EndBeforeStartRePrompts | main.py:201-203 | an end before the start asks again and keeps the start |
| AddTrip.InteractiveAddWritesCollectedTrip | main.py:168-259 | the whole form writes one trip made of exactly the typed name, destination, dates and the sent documents' paths |
| AddTrip.RomePaths | main.py:231-232 | the two documents of trip "Rome" are recorded as `files/Rome_<file name>` |
| AddTrip.RomeExample | main.py:168-259 | "Rome", "Italy", 2025-06-01, 2025-06-10 and two documents store exactly that trip with both paths in order |
| EditTrip.EditTripStart | main.py:267-282 | no trips: END; otherwise the trips are copied into the scratch in dict order; never saved |
| EditTrip.SelectTrip | main.py:286-290 | a selection exists exactly when `int(text)` is between 1 and the number of trips, and it is that number minus one |
| EditTrip.AskFieldToEdit | main.py:284-302 | a valid number records the index and asks the field; anything else asks again and changes nothing |
| EditTrip.IsField | main.py:306 | the four field names `título`, `inicio`, `fin`, `documentos` |
| EditTrip.AskNewValue | main.py:304-327 | a field outside the four asks again and changes nothing; `documentos` (and only it) empties the new-file list and goes to documents, the other three ask for the value; the field is recorded and no other scratch key changes |
| EditTrip.WithSnapshotInfo | main.py:346-353 | only the selected snapshot entry changes, keeping its name; every other scratch key is as it was |
| EditTrip.WithDate | main.py:344-349 | `inicio` sets the start, `fin` the end, every other field kept |
| EditTrip.Renamed | main.py:350-354 | the stored trips after a rename: the new name holds the snapshot's trip with `title` set, the old name is gone |
| EditTrip.SaveNewValue | main.py:329-372 | each branch: missing index or field (KeyError), selection outside the snapshot (END), a date edit on the snapshot only, a rename storing the snapshot's trip under the new name (KeyError when the old name is gone), any other field saving the trips unchanged |
| EditTrip.RenameMovesTrip | main.py:350-354 | after a rename the new name holds the snapshot's trip titled, the old name is gone, the other trips are kept in their order, a fresh name goes last |
| EditTrip.DateEditPersistsOnRename | main.py:344-358 | a date edit saves the trips unchanged, and a later rename stores the edited date |
| EditTrip.SecondRenameRaises | main.py:341-354 | renaming the same trip twice in one session raises KeyError for the old name |
| EditTrip.RenameDropsSessionDocument | main.py:341-358 | a document added in the session is in the stored trip, and a later rename removes it |
| EditTrip.AfterEditOption | main.py:374-407 | 1 asks the field, 2 lists the trips again (END if none), 3 ends, anything else asks again; nothing changes |
| EditTrip.IsYes | main.py:411 | the answers taken as yes: `sí`, `si`, `s`, `yes`, `y` |
| EditTrip.ContinueEdit | main.py:409-421 | a yes answer asks the field, anything else ends; nothing changes |
| EditTrip.ReceiveDocumentEdit | main.py:423-459 | a write happens exactly when a document arrives for a selected snapshot trip the store still has, and appends its path; otherwise END (or wait for a document) |
| EditTrip.FinishAddingDocuments | main.py:461-464 | `/finish` ends the whole conversation for an authorised user |
| EditTrip.Listing | main.py:276-278 | one row per trip, in order, numbered from 1 with `str(k + 1)`, with the trip's name and dates |
| EditTrip.ShownNumberSelectsTrip | main.py:277-292 | typing the number shown for a row selects that row's trip |
| Reminders.Reminders | main.py:471-476 | no more reminders than trips |
| Reminders.RemindersExact | main.py:471-476 | a name is reminded exactly when a trip of that name starts on the day |
| Reminders.RemindersAppend | main.py:471-476 | the reminders of two lists of trips are those of each, in order |
| Reminders.NonIsoSpellingNeverReminded | main.py:470-472 | a start date spelt other than in ISO form is never reminded |
| Reminders.ShortSpelledTripNeverReminded | main.py:147-158 | `/addtrip Roma 2025-6-1` is accepted but the trip is never reminded |
| Reminders.IsoStartDateRemindedOnlyTheDayBefore | main.py:470-472 | an ISO start date is reminded exactly when tomorrow is that date |
| ProfileForm.StartInfoform | main.py:523-525 | asks for the name; nothing changes |
| ProfileForm.InfoformName | main.py:528-531 | records the stripped name, changes nothing else, asks for the last name |
| ProfileForm.InfoformLastname | main.py:534-537 | records the stripped last name, changes nothing else, asks for the birthdate |
| ProfileForm.InfoformBirthdate | main.py:540-550 | always raises AttributeError and records nothing |
| ProfileForm.InfoformCertificates | main.py:553-572 | records the certificates, then raises KeyError for the first missing key, else TypeError; never saves |
| ProfileForm.FinishInfoform | main.py:574-593 | returns `None` until a birthdate is recorded, TypeError after; never saves |
| ProfileForm.CancelInfoform | main.py:595-597 | ends the form; nothing changes |
| ProfileForm.FormStep | main.py:684-696 | outside the form only `/infoform` has an effect |
| ProfileForm.RunForm | main.py:684-696 | the form after a sequence of updates, one `FormStep` each |
| ProfileForm.FormNeverRecordsBirthdate | main.py:540-593 | whatever is sent, the form never reaches the certificates step, no birthdate is recorded and `/finish` refuses |
| Handlers.Bot.constructor | main.py:33-37 | a bot with the given authorised users and store, and no scratch data |
| Handlers.Bot.HandleDocument | main.py:108-136 | the store is written exactly as `Attachment.HandleDocument` says |
| Handlers.Bot.AddTripStart | main.py:139-166 | the effect of `AddTrip.AddTripStart` on the user's scratch, the other users' scratch and the store |
| Handlers.Bot.AskTripName | main.py:168-171 | the effect of `AddTrip.AskTripName` |
| Handlers.Bot.AskDestination | main.py:173-177 | the effect of `AddTrip.AskDestination` |
| Handlers.Bot.AskStartDate | main.py:179-188 | the effect of `AddTrip.AskStartDate` |
| Handlers.Bot.AskEndDate | main.py:190-217 | the effect of `AddTrip.AskEndDate` |
| Handlers.Bot.CollectDocuments | main.py:219-241 | the effect of `AddTrip.CollectDocuments` |
| Handlers.Bot.Finish | main.py:243-259 | the effect of `AddTrip.Finish` |
| Handlers.Bot.Cancel | main.py:261-264 | the effect of `Session.Cancel` |
| Handlers.Bot.EditTripStart | main.py:267-282 | the effect of `EditTrip.EditTripStart`, and the numbered rows of the stored trips |
| Handlers.Bot.AskFieldToEdit | main.py:284-302 | the effect of `EditTrip.AskFieldToEdit` |
| Handlers.Bot.AskNewValue | main.py:304-327 | the effect of `EditTrip.AskNewValue` |
| Handlers.Bot.SaveNewValue | main.py:329-372 | the effect of `EditTrip.SaveNewValue` |
| Handlers.Bot.AfterEditOption | main.py:374-407 | the effect of `EditTrip.AfterEditOption`, and the numbered rows of the snapshot for option 2 |
| Handlers.Bot.ContinueEdit | main.py:409-421 | the effect of `EditTrip.ContinueEdit` |
| Handlers.Bot.ReceiveDocumentEdit | main.py:423-459 | the effect of `EditTrip.ReceiveDocumentEdit` |
| Handlers.Bot.FinishAddingDocuments | main.py:461-464 | the effect of `EditTrip.FinishAddingDocuments` |
| Handlers.Bot.DailyCheck | main.py:467-476 | the reminders sent are `Reminders.Reminders` of the user's trips for the ISO spelling of tomorrow |
| Handlers.Bot.StartInfoform | main.py:523-525 | the effect of `ProfileForm.StartInfoform` |
| Handlers.Bot.InfoformName | main.py:528-531 | the effect of `ProfileForm.InfoformName` |
| Handlers.Bot.InfoformLastname | main.py:534-537 | the effect of `ProfileForm.InfoformLastname` |
| Handlers.Bot.InfoformBirthdate | main.py:540-550 | the effect of `ProfileForm.InfoformBirthdate` |
| Handlers.Bot.InfoformCertificates | main.py:553-572 | the effect of `ProfileForm.InfoformCertificates` |
| Handlers.Bot.FinishInfoform | main.py:574-593 | the effect of `ProfileForm.FinishInfoform` |
| Handlers.Bot.CancelInfoform | main.py:595-597 | the effect of `ProfileForm.CancelInfoform` |

## Left out

- Telegram transport, keyboards and reply texts: leaving them out is the point of the model. The numbered listing is modelled as rows, not as formatted text.
- Handler precedence is not modelled; each handler is modelled on its own.
  - The bot registers the plain document handler (main.py:700) before both conversations (main.py:701-702). A document sent inside a conversation therefore reaches `handle_document`, not `collect_documents` or `receive_document_edit`.
  - `/infoform` and `/finish` are registered as plain commands (main.py:707-708) ahead of the form's conversation (main.py:710). In the same handler group the first matching handler consumes an update, so `/infoform` runs `start_infoform` as a one-off reply and the form's conversation is never entered. The `ProfileForm` handlers, `ProfileForm.FormStep` and `ProfileForm.FormNeverRecordsBirthdate` therefore describe the form as its own ConversationHandler defines it, in isolation. `/finish` outside the trip conversations reaches `finish_infoform` directly.
- File download and directory creation: I/O. Only the recorded path strings are modelled.
- The JSON file, its encoding, and races between concurrent handlers. The store is a map from user to trips. A save is modelled as the atomic update `save_data` intends.
- Job scheduling and `date.today()`: "tomorrow" is a parameter of `Handlers.Bot.DailyCheck`, and the job's user id is its argument.
- `start`, `list_trips`, `handle_menu`, `start_notifications`, `my_profile`, `get_id`, `set_commands` and `error_handler` are not part of this model. They only format replies, register jobs or log.
- Dates.ParseDate: the `%Y` digits and the free digit of the `[1-2]\d` alternative of `%d` are ASCII only; strptime also accepts other Unicode decimal digits there.
- Numerals.ParseInt: ASCII digits only, for the same reason.
- Text.LowerChar: lowers ASCII and Latin-1 capitals only, not the rest of Unicode.
- Handlers.Bot.HandleDocument: `document.file_name` is taken to be present; Telegram may omit it, and the code would then fail inside `os.path.join` (main.py:127).
- AddTrip.CollectDocuments, EditTrip.ReceiveDocumentEdit: a missing `document.file_name` is not modelled either; there the f-string at main.py:232 and main.py:441 would record a path ending in `_None` rather than fail.
- `info.get('start_date', '?')` and similar defaults in the listing are not modelled. Every stored trip has both dates.
- A trip dict stored by an older version of the bot, or written by hand, with missing dates or extra keys besides `destination`, `files` and `title`: the model's trip record has exactly these fields.
