/**
 * What every conversation handler works with: the per-user scratch dictionary
 * (`context.user_data`), the value a handler returns to the conversation framework, and the
 * store write it performs.
 */
module Session {
  import opened Wrappers
  import opened Trips

  /** An attached Telegram document: its id (used only to download it) and its file name. */
  datatype Document = Document(fileId: string, fileName: string)

  /** `context.user_data`: one field per key the handlers use. The dictionary is shared by
      all of a user's conversations and no handler ever removes a key. */
  datatype Scratch = Scratch(
    tripName: Option<string>,
    destination: Option<string>,
    startDate: Option<string>,
    endDate: Option<string>,
    files: Option<seq<string>>,
    tripsList: Option<seq<Entry>>,
    editTripIndex: Option<nat>,
    editField: Option<string>,
    newFiles: Option<seq<string>>,
    name: Option<string>,
    lastname: Option<string>,
    birthdate: Option<string>,
    certificates: Option<string>)

  /** The dictionary of a user no handler has written for yet. */
  const EmptyScratch: Scratch :=
    Scratch(None, None, None, None, None, None, None, None, None, None, None, None, None)

  /** The exceptions a handler can let escape. */
  datatype Error = KeyError(key: string) | AttributeError(attribute: string) | TypeError

  /** What a handler returns: the next state of its conversation, `ConversationHandler.END`,
      `None` (the conversation stays where it is), or an exception that escapes it (the
      framework then also leaves the state where it is). */
  datatype Step<S> = Goto(state: S) | End | Stay | Raise(error: Error)

  /** One handler invocation: what it returns, the user's scratch dictionary afterwards, and the
      dict passed to `save_data` for this user, if it called it. */
  datatype Effect<S> = Effect(step: Step<S>, scratch: Scratch, saved: Option<TripMap>)

  /** `@restricted` turning away a user who is not in `ALLOWED_USERS`: a reply, no change,
      and `None` returned. */
  function Rejected<S>(sc: Scratch): (e: Effect<S>)
    ensures e.step == Stay && e.scratch == sc && e.saved.None?
  {
    Effect(Stay, sc, None)
  }

  /** `cancel` (restricted), the fallback of both trip conversations: it ends the conversation
      and touches neither the scratch dictionary nor the store. */
  function Cancel<S>(authorized: bool, sc: Scratch): (e: Effect<S>)
    ensures e.scratch == sc && e.saved.None?
    ensures e.step == (if authorized then End else Stay)
  {
    if !authorized then Rejected(sc) else Effect(End, sc, None)
  }
}
