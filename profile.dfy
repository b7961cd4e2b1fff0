/**
 * The `/infoform` conversation: INFO_NAME -> INFO_LASTNAME -> INFO_BIRTHDATE ->
 * INFO_CERTIFICATES, with `/cancel` and `/finish` as fallbacks. As written, the birthdate step
 * calls `strptime` on the `datetime` module, which has no such attribute, so it always raises
 * AttributeError; and both steps that would write the profile call `save_data` with one
 * argument instead of two, which raises TypeError. The profile is therefore never written.
 */
module ProfileForm {
  import opened Wrappers
  import opened Text
  import opened Session

  datatype InfoState = InfoName | InfoLastname | InfoBirthdate | InfoCertificates

  /** `start_infoform`: asks for the name. */
  function StartInfoform(sc: Scratch): (e: Effect<InfoState>)
    ensures e.step == Goto(InfoName)
    ensures e.scratch == sc && e.saved.None?
  {
    Effect(Goto(InfoName), sc, None)
  }

  /** `infoform_name`: records the stripped text as the name. */
  function InfoformName(sc: Scratch, text: string): (e: Effect<InfoState>)
    ensures e.step == Goto(InfoLastname) && e.saved.None?
    ensures e.scratch.name == Some(Strip(text)) && e.scratch.(name := sc.name) == sc
  {
    Effect(Goto(InfoLastname), sc.(name := Some(Strip(text))), None)
  }

  /** `infoform_lastname`: records the stripped text as the last name. */
  function InfoformLastname(sc: Scratch, text: string): (e: Effect<InfoState>)
    ensures e.step == Goto(InfoBirthdate) && e.saved.None?
    ensures e.scratch.lastname == Some(Strip(text)) && e.scratch.(lastname := sc.lastname) == sc
  {
    Effect(Goto(InfoBirthdate), sc.(lastname := Some(Strip(text))), None)
  }

  /** `infoform_birthdate`: the lookup of `strptime` on the module fails before any date is
      read, so every input raises and nothing is recorded. */
  function InfoformBirthdate(sc: Scratch, text: string): (e: Effect<InfoState>)
    ensures e.step.Raise? && e.step.error == AttributeError("strptime")
    ensures e.scratch == sc && e.saved.None?
  {
    Effect(Raise(AttributeError("strptime")), sc, None)
  }

  /** `infoform_certificates`: records the certificates, then builds the profile from the
      name, last name and birthdate keys (KeyError for the first one missing), then calls
      `save_data` with one argument (TypeError). */
  function InfoformCertificates(sc: Scratch, text: string): (e: Effect<InfoState>)
    ensures e.step.Raise? && e.saved.None?
    ensures e.scratch == sc.(certificates := Some(Strip(text)))
    ensures e.step.error == (if sc.name.None? then KeyError("name")
                             else if sc.lastname.None? then KeyError("lastname")
                             else if sc.birthdate.None? then KeyError("birthdate")
                             else TypeError)
  {
    var sc' := sc.(certificates := Some(Strip(text)));
    if sc'.name.None? then Effect(Raise(KeyError("name")), sc', None)
    else if sc'.lastname.None? then Effect(Raise(KeyError("lastname")), sc', None)
    else if sc'.birthdate.None? then Effect(Raise(KeyError("birthdate")), sc', None)
    else Effect(Raise(TypeError), sc', None)
  }

  /** `finish_infoform`: refuses (returns None) until a birthdate is recorded; after that it
      reads the other keys with defaults and fails in `save_data` with TypeError. */
  function FinishInfoform(sc: Scratch): (e: Effect<InfoState>)
    ensures e.scratch == sc && e.saved.None?
    ensures e.step == if sc.birthdate.None? then Stay else Raise(TypeError)
  {
    if sc.birthdate.None? then Effect(Stay, sc, None) else Effect(Raise(TypeError), sc, None)
  }

  /** `cancel_infoform`: ends the form. */
  function CancelInfoform(sc: Scratch): (e: Effect<InfoState>)
    ensures e.step == End
    ensures e.scratch == sc && e.saved.None?
  {
    Effect(End, sc, None)
  }

  /** An update as the form's ConversationHandler sees it: the `/infoform` entry command,
      a plain text message, or one of the two fallback commands. */
  datatype FormInput = InfoformCommand | TextMessage(text: string) | FinishCommand | CancelCommand

  /** The form's ConversationHandler: outside the conversation only the entry command is
      handled; inside it, text goes to the current state's handler and the two commands to
      the fallbacks. A handler that returns a state moves there, END leaves the conversation,
      and None or an exception leaves the state as it was. */
  function FormStep(state: Option<InfoState>, sc: Scratch, input: FormInput): (r: (Option<InfoState>, Scratch))
    ensures state.None? && !input.InfoformCommand? ==> r == (state, sc)
  {
    var e: Effect<InfoState> :=
      match (state, input)
      case (None, InfoformCommand) => StartInfoform(sc)
      case (None, _) => Effect(Stay, sc, None)
      case (Some(_), InfoformCommand) => Effect(Stay, sc, None)
      case (Some(_), FinishCommand) => FinishInfoform(sc)
      case (Some(_), CancelCommand) => CancelInfoform(sc)
      case (Some(InfoName), TextMessage(t)) => InfoformName(sc, t)
      case (Some(InfoLastname), TextMessage(t)) => InfoformLastname(sc, t)
      case (Some(InfoBirthdate), TextMessage(t)) => InfoformBirthdate(sc, t)
      case (Some(InfoCertificates), TextMessage(t)) => InfoformCertificates(sc, t);
    match e.step
    case Goto(s) => (Some(s), e.scratch)
    case End => (None, e.scratch)
    case Stay => (state, e.scratch)
    case Raise(_) => (state, e.scratch)
  }

  /** The form after a sequence of updates. */
  function RunForm(state: Option<InfoState>, sc: Scratch, inputs: seq<FormInput>): (Option<InfoState>, Scratch)
    decreases |inputs|
  {
    if inputs == [] then (state, sc)
    else
      var (state', sc') := FormStep(state, sc, inputs[0]);
      RunForm(state', sc', inputs[1..])
  }

  /** Whatever the user sends, a form that has not reached the certificates question never
      does, and no birthdate is ever recorded: so neither step that writes the profile is
      ever reached with a birthdate, and `/finish` always refuses. */
  lemma {:induction false} FormNeverRecordsBirthdate(state: Option<InfoState>, sc: Scratch, inputs: seq<FormInput>)
    requires state != Some(InfoCertificates) && sc.birthdate.None?
    ensures RunForm(state, sc, inputs).0 != Some(InfoCertificates)
    ensures RunForm(state, sc, inputs).1.birthdate.None?
    ensures FinishInfoform(RunForm(state, sc, inputs).1).step == Stay
    decreases |inputs|
  {
    if inputs != [] {
      var (state', sc') := FormStep(state, sc, inputs[0]);
      FormNeverRecordsBirthdate(state', sc', inputs[1..]);
    }
  }
}
