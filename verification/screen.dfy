/**
 The sign-in screen as a state machine: the stored mode string and the three
 text fields, changed one event at a time from the state the screen starts in.
 */
module Screen {
  import opened Modes
  import opened Activation
  import opened Layout

  datatype Form = Form(mode: string, email: string, phone: string, password: string)

  /** What the user can do: tap the switch link, or edit a text field. */
  datatype Event = ToggleMode | EditEmail(text: string) | EditPhone(text: string) | EditPassword(text: string)

  /** A fresh screen: sign-in mode and empty fields. */
  const Initial: Form := Form("signIn", "", "", "")

  function Step(f: Form, e: Event): (g: Form)
    ensures e.ToggleMode? <==> g.mode != f.mode
    ensures e.ToggleMode? ==> g.email == f.email && g.phone == f.phone && g.password == f.password
    ensures Parse(g.mode) == (if e.ToggleMode? then Toggle(Parse(f.mode)) else Parse(f.mode))
    ensures e.EditEmail? ==> g.email == e.text && g.phone == f.phone && g.password == f.password
    ensures e.EditPhone? ==> g.phone == e.text && g.email == f.email && g.password == f.password
    ensures e.EditPassword? ==> g.password == e.text && g.email == f.email && g.phone == f.phone
  {
    match e
    case ToggleMode => f.(mode := ToggleName(f.mode))
    case EditEmail(t) => f.(email := t)
    case EditPhone(t) => f.(phone := t)
    case EditPassword(t) => f.(password := t)
  }

  /** The number of mode switches among `events`. */
  function Toggles(events: seq<Event>): nat
  {
    if |events| == 0 then 0
    else Toggles(events[..|events| - 1]) + (if events[|events| - 1].ToggleMode? then 1 else 0)
  }

  /**
   The screen after `events`: its mode is always one of the two names, and it
   is sign-up exactly when the mode was switched an odd number of times.
   */
  function Run(events: seq<Event>): (f: Form)
    ensures IsName(f.mode)
    ensures f.mode == (if Toggles(events) % 2 == 0 then "signIn" else "signUp")
  {
    if |events| == 0 then Initial
    else Step(Run(events[..|events| - 1]), events[|events| - 1])
  }

  /** The submit button of `f` is enabled. */
  predicate SubmitEnabled(f: Form)
  {
    SignInActive(f.mode, f.email, f.phone, f.password)
  }

  /** A fresh screen starts with the submit button disabled. */
  lemma InitialDisabled()
    ensures !SubmitEnabled(Initial)
    ensures RowCount(Parse(Initial.mode)) == 2
  {
  }

  /** Switching the mode twice restores the whole screen. */
  lemma ToggleTwiceRestores(events: seq<Event>)
    ensures Step(Step(Run(events), ToggleMode), ToggleMode) == Run(events)
  {
    ToggleNameTwice(Run(events).mode);
  }
}
