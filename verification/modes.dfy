/**
 The two modes of the sign-in screen.

 The controller keeps its mode as a string (`"signIn"` initially) and every
 decision it takes compares that string with `"signIn"`; any other value
 behaves as sign-up. `Parse` is that comparison, and `ToggleName` is the
 string-level toggle the controller performs. The rest of the model works on
 the `Mode` datatype, which `ToggleNameRefinesToggle` justifies.
 */
module Modes {

  datatype Mode = SignIn | SignUp

  /** Flips the mode. */
  function Toggle(m: Mode): (r: Mode)
    ensures r != m
  {
    match m
    case SignIn => SignUp
    case SignUp => SignIn
  }

  lemma ToggleTwice(m: Mode)
    ensures Toggle(Toggle(m)) == m
  {
  }

  /** The string the controller stores for a mode. */
  function Name(m: Mode): string
  {
    match m
    case SignIn => "signIn"
    case SignUp => "signUp"
  }

  /** The two strings the controller ever stores. */
  predicate IsName(s: string)
  {
    s == "signIn" || s == "signUp"
  }

  /** How the controller reads its mode string: only `"signIn"` means sign-in. */
  function Parse(s: string): (m: Mode)
    ensures IsName(s) ==> Name(m) == s
  {
    if s == "signIn" then SignIn else SignUp
  }

  lemma ParseName(m: Mode)
    ensures Parse(Name(m)) == m
    ensures IsName(Name(m))
  {
  }

  /** Printing a parsed string gives it back exactly when it is one of the two names. */
  lemma NameParse(s: string)
    ensures Name(Parse(s)) == s <==> IsName(s)
  {
  }

  /** `toggleMode`: `"signIn"` becomes `"signUp"`, everything else becomes `"signIn"`. */
  function ToggleName(s: string): (r: string)
    ensures IsName(r)
    ensures r != s
    ensures Parse(r) == Toggle(Parse(s))
  {
    if s == "signIn" then "signUp" else "signIn"
  }

  /** Toggling the name is toggling the mode it stands for. */
  lemma ToggleNameRefinesToggle(m: Mode)
    ensures ToggleName(Name(m)) == Name(Toggle(m))
  {
  }

  /** Toggling the string twice restores it exactly when it was one of the two names. */
  lemma ToggleNameTwice(s: string)
    ensures ToggleName(ToggleName(s)) == s <==> IsName(s)
  {
  }
}
