/**
 The texts of the submit button and of the link that switches modes.
 */
module Labels {
  import opened Modes

  datatype Option<T> = None | Some(value: T)

  const SignInPrompt: string := "Don't have an account? Sign up \U{2192}"
  const SignUpPrompt: string := "Already have an account? Sign in \U{2192}"

  /** `stringsForMode`: a dictionary with a "button" and a "switch" entry. */
  function StringsForMode(mode: string): (r: map<string, string>)
    ensures r.Keys == {"button", "switch"}
    ensures r["button"] == "Sign In" <==> Parse(mode) == SignIn
    ensures r["switch"] == SignInPrompt <==> Parse(mode) == SignIn
    ensures Parse(mode) == SignUp ==> r["button"] == "Sign Up" && r["switch"] == SignUpPrompt
  {
    if mode == "signIn" then
      map["button" := "Sign In", "switch" := SignInPrompt]
    else
      map["button" := "Sign Up", "switch" := SignUpPrompt]
  }

  /** Dictionary lookup, which yields nothing for a missing key. */
  function Lookup(m: map<string, string>, key: string): Option<string>
  {
    if key in m then Some(m[key]) else None
  }

  /** The titles `updateStrings` sets. */
  datatype Titles = Titles(buttonNormal: Option<string>, buttonDisabled: Option<string>, switchNormal: Option<string>)

  /** `updateStrings`: the button gets one title for both its states, and no title is missing. */
  function UpdateStrings(mode: string): (t: Titles)
    ensures t.buttonNormal.Some? && t.switchNormal.Some?
    ensures t.buttonDisabled == t.buttonNormal
    ensures t.buttonNormal != t.switchNormal
    ensures t.buttonNormal == Some(if Parse(mode) == SignIn then "Sign In" else "Sign Up")
    ensures t.switchNormal == Some(if Parse(mode) == SignIn then SignInPrompt else SignUpPrompt)
  {
    var strings := StringsForMode(mode);
    Titles(Lookup(strings, "button"), Lookup(strings, "button"), Lookup(strings, "switch"))
  }

  /** Every mode string other than "signIn" is labelled as sign-up. */
  lemma LabelsFollowParsedMode(mode: string)
    ensures StringsForMode(mode) == StringsForMode(Name(Parse(mode)))
  {
  }

  /** A toggle changes both the button title and the switch link. */
  lemma ToggleRelabels(mode: string)
    ensures UpdateStrings(ToggleName(mode)).buttonNormal != UpdateStrings(mode).buttonNormal
    ensures UpdateStrings(ToggleName(mode)).switchNormal != UpdateStrings(mode).switchNormal
  {
  }
}
