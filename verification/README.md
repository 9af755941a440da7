# Illuminati sign-in form, modelled in Dafny

This project models the logic of the sign-in/sign-up screen of the Illuminati
iOS app (`SignInViewController`), with the UIKit and ReactiveCocoa plumbing
removed. What remains is small and pure:

- the **mode** of the screen: sign-in or sign-up. The controller stores it as
  the string `"signIn"` or `"signUp"` and flips it with `toggleMode`;
- three **validators** for the email, phone and password text;
- the **activation rule**: the signals that decide whether the submit button
  is enabled;
- the **layout facts** that depend on the mode alone: the row count, the
  ordered field list behind `getField`, the row that `updatePhoneRow` inserts
  or deletes, where the return key moves the focus, and the button and link
  titles from `stringsForMode`.

Modules, one per concern:

- `Modes` (`modes.dfy`): the `Mode` datatype and the string the controller
  really stores. Every decision in the controller compares the string with
  `"signIn"`, so `Parse` maps `"signIn"` to `SignIn` and every other string to
  `SignUp`. `ToggleName` is `toggleMode` on strings. The lemmas show that
  toggling the string is toggling the mode. The rest of the model can
  therefore work on `Mode`.
- `Validation` (`validation.dfy`): `containsString` as a general substring
  search, and the three validators.
- `Activation` (`activation.dfy`): ReactiveCocoa's `.AND()` and `.OR()` over a
  combined tuple (`All`, `Any`). It builds `validPhoneSignUpSignal` and
  `signInActiveSignal` from them. It proves `validPhoneSignUpSignal` equal to
  "the mode is sign-in or the phone is valid", and `signInActiveSignal` equal
  to the activation rule `Enabled`: email and password valid, and the phone
  valid unless signing in.
- `Layout` (`layout.dfy`): the field list, the row count, `getField`,
  `updatePhoneRow` and `textFieldShouldReturn`. The partner of
  `updatePhoneRow` is `ConsistentUpdate`: the rows before and after the
  update differ by exactly the row inserted or deleted. The table view itself
  only checks that the row count moves by the rows inserted minus the rows
  deleted; `ConsistentUpdate` is stronger and is what keeps every remaining
  cell showing the same field.
- `Labels` (`labels.dfy`): `stringsForMode` and `updateStrings`.
- `Screen` (`screen.dfy`): the screen as a state machine. It starts in
  sign-in mode with empty fields, and each event toggles the mode or edits a
  field.

The source keeps the mode as a string rather than an enumeration. The model
follows the code. `Modes.ToggleNameTwice`
shows where the two differ: a double toggle restores a string exactly when
it is one of the two names. `Screen.Run` shows that only those two names
occur on the screen.

## Model

| member | source | states |
|---|---|---|
| Modes.Toggle | Illuminati/SignInViewController.swift:174-176 | toggling always changes the mode |
| Modes.ToggleTwice | Illuminati/SignInViewController.swift:174-176 | toggling twice gives back the original mode |
| Modes.Parse | Illuminati/SignInViewController.swift:104 | the controller's `mode == "signIn"` test (also at lines 193, 237, 254 and 277): reading one of the two names and printing it back gives that name |
| Modes.ParseName | Illuminati/SignInViewController.swift:104 | each mode's stored name is one of the two names and reads back as that mode |
| Modes.NameParse | Illuminati/SignInViewController.swift:104 | printing a parsed mode string gives it back exactly when it is "signIn" or "signUp" |
| Modes.ToggleName | Illuminati/SignInViewController.swift:174-176 | toggleMode always stores one of the two names, never the value it had, and toggles the mode the string stands for |
| Modes.ToggleNameRefinesToggle | Illuminati/SignInViewController.swift:174-176 | toggling a mode's name gives the name of the toggled mode |
| Modes.ToggleNameTwice | Illuminati/SignInViewController.swift:174-176 | toggling the string twice restores it exactly when it is one of the two names |
| Validation.ContainsString | Illuminati/SignInViewController.swift:218 | containsString is true exactly when the needle is non-empty and occurs at some position of the string |
| Validation.ContainsChar | Illuminati/SignInViewController.swift:218 | searching for a one-character string is the same as testing whether that character is in the string |
| Validation.IsValidEmail | Illuminati/SignInViewController.swift:217-219 | an email is valid exactly when it is longer than three characters and contains '@' |
| Validation.IsValidPhone | Illuminati/SignInViewController.swift:221-223 | a phone number is valid exactly when it is longer than five characters; the predicate is the source's length test, and LengthOnlyValidators and ShortInputsInvalid state its consequences |
| Validation.IsValidPassword | Illuminati/SignInViewController.swift:225-227 | a password is valid exactly when it is longer than three characters; the predicate is the source's length test, and LengthOnlyValidators and ShortInputsInvalid state its consequences |
| Validation.LengthOnlyValidators | Illuminati/SignInViewController.swift:221-227 | phone and password validity depend only on the length, never on the content |
| Validation.ShortInputsInvalid | Illuminati/SignInViewController.swift:217-227 | every string of at most three characters, including the empty one, fails all three validators |
| Activation.All | Illuminati/SignInViewController.swift:110-112 | .AND() of a tuple is true exactly when every component is true (the empty tuple, which ReactiveCocoa rejects and the controller never builds, gives true) |
| Activation.Any | Illuminati/SignInViewController.swift:106-108 | .OR() of a tuple is true exactly when some component is true |
| Activation.ValidPhoneSignUp | Illuminati/SignInViewController.swift:104-108 | the combined phone signal is true exactly when the mode is sign-in or the phone is valid |
| Activation.SignInActive | Illuminati/SignInViewController.swift:110-112 | the submit command is enabled exactly when email and password are valid and, unless in sign-in mode, the phone is valid |
| Activation.PhoneIgnoredInSignIn | Illuminati/SignInViewController.swift:104-112 | in sign-in mode, changing the phone text never changes enablement |
| Activation.SignUpImpliesSignIn | Illuminati/SignInViewController.swift:104-112 | inputs that enable sign-up also enable sign-in |
| Activation.EnabledNeedsEmailAndPassword | Illuminati/SignInViewController.swift:110-112 | in either mode, enablement needs a valid email and a valid password |
| Activation.SampleForms | Illuminati/SignInViewController.swift:98-112 | sample forms: sign-in with "a@b.com"/""/"1234" is enabled, sign-up with an empty phone is not, sign-up with "1234567" is |
| Layout.RowCount | Illuminati/SignInViewController.swift:253-255 | the row count always equals the length of the field list behind getField |
| Layout.GetField | Illuminati/SignInViewController.swift:274-280 | row 0 is email, the last row is password, and phone is shown exactly at row 1 in sign-up mode |
| Layout.FieldsShape | Illuminati/SignInViewController.swift:274-280 | the field list starts with email, ends with password, has no repeats, and holds phone (at index 1) exactly in sign-up mode |
| Layout.UpdatePhoneRow | Illuminati/SignInViewController.swift:186-200 | after a mode change the first field gets the focus, and row 1 of section 0 is deleted exactly when the new mode is sign-in |
| Layout.PhoneRowUpdateConsistent | Illuminati/SignInViewController.swift:186-200 | after any toggle the rows before and after differ by exactly the deleted or inserted row, so the count moves by one and email and password keep their order |
| Layout.TextFieldShouldReturn | Illuminati/SignInViewController.swift:234-245 | the handler always returns false, submits exactly from the password field, and otherwise focuses a field of the current mode |
| Layout.ReturnKeyFollowsRows | Illuminati/SignInViewController.swift:234-245 | return on row i focuses row i+1 of the current mode's field list, and submits from the last row |
| Labels.StringsForMode | Illuminati/SignInViewController.swift:12-25 | the dictionary always has a "button" and a "switch" entry, and both show the sign-in texts exactly when the mode is "signIn" |
| Labels.UpdateStrings | Illuminati/SignInViewController.swift:178-184 | the button shows "Sign In" or "Sign Up" in both its normal and disabled states, and the link shows the matching prompt, both taken from the mode's "button" and "switch" entries |
| Labels.LabelsFollowParsedMode | Illuminati/SignInViewController.swift:19-24 | every mode string other than "signIn" gets the sign-up texts |
| Labels.ToggleRelabels | Illuminati/SignInViewController.swift:174-184 | a toggle changes both the button title and the switch link |
| Screen.Step | Illuminati/SignInViewController.swift:174-176 | only a toggle changes the mode, it always does, and it leaves the three texts alone |
| Screen.Run | Illuminati/SignInViewController.swift:174-176 | starting from "signIn" (line 29), the mode is always one of the two names, and it is "signUp" exactly after an odd number of toggles |
| Screen.InitialDisabled | Illuminati/SignInViewController.swift:98-112 | a fresh screen has its submit button disabled and shows two rows |
| Screen.ToggleTwiceRestores | Illuminati/SignInViewController.swift:174-176 | on any reachable screen, two toggles restore the whole screen, texts included |

## Left out

- Submission: the `RACCommand` that runs `actionSignal`, the choice between the service's sign-in and sign-up calls, the single-flight "executing" state, the network activity indicator, dismissal on success and the error alert. These are a foreign library and network I/O whose behaviour is not visible. The model stops at the enabledness the command is given.
- Signal scheduling: `combineLatest`, `deliverOn` and the `skip(1)` before `updatePhoneRow`. The model computes the latest combined value directly. It ties `updatePhoneRow` to mode changes, which is what the `skip(1)` achieves.
- Rendering: Auto Layout visual-format constraints, `heightForRowAtIndexPath` (float arithmetic on frame heights), cell dequeuing and `configureCell`. First-responder calls appear only as the field that receives the focus.
- `Layout.TextFieldShouldReturn`: the `Submit` action stands for sending the touch event to the submit button. Whether the command then runs depends on its enabledness, which is `Activation.SignInActive`.
- `Validation.ContainsString`: the model takes an empty needle as never found, as Foundation does. The controller only searches for "@", so this case never arises.
- `Validation.ContainsString`: compares characters literally. `NSString.containsString` compares with canonical equivalence, so composed and decomposed forms of the same character match there but not here. For the needle "@" this makes no difference.
- `Activation.All`: gives true on an empty tuple, where ReactiveCocoa's `.AND()` rejects an empty tuple. The controller only combines 2- and 3-tuples.
- Lengths: `NSString.length` counts UTF-16 code units. The model counts characters (`|s|`), which differs only for characters outside the Basic Multilingual Plane.
- `SecretView.swift` and `SecretViewController.swift`: observer bindings, float font sizing, keyboard notifications, navigation and a data source that returns `comments.count`. None of this is part of the form logic.
