/**
 Whether the submit button is enabled. The controller derives it by combining
 boolean signals: `.OR()` of "mode is sign-in" and "phone valid", then `.AND()`
 of "email valid", that disjunction and "password valid".
 */
module Activation {
  import opened Modes
  import opened Validation

  /** `.AND()` over the latest tuple of boolean values. */
  function All(bs: seq<bool>): (r: bool)
    ensures r <==> forall i :: 0 <= i < |bs| ==> bs[i]
  {
    |bs| == 0 || (bs[0] && All(bs[1..]))
  }

  /** `.OR()` over the latest tuple of boolean values. */
  function Any(bs: seq<bool>): (r: bool)
    ensures r <==> exists i :: 0 <= i < |bs| && bs[i]
  {
    |bs| > 0 && (bs[0] || Any(bs[1..]))
  }

  /** The activation rule: email and password valid, and phone valid unless signing in. */
  predicate Enabled(m: Mode, email: string, phone: string, password: string)
  {
    IsValidEmail(email) && IsValidPassword(password) && (m == SignIn || IsValidPhone(phone))
  }

  /** `validPhoneSignUpSignal`: the phone only matters outside sign-in mode. */
  function ValidPhoneSignUp(mode: string, phone: string): (r: bool)
    ensures r <==> Parse(mode) == SignIn || IsValidPhone(phone)
  {
    var tuple := [mode == "signIn", IsValidPhone(phone)];
    assert tuple[0] == (mode == "signIn") && tuple[1] == IsValidPhone(phone);
    Any(tuple)
  }

  /** `signInActiveSignal`, the enabledness of the submit command. */
  function SignInActive(mode: string, email: string, phone: string, password: string): (r: bool)
    ensures r <==> Enabled(Parse(mode), email, phone, password)
  {
    var tuple := [IsValidEmail(email), ValidPhoneSignUp(mode, phone), IsValidPassword(password)];
    assert tuple[0] == IsValidEmail(email) && tuple[2] == IsValidPassword(password);
    assert tuple[1] == ValidPhoneSignUp(mode, phone);
    All(tuple)
  }

  /** In sign-in mode the phone text has no influence on enablement. */
  lemma PhoneIgnoredInSignIn(email: string, phone1: string, phone2: string, password: string)
    ensures SignInActive("signIn", email, phone1, password) == SignInActive("signIn", email, phone2, password)
  {
  }

  /** Whatever enables sign-up also enables sign-in. */
  lemma SignUpImpliesSignIn(email: string, phone: string, password: string)
    ensures SignInActive("signUp", email, phone, password) ==> SignInActive("signIn", email, phone, password)
  {
  }

  /** Enablement needs a valid email and a valid password in both modes. */
  lemma EnabledNeedsEmailAndPassword(mode: string, email: string, phone: string, password: string)
    ensures SignInActive(mode, email, phone, password) ==> IsValidEmail(email) && IsValidPassword(password)
  {
  }

  /** Three sample forms. */
  lemma SampleForms()
    ensures SignInActive("signIn", "a@b.com", "", "1234")
    ensures !SignInActive("signUp", "a@b.com", "", "1234")
    ensures SignInActive("signUp", "a@b.com", "1234567", "1234")
  {
  }
}
