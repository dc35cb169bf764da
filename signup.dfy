/** The sign-up form: four text fields, a terms checkbox that gates the
    submission, and a password-strength meter (a level 0..3 shown as a
    coloured bar of proportional width and a word). */
module Signup {
  import opened Common

  /** `/[a-z]/.test(password)`. */
  predicate HasLower(pw: string)
  {
    exists i | 0 <= i < |pw| :: 'a' <= pw[i] <= 'z'
  }

  /** `/[A-Z]/.test(password)`. */
  predicate HasUpper(pw: string)
  {
    exists i | 0 <= i < |pw| :: 'A' <= pw[i] <= 'Z'
  }

  /** `/\d/.test(password)`: without the `u` flag `\d` is `[0-9]`. */
  predicate HasDigit(pw: string)
  {
    exists i | 0 <= i < |pw| :: '0' <= pw[i] <= '9'
  }

  predicate HasAllClasses(pw: string)
  {
    HasLower(pw) && HasUpper(pw) && HasDigit(pw)
  }

  const Weak: nat := 0
  const Fair: nat := 1
  const Good: nat := 2
  const Strong: nat := 3

  /** `passwordStrength`: the length decides 0 and 1; from eight characters
      on the level is 3 when all three character classes occur, else 2. */
  function PasswordStrength(pw: string): (s: nat)
    ensures s <= Strong
    ensures s == Weak <==> |pw| < 6
    ensures s == Fair <==> 6 <= |pw| < 8
    ensures s == Strong <==> |pw| >= 8 && HasAllClasses(pw)
    ensures s == Good <==> |pw| >= 8 && !HasAllClasses(pw)
  {
    if |pw| < 6 then Weak
    else if |pw| < 8 then Fair
    else if HasAllClasses(pw) then Strong
    else Good
  }

  /** Typing more characters never lowers the level: the length only grows
      and a character class present in the password stays present. */
  lemma {:induction false} StrengthIsMonotone(pw: string, more: string)
    ensures PasswordStrength(pw) <= PasswordStrength(pw + more)
  {
    var ext := pw + more;
    if |pw| >= 8 && HasAllClasses(pw) {
      var i :| 0 <= i < |pw| && 'a' <= pw[i] <= 'z';
      var j :| 0 <= j < |pw| && 'A' <= pw[j] <= 'Z';
      var k :| 0 <= k < |pw| && '0' <= pw[k] <= '9';
      assert ext[i] == pw[i] && ext[j] == pw[j] && ext[k] == pw[k];
    }
  }

  /** `strengthColor`. */
  function StrengthColor(s: nat): (c: string)
    ensures s == Weak <==> c == "bg-gray-300"
    ensures s == Fair <==> c == "bg-red-500"
    ensures s == Good <==> c == "bg-yellow-500"
    ensures s >= Strong <==> c == "bg-green-500"
  {
    if s == Weak then "bg-gray-300"
    else if s == Fair then "bg-red-500"
    else if s == Good then "bg-yellow-500"
    else "bg-green-500"
  }

  /** The word after "Strength: ". */
  function StrengthLabel(s: nat): (w: string)
    ensures s == Weak <==> w == "Weak"
    ensures s == Fair <==> w == "Fair"
    ensures s == Good <==> w == "Good"
    ensures s >= Strong <==> w == "Strong"
  {
    if s == Weak then "Weak"
    else if s == Fair then "Fair"
    else if s == Good then "Good"
    else "Strong"
  }

  /** The bar's width in percent, `(strength + 1) * 25`. */
  function MeterWidth(s: nat): (pct: nat)
    ensures pct % 25 == 0 && pct >= 25
    ensures s <= Strong ==> pct <= 100
    ensures pct == 100 <==> s == Strong
  {
    (s + 1) * 25
  }

  /** What the meter shows for a password. */
  datatype Meter = Meter(color: string, width: nat, word: string)

  /** The meter is drawn only for a non-empty password. */
  function MeterFor(pw: string): (m: Option<Meter>)
    ensures m.None? <==> pw == ""
    ensures m.Some? ==> m.value.width in {25, 50, 75, 100}
    ensures m.Some? ==> (m.value.word == "Strong" <==> |pw| >= 8 && HasAllClasses(pw))
    ensures m.Some? ==> (m.value.word == "Weak" <==> |pw| < 6)
  {
    if pw == "" then None
    else
      var s := PasswordStrength(pw);
      Some(Meter(StrengthColor(s), MeterWidth(s), StrengthLabel(s)))
  }

  /** The three views of a level agree: any one of them determines the level. */
  lemma {:induction false} MeterViewsDetermineLevel(s: nat, t: nat)
    requires s <= Strong && t <= Strong
    ensures StrengthColor(s) == StrengthColor(t) ==> s == t
    ensures StrengthLabel(s) == StrengthLabel(t) ==> s == t
    ensures MeterWidth(s) == MeterWidth(t) ==> s == t
  {
    if StrengthColor(s) == StrengthColor(t) {
      assert StrengthColor(s)[3] != StrengthColor(t)[3] || s == t;
    }
    if StrengthLabel(s) == StrengthLabel(t) {
      assert StrengthLabel(s)[0] != StrengthLabel(t)[0] || s == t;
    }
  }

  /** The names of the four inputs, which are also the keys of `formData`. */
  const FieldNames: set<string> := {"name", "email", "password", "confirmPassword"}

  /** The arguments handed to `signup`. */
  datatype SignupRequest = SignupRequest(name: string, email: string, password: string, confirmPassword: string)

  const TermsAlert: string := "Please agree to the terms and conditions"
  const HomeRoute: string := "/"

  /** What one submission did. */
  datatype SubmitOutcome =
    | Alerted(message: string)
    | Submitted(request: SignupRequest, navigatedTo: Option<string>)

  class SignupForm {
    var formData: map<string, string>
    var agreedToTerms: bool

    ghost predicate Valid()
      reads this
    {
      FieldNames <= formData.Keys
    }

    constructor ()
      ensures Valid() && !agreedToTerms
      ensures formData == map["name" := "", "email" := "", "password" := "", "confirmPassword" := ""]
    {
      formData := map["name" := "", "email" := "", "password" := "", "confirmPassword" := ""];
      agreedToTerms := false;
    }

    /** `handleChange`: the input named `name` now holds `value`; every other
        field keeps its value and no field disappears. */
    method HandleChange(name: string, value: string)
      requires Valid()
      modifies this`formData
      ensures Valid()
      ensures formData.Keys == old(formData).Keys + {name}
      ensures formData[name] == value
      ensures forall k :: k in old(formData) && k != name ==> formData[k] == old(formData)[k]
    {
      formData := formData[name := value];
    }

    /** The terms checkbox. */
    method SetAgreedToTerms(checked: bool)
      modifies this`agreedToTerms
      ensures agreedToTerms == checked
    {
      agreedToTerms := checked;
    }

    /** The meter for the password currently typed. */
    function CurrentMeter(): (m: Option<Meter>)
      requires Valid()
      reads this
      ensures m.None? <==> formData["password"] == ""
    {
      MeterFor(formData["password"])
    }

    /** `handleSubmit`. `signup` stands for the authentication call and
        answers whether it succeeded. Without agreement to the terms the user
        is alerted and `signup` is not called; otherwise it is called with
        the four fields, and the app goes home exactly when it succeeds. */
    method HandleSubmit(signup: SignupRequest -> bool) returns (outcome: SubmitOutcome)
      requires Valid()
      ensures !agreedToTerms ==> outcome == Alerted(TermsAlert)
      ensures agreedToTerms ==> outcome.Submitted?
      ensures outcome.Submitted? ==>
        outcome.request == SignupRequest(formData["name"], formData["email"],
                                         formData["password"], formData["confirmPassword"])
      ensures outcome.Submitted? ==>
        (outcome.navigatedTo == Some(HomeRoute) <==> signup(outcome.request))
        && (outcome.navigatedTo.None? <==> !signup(outcome.request))
    {
      if !agreedToTerms {
        return Alerted(TermsAlert);
      }
      var request := SignupRequest(formData["name"], formData["email"],
                                   formData["password"], formData["confirmPassword"]);
      var navigatedTo := if signup(request) then Some(HomeRoute) else None;
      outcome := Submitted(request, navigatedTo);
    }
  }

  /** Filling the form without ticking the box never reaches `signup`. */
  method SubmitWithoutTerms(pw: string, signup: SignupRequest -> bool) returns (outcome: SubmitOutcome)
    ensures outcome == Alerted(TermsAlert)
  {
    var form := new SignupForm();
    form.HandleChange("name", "Ada");
    form.HandleChange("password", pw);
    outcome := form.HandleSubmit(signup);
  }

  /** Typing a password and agreeing submits exactly what was typed. */
  method SubmitTypedPassword(pw: string, signup: SignupRequest -> bool) returns (outcome: SubmitOutcome)
    ensures outcome.Submitted? && outcome.request == SignupRequest("", "", pw, "")
  {
    var form := new SignupForm();
    form.HandleChange("password", pw);
    form.SetAgreedToTerms(true);
    outcome := form.HandleSubmit(signup);
  }
}
