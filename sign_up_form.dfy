/** `SignUpForm`: the field-by-field validation (with the e-mail pattern `/\S+@\S+\.\S+/`), the
    payload handed to `onComplete`, and `updateField`. */
module SignUpForm {
  import opened Wrappers
  import opened Text
  import opened Records
  import opened FormErrors

  datatype SignUpData = SignUpData(
    email: string, password: string, confirmPassword: string, firstName: string,
    lastName: string, university: string, studentId: string, agreeToTerms: bool)

  const Initial := SignUpData("", "", "", "", "", "", "", false)

  // ----- the e-mail pattern -----

  /** `/\S+@\S+\.\S+/.test(s)`: unanchored, so some part of `s` is a non-space run, '@', a
      non-space run, '.', a non-space run. Runs may themselves hold '@' and '.', so it is enough
      that the characters around the '@' and after the '.' are not space and that nothing
      between them is. */
  predicate EmailPattern(s: string) {
    exists at, dot :: 0 < at && at + 1 < dot && dot + 1 < |s|
      && s[at] == '@' && s[dot] == '.' && NoSpaceIn(s, at - 1, at) && NoSpaceIn(s, at + 1, dot)
      && NoSpaceIn(s, dot + 1, dot + 2)
  }

  /** No whitespace in `s[lo..hi]`. */
  predicate NoSpaceIn(s: string, lo: int, hi: int)
    requires 0 <= lo <= hi <= |s|
  {
    forall m :: lo <= m < hi ==> !IsSpace(s[m])
  }

  /** Anything the pattern accepts has at least five characters, among them an '@' and a '.'. */
  lemma EmailPatternMinimal(s: string)
    requires EmailPattern(s)
    ensures |s| >= 5 && '@' in s && '.' in s
  {
    var at, dot :| 0 < at && at + 1 < dot && dot + 1 < |s|
      && s[at] == '@' && s[dot] == '.' && NoSpaceIn(s, at - 1, at) && NoSpaceIn(s, at + 1, dot)
      && NoSpaceIn(s, dot + 1, dot + 2);
  }

  /** What the pattern accepts and refuses: an address, an address embedded in other text
      (there is no anchor), and strings without a user part, without a dot after the '@', or
      with a space inside the domain. */
  lemma EmailPatternExamples()
    ensures EmailPattern("a@b.c")
    ensures EmailPattern("my mail: a@b.c !")
    ensures !EmailPattern("@b.c")
    ensures !EmailPattern("a@bc")
    ensures !EmailPattern("a@ b.c")
  {
    assert "a@b.c"[1] == '@' && "a@b.c"[3] == '.';
    var t := "my mail: a@b.c !";
    assert t[10] == '@' && t[12] == '.' && !IsSpace(t[9]) && !IsSpace(t[11]) && !IsSpace(t[13]);
    assert forall at :: 0 <= at < 4 && "@b.c"[at] == '@' ==> at == 0;
    assert forall dot :: 0 <= dot < 4 ==> "a@bc"[dot] != '.';
    var u := "a@ b.c";
    assert forall at, dot :: 0 < at && at + 1 < dot && dot + 1 < |u| && u[at] == '@' && u[dot] == '.' ==>
      at == 1 && dot == 4 && IsSpace(u[2]);
  }

  // ----- validation -----

  /** The properties of the form; the error dictionary is keyed by them. */
  datatype Prop = Email | Password | ConfirmPassword | FirstName | LastName | University | StudentId | AgreeToTerms

  /** The properties edited through a text input or the university select. */
  type TextProp = p: Prop | p != AgreeToTerms witness Email

  const EmailRequired: string := "Email is required"
  const EmailInvalid: string := "Email is invalid"
  const PasswordRequired: string := "Password is required"
  const PasswordShort: string := "Password must be at least 8 characters"
  const PasswordMismatch: string := "Passwords do not match"
  const FirstNameRequired: string := "First name is required"
  const LastNameRequired: string := "Last name is required"
  const UniversityRequired: string := "University is required"
  const TermsRequired: string := "You must agree to the terms and conditions"

  function EmailError(email: string): (e: Option<string>)
    ensures e.Some? <==> email == "" || !EmailPattern(email)
    ensures e.Some? ==> e.value == if email == "" then EmailRequired else EmailInvalid
  {
    if email == "" then Some(EmailRequired)
    else if !EmailPattern(email) then Some(EmailInvalid)
    else None
  }

  function PasswordError(password: string): (e: Option<string>)
    ensures e.Some? <==> |password| < 8
    ensures e.Some? ==> e.value == if password == "" then PasswordRequired else PasswordShort
  {
    if password == "" then Some(PasswordRequired)
    else if |password| < 8 then Some(PasswordShort)
    else None
  }

  /** The rule of each property: its message when the rule fails, nothing when it holds. */
  function Rule(f: SignUpData, p: Prop): Option<string> {
    match p
    case Email => EmailError(f.email)
    case Password => PasswordError(f.password)
    case ConfirmPassword => RequiredError(f.password != f.confirmPassword, PasswordMismatch)
    case FirstName => RequiredError(f.firstName == "", FirstNameRequired)
    case LastName => RequiredError(f.lastName == "", LastNameRequired)
    case University => RequiredError(f.university == "", UniversityRequired)
    case StudentId => None
    case AgreeToTerms => RequiredError(!f.agreeToTerms, TermsRequired)
  }

  /** `validateForm`: builds the error dictionary rule by rule, then reports whether it stayed
      empty. The dictionary holds exactly the failed rules with their messages. */
  method ValidateForm(f: SignUpData) returns (errors: Errors<Prop>, valid: bool)
    ensures forall p :: p in errors <==> Rule(f, p).Some?
    ensures forall p :: p in errors ==> errors[p] == Rule(f, p).value
    ensures valid <==> errors == map[]
  {
    var newErrors: Errors<Prop> := map[];
    var e := EmailError(f.email);
    if e.Some? {
      newErrors := newErrors[Email := e.value];
    }
    e := PasswordError(f.password);
    if e.Some? {
      newErrors := newErrors[Password := e.value];
    }
    if f.password != f.confirmPassword {
      newErrors := newErrors[ConfirmPassword := PasswordMismatch];
    }
    if f.firstName == "" {
      newErrors := newErrors[FirstName := FirstNameRequired];
    }
    if f.lastName == "" {
      newErrors := newErrors[LastName := LastNameRequired];
    }
    if f.university == "" {
      newErrors := newErrors[University := UniversityRequired];
    }
    if !f.agreeToTerms {
      newErrors := newErrors[AgreeToTerms := TermsRequired];
    }
    // One property at a time, the dictionary agrees with that property's rule.
    forall p
      ensures p in newErrors <==> Rule(f, p).Some?
      ensures p in newErrors ==> newErrors[p] == Rule(f, p).value
    {
      match p
      case Email =>
      case Password =>
      case ConfirmPassword =>
      case FirstName =>
      case LastName =>
      case University =>
      case StudentId =>
      case AgreeToTerms =>
    }
    errors := newErrors;
    valid := newErrors == map[];
  }

  /** What the rules say, property by property: the e-mail is required and must match the
      pattern; the password is required and at least 8 characters long; the confirmation must
      equal it; names, university and the terms flag are required; the student id is never
      checked. */
  lemma RuleMessages(f: SignUpData)
    ensures Rule(f, Email).Some? <==> f.email == "" || !EmailPattern(f.email)
    ensures Rule(f, Email).Some? ==> Rule(f, Email).value == if f.email == "" then EmailRequired else EmailInvalid
    ensures Rule(f, Password).Some? <==> |f.password| < 8
    ensures Rule(f, Password).Some? ==> Rule(f, Password).value == if f.password == "" then PasswordRequired else PasswordShort
    ensures Rule(f, ConfirmPassword) == if f.password != f.confirmPassword then Some(PasswordMismatch) else None
    ensures Rule(f, FirstName) == if f.firstName == "" then Some(FirstNameRequired) else None
    ensures Rule(f, LastName) == if f.lastName == "" then Some(LastNameRequired) else None
    ensures Rule(f, University) == if f.university == "" then Some(UniversityRequired) else None
    ensures Rule(f, AgreeToTerms) == if !f.agreeToTerms then Some(TermsRequired) else None
    ensures Rule(f, StudentId) == None
  {
  }

  /** A form passes exactly when every checked rule holds. */
  predicate Acceptable(f: SignUpData) {
    f.email != "" && EmailPattern(f.email) && |f.password| >= 8 && f.password == f.confirmPassword
    && f.firstName != "" && f.lastName != "" && f.university != "" && f.agreeToTerms
  }

  /** The validator as a decision: it accepts exactly the acceptable forms, and the student id
      plays no part. */
  method ValidIffAcceptable(f: SignUpData, otherId: string) returns (valid: bool)
    ensures valid <==> Acceptable(f)
    ensures valid <==> Acceptable(f.(studentId := otherId))
  {
    var errors;
    errors, valid := ValidateForm(f);
    NoErrorsIffAcceptable(f, errors);
  }

  /** A dictionary holding exactly the failed rules is empty exactly for an acceptable form. */
  lemma NoErrorsIffAcceptable(f: SignUpData, errors: Errors<Prop>)
    requires forall p :: p in errors <==> Rule(f, p).Some?
    ensures errors == map[] <==> Acceptable(f)
  {
    if !Acceptable(f) {
      var p: Prop :| Rule(f, p).Some?;
      assert p in errors;
    }
  }

  // ----- the payload -----

  /** The data passed to `onComplete`: e-mail, names, university and student id, and never the
      password, its confirmation or the terms flag. */
  function Payload(f: SignUpData): (r: Record)
    ensures r.Keys == {"email", "firstName", "lastName", "university", "studentId"}
    ensures "password" !in r && "confirmPassword" !in r && "agreeToTerms" !in r
    ensures r["email"] == Str(f.email) && r["firstName"] == Str(f.firstName)
    ensures r["lastName"] == Str(f.lastName) && r["university"] == Str(f.university)
    ensures r["studentId"] == Str(f.studentId)
  {
    map["email" := Str(f.email), "firstName" := Str(f.firstName), "lastName" := Str(f.lastName),
        "university" := Str(f.university), "studentId" := Str(f.studentId)]
  }

  /** Two forms that differ only in their passwords give the same payload. */
  lemma PayloadIgnoresPassword(f: SignUpData, password: string, confirm: string)
    ensures Payload(f.(password := password, confirmPassword := confirm)) == Payload(f)
  {
  }

  // ----- updateField -----

  function Get(f: SignUpData, p: TextProp): string {
    match p
    case Email => f.email
    case Password => f.password
    case ConfirmPassword => f.confirmPassword
    case FirstName => f.firstName
    case LastName => f.lastName
    case University => f.university
    case StudentId => f.studentId
  }

  /** `{ ...prev, [field]: value }` on a text property. */
  function With(f: SignUpData, p: TextProp, value: string): SignUpData {
    match p
    case Email => f.(email := value)
    case Password => f.(password := value)
    case ConfirmPassword => f.(confirmPassword := value)
    case FirstName => f.(firstName := value)
    case LastName => f.(lastName := value)
    case University => f.(university := value)
    case StudentId => f.(studentId := value)
  }

  /** Setting a property sets that property and no other, and leaves the terms flag alone. */
  lemma WithSetsOnlyThatField(f: SignUpData, p: TextProp, value: string)
    ensures Get(With(f, p, value), p) == value
    ensures forall q: TextProp :: q != p ==> Get(With(f, p, value), q) == Get(f, q)
    ensures With(f, p, value).agreeToTerms == f.agreeToTerms
  {
  }

  /** The form's state. */
  class Form {
    var formData: SignUpData
    var errors: Errors<Prop>
    var isLoading: bool

    constructor ()
      ensures formData == Initial && errors == map[] && !isLoading
    {
      formData := Initial;
      errors := map[];
      isLoading := false;
    }

    /** `updateField` from a text input or the university select. */
    method UpdateField(p: TextProp, value: string)
      modifies this
      ensures formData == With(old(formData), p, value)
      ensures errors == ClearShownError(old(errors), p)
    {
      formData := With(formData, p, value);
      errors := ClearShownError(errors, p);
    }

    /** `updateField('agreeToTerms', checked)` from the checkbox. */
    method UpdateAgreeToTerms(checked: bool)
      modifies this
      ensures formData == old(formData).(agreeToTerms := checked)
      ensures errors == ClearShownError(old(errors), AgreeToTerms)
    {
      formData := formData.(agreeToTerms := checked);
      errors := ClearShownError(errors, AgreeToTerms);
    }

    /** `handleSubmit`: records the new errors and, when there are none, hands on the payload
        (the simulated request always succeeds); loading is off again afterwards. */
    method Submit() returns (sent: Option<Record>)
      modifies this`errors, this`isLoading
      ensures sent.Some? <==> Acceptable(formData)
      ensures sent.Some? ==> sent.value == Payload(formData) && errors == map[] && !isLoading
      ensures sent.None? ==> errors != map[] && isLoading == old(isLoading)
      ensures forall p :: p in errors <==> Rule(formData, p).Some?
      ensures forall p :: p in errors ==> errors[p] == Rule(formData, p).value
    {
      var newErrors, valid := ValidateForm(formData);
      errors := newErrors;
      NoErrorsIffAcceptable(formData, newErrors);
      if !valid {
        sent := None;
        return;
      }
      isLoading := true;
      sent := Some(Payload(formData));
      isLoading := false;
    }
  }
}
