/**
 * The registration page: a form of three fields, a first-match validation
 * chain run on submit, the call to `registerUser` when every rule passes,
 * and the styling that marks an empty field red once an error is shown.
 */
module Register {
  import opened Options
  import opened Text

  datatype FormData = FormData(name: string, email: string, password: string)

  /** The `name` attribute of each input, the key `handleChange` writes. */
  datatype Field = Name | Email | Password

  const FillAllFields: string := "Please fill in all fields"
  const NameTooShort: string := "Name must be at least 3 characters long"
  const NameTooLong: string := "Name cannot exceed 24 characters"
  const PasswordTooShort: string := "Password must be at least 8 characters long"
  const PasswordTooLong: string := "Password cannot exceed 100 characters"
  const RegisterFailed: string := "Failed to create account"

  const MinName: nat := 3
  const MaxName: nat := 24
  /** The length the check uses; the message it shows says 8. */
  const MinPassword: nat := 6
  const MaxPassword: nat := 100

  /**
   * The checks of `handleregister`, in their order: the first one that fails
   * gives the error shown, None means `registerUser` is called.
   */
  function Validate(f: FormData): (r: Option<string>)
    ensures f.email == "" || f.password == "" || f.name == "" ==> r == Some(FillAllFields)
    ensures r.Some? ==> r.value in {FillAllFields, NameTooShort, NameTooLong, PasswordTooShort, PasswordTooLong}
  {
    if f.email == "" || f.password == "" || f.name == "" then Some(FillAllFields)
    else if |f.name| < MinName then Some(NameTooShort)
    else if |f.name| > MaxName then Some(NameTooLong)
    else if |f.password| < MinPassword then Some(PasswordTooShort)
    else if |f.password| > MaxPassword then Some(PasswordTooLong)
    else None
  }

  /** The form is all a request needs: the three fields filled and both lengths in range. */
  predicate Acceptable(f: FormData) {
    && f.email != ""
    && MinName <= |f.name| <= MaxName
    && MinPassword <= |f.password| <= MaxPassword
  }

  /** `registerUser` is called exactly for acceptable forms. */
  lemma ValidateAcceptsIff(f: FormData)
    ensures Validate(f) == None <==> Acceptable(f)
  {
  }

  /** The name rules are looked at before the password rules. */
  lemma NameRulesFirst(f: FormData)
    requires f.email != "" && f.password != "" && f.name != ""
    requires |f.name| < MinName || |f.name| > MaxName
    ensures Validate(f) == Some(if |f.name| < MinName then NameTooShort else NameTooLong)
  {
  }

  /**
   * A password of 6 or 7 characters passes, although the message shown for
   * a short one asks for at least 8.
   */
  lemma ShortPasswordAccepted(f: FormData)
    requires f.email != "" && MinName <= |f.name| <= MaxName
    requires 6 <= |f.password| < 8
    ensures Validate(f) == None
    ensures Validate(f.(password := f.password[..5])) == Some(PasswordTooShort)
  {
  }

  /** `err.message || "Failed to create account"`. */
  function FailureMessage(message: string): (m: string)
    ensures m != ""
    ensures message != "" ==> m == message
  {
    if message != "" then message else RegisterFailed
  }

  function FieldValue(f: FormData, field: Field): string {
    match field
    case Name => f.name
    case Email => f.email
    case Password => f.password
  }

  /** `{ ...prev, [name]: value }`. */
  function WithField(f: FormData, field: Field, value: string): (g: FormData)
    ensures FieldValue(g, field) == value
    ensures forall other :: other != field ==> FieldValue(g, other) == FieldValue(f, other)
  {
    match field
    case Name => f.(name := value)
    case Email => f.(email := value)
    case Password => f.(password := value)
  }

  const BaseClasses: string :=
    "w-full pl-3 pr-3 py-1.5 border bg-white/50 backdrop-blur-sm transition-all duration-200 focus:outline-none"
  const ErrorBorder: string := "border-rose-400 focus:border-rose-500"
  const NormalBorder: string := "border-neutral-200 focus:border-neutral-400"

  /** `getInputClassName(field)`: the base classes, then the red border when the field is empty while an error shows. */
  function InputClassName(f: FormData, error: string, field: Field): (c: string)
    ensures StartsWith(c, BaseClasses + " ")
  {
    if FieldValue(f, field) == "" && error != "" then BaseClasses + " " + ErrorBorder
    else BaseClasses + " " + NormalBorder
  }

  /** The two class strings differ, so the styling tells the two cases apart. */
  lemma BordersDiffer()
    ensures BaseClasses + " " + ErrorBorder != BaseClasses + " " + NormalBorder
  {
    var p := BaseClasses + " ";
    assert ErrorBorder[7] == 'r' && NormalBorder[7] == 'n';
    SamePrefixDiffers(p, ErrorBorder, NormalBorder, 7);
  }

  lemma SamePrefixDiffers(p: string, x: string, y: string, k: nat)
    requires k < |x| && k < |y| && x[k] != y[k]
    ensures p + x != p + y
  {
    assert (p + x)[|p| + k] == x[k];
    assert (p + y)[|p| + k] == y[k];
  }

  /** A field is drawn red exactly when it is empty and an error is shown. */
  lemma ErrorStyleIff(f: FormData, error: string, field: Field)
    ensures InputClassName(f, error, field) == BaseClasses + " " + ErrorBorder <==>
              FieldValue(f, field) == "" && error != ""
  {
    BordersDiffer();
  }

  class RegisterPage {
    var formData: FormData
    var error: string

    constructor ()
      ensures formData == FormData("", "", "") && error == ""
    {
      formData := FormData("", "", "");
      error := "";
    }

    /**
     * `handleregister`. `registerFailure` is how the `registerUser` call
     * ends: None when it resolves, Some(message) when it throws. Returns
     * the arguments `registerUser` was called with, or None when a rule
     * failed first.
     */
    method HandleRegister(registerFailure: Option<string>) returns (registered: Option<FormData>)
      modifies this`error
      ensures Validate(formData).Some? ==> registered == None && error == Validate(formData).value
      ensures Validate(formData).None? ==> registered == Some(formData)
      ensures Validate(formData).None? && registerFailure.Some? ==> error == FailureMessage(registerFailure.value)
      ensures Validate(formData).None? && registerFailure.None? ==> error == old(error)
    {
      var problem := Validate(formData);
      if problem.Some? {
        error := problem.value;
        return None;
      }
      registered := Some(formData);
      if registerFailure.Some? {
        error := FailureMessage(registerFailure.value);
      }
    }

    /** `handleChange`: the edited field takes the new value and the error is cleared. */
    method HandleChange(field: Field, value: string)
      modifies this
      ensures formData == WithField(old(formData), field, value)
      ensures error == ""
    {
      formData := WithField(formData, field, value);
      error := "";
    }
  }

  /** After an edit the error is gone, so no field is drawn red. */
  lemma EditClearsErrorStyle(f: FormData, field: Field, value: string, other: Field)
    ensures InputClassName(WithField(f, field, value), "", other) == BaseClasses + " " + NormalBorder
  {
  }
}
