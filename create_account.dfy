/** The registration screen (`CreateAccountScreen`): an ordered validation
    chain over the form and the terms checkbox, and a 2000 ms timer that
    clears the spinner and calls `onRegisterSuccess`. Timers are counted in
    `pending`; all of them do the same thing. */
module CreateAccount {
  import opened Wrappers

  datatype SignupForm = SignupForm(name: string, email: string, password: string, confirmPassword: string)

  datatype Field = NameField | EmailField | PasswordField | ConfirmField

  /** The error notification of a rejected submit. */
  datatype SignupError = MissingFields | PasswordMismatch | TermsNotAccepted

  datatype SignupState = SignupState(
    form: SignupForm,
    acceptTerms: bool,
    showPassword: bool,
    isLoading: bool,
    pending: nat)

  const Initial := SignupState(SignupForm("", "", "", ""), false, false, false, 0)

  predicate Inv(s: SignupState) {
    s.isLoading ==> s.pending > 0
  }

  /** Name, email and password are present; the test is JavaScript
      truthiness of the raw strings, so whitespace counts as present. */
  predicate FieldsPresent(f: SignupForm) {
    f.name != "" && f.email != "" && f.password != ""
  }

  /** The guard chain of `handleSubmit`: missing fields, then mismatch, then
      terms. Exactly one verdict comes out, and it is the first failing
      check in that order. */
  function Validate(f: SignupForm, acceptTerms: bool): (r: Option<SignupError>)
    ensures r == Some(MissingFields) <==> !FieldsPresent(f)
    ensures r == Some(PasswordMismatch) <==> FieldsPresent(f) && f.password != f.confirmPassword
    ensures r == Some(TermsNotAccepted) <==>
              FieldsPresent(f) && f.password == f.confirmPassword && !acceptTerms
    ensures r == None <==> FieldsPresent(f) && f.password == f.confirmPassword && acceptTerms
  {
    if f.name == "" || f.email == "" || f.password == "" then Some(MissingFields)
    else if f.password != f.confirmPassword then Some(PasswordMismatch)
    else if !acceptTerms then Some(TermsNotAccepted)
    else None
  }

  /** `handleSubmit`: a rejected form changes nothing; an accepted one
      starts the spinner and the timer. */
  function Submit(s: SignupState): (r: SignupState)
    ensures Validate(s.form, s.acceptTerms).Some? ==> r == s
    ensures Validate(s.form, s.acceptTerms).None? ==>
              r == s.(isLoading := true, pending := s.pending + 1)
    ensures Inv(s) ==> Inv(r)
  {
    if Validate(s.form, s.acceptTerms).Some? then s
    else s.(isLoading := true, pending := s.pending + 1)
  }

  /** A timer fires: the spinner stops and `onRegisterSuccess` is called
      (the caller of this function makes that call). */
  function FireTimer(s: SignupState): (r: SignupState)
    requires s.pending > 0
    ensures !r.isLoading && r.pending == s.pending - 1
    ensures r.form == s.form && r.acceptTerms == s.acceptTerms && r.showPassword == s.showPassword
    ensures Inv(r)
  {
    s.(isLoading := false, pending := s.pending - 1)
  }

  /** The terms checkbox flips `acceptTerms` and nothing else. */
  function ToggleTerms(s: SignupState): (r: SignupState)
    ensures r.acceptTerms != s.acceptTerms && r == s.(acceptTerms := r.acceptTerms)
    ensures Inv(s) ==> Inv(r)
  {
    s.(acceptTerms := !s.acceptTerms)
  }

  function ToggleShowPassword(s: SignupState): (r: SignupState)
    ensures r.showPassword != s.showPassword && r == s.(showPassword := r.showPassword)
    ensures Inv(s) ==> Inv(r)
  {
    s.(showPassword := !s.showPassword)
  }

  /** One input's `onChange`: the form with that one field replaced. */
  function Edit(f: SignupForm, field: Field, v: string): (r: SignupForm)
    ensures field == NameField ==> r == f.(name := v)
    ensures field == EmailField ==> r == f.(email := v)
    ensures field == PasswordField ==> r == f.(password := v)
    ensures field == ConfirmField ==> r == f.(confirmPassword := v)
  {
    match field
    case NameField => f.(name := v)
    case EmailField => f.(email := v)
    case PasswordField => f.(password := v)
    case ConfirmField => f.(confirmPassword := v)
  }

  /** The submit button is disabled only while loading; every validation
      is left to the handler. */
  predicate SubmitDisabled(s: SignupState) {
    s.isLoading
  }

  /** The create button is gated by the spinner alone: it is disabled
      exactly while loading, and the terms box and the form never disable
      it, so while not loading it is enabled even
      for a form `Validate` rejects, the initial empty one included. */
  lemma ButtonIgnoresValidation(s: SignupState, t: bool)
    ensures SubmitDisabled(s.(acceptTerms := t)) == SubmitDisabled(s)
    ensures s.isLoading ==> SubmitDisabled(s)
    ensures !s.isLoading ==> !SubmitDisabled(s)
    ensures !SubmitDisabled(Initial) && Validate(Initial.form, Initial.acceptTerms) == Some(MissingFields)
    ensures Submit(Initial) == Initial
  {
  }

  /** Unchecking or checking the terms never changes the error reported
      for missing fields or a mismatch. */
  lemma TermsCheckedLast(f: SignupForm, t: bool)
    requires Validate(f, t) != Some(TermsNotAccepted) && Validate(f, t).Some?
    ensures Validate(f, !t) == Validate(f, t)
  {
  }

  /** A whitespace-only name (and likewise email or password) counts as
      filled in. */
  lemma WhitespaceCountsAsFilled()
    ensures Validate(SignupForm(" ", "a@b.com", "pw", "pw"), true) == None
  {
  }

  /** An accepted submit followed by its timer leaves the spinner off and
      the form as it was. */
  lemma SubmitThenFire(s: SignupState)
    requires Inv(s) && s.pending == 0 && Validate(s.form, s.acceptTerms).None?
    ensures Submit(s).isLoading && FireTimer(Submit(s)) == s
  {
  }

  class CreateAccountScreen {
    var formData: SignupForm
    var acceptTerms: bool
    var showPassword: bool
    var isLoading: bool
    var pending: nat

    function Snapshot(): SignupState
      reads this
    {
      SignupState(formData, acceptTerms, showPassword, isLoading, pending)
    }

    ghost predicate Valid()
      reads this
    {
      Inv(Snapshot())
    }

    constructor ()
      ensures Valid() && Snapshot() == Initial
    {
      formData := SignupForm("", "", "", "");
      acceptTerms, showPassword, isLoading, pending := false, false, false, 0;
    }

    /** `error` is the notification shown, if any. */
    method HandleSubmit() returns (error: Option<SignupError>)
      requires Valid()
      modifies this
      ensures Valid() && Snapshot() == Submit(old(Snapshot()))
      ensures error == Validate(old(formData), old(acceptTerms))
    {
      if formData.name == "" || formData.email == "" || formData.password == "" {
        return Some(MissingFields);
      }
      if formData.password != formData.confirmPassword {
        return Some(PasswordMismatch);
      }
      if !acceptTerms {
        return Some(TermsNotAccepted);
      }
      error := None;
      isLoading := true;
      pending := pending + 1;
    }

    /** A timer fires; `registered` says `onRegisterSuccess` was called. */
    method Fire() returns (registered: bool)
      requires Valid() && pending > 0
      modifies this
      ensures Valid() && Snapshot() == FireTimer(old(Snapshot())) && registered
    {
      isLoading := false;
      pending := pending - 1;
      registered := true;
    }

    method HandleToggleTerms()
      requires Valid()
      modifies this
      ensures Valid() && Snapshot() == ToggleTerms(old(Snapshot()))
    {
      acceptTerms := !acceptTerms;
    }

    method HandleToggleShowPassword()
      requires Valid()
      modifies this
      ensures Valid() && Snapshot() == ToggleShowPassword(old(Snapshot()))
    {
      showPassword := !showPassword;
    }

    method HandleInput(field: Field, v: string)
      requires Valid()
      modifies this
      ensures Valid() && Snapshot() == old(Snapshot()).(form := Edit(old(formData), field, v))
    {
      formData := Edit(formData, field, v);
    }
  }
}
