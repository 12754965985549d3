/** The password-recovery wizard (`ForgotPasswordScreen`): a four-step
    machine email -> code -> new-password -> success with a guard on each
    forward step, a back button that retreats one step, and a four-slot
    one-character code entry with focus advance/retreat.

    Each `setTimeout` of a submit handler is a `Timer` appended to the
    `pending` queue; `FireTimer` applies the oldest one. All three timers
    have the same 1500 ms delay, so they fire in the order they were
    started, and none is ever cancelled. */
module ForgotPassword {
  import opened Wrappers
  import opened JsStrings

  datatype Step = Email | Code | NewPassword | Success

  /** A started timer, named after the notification it shows when it fires. */
  datatype Timer = CodeSent | CodeVerified | PasswordUpdated

  /** The step a timer moves the wizard to when it fires. */
  function Target(t: Timer): Step {
    match t
    case CodeSent => Code
    case CodeVerified => NewPassword
    case PasswordUpdated => Success
  }

  /** The error notifications a rejected submit shows (an empty email is
      rejected silently). */
  datatype FormError = IncompleteCode | PasswordTooShort | PasswordMismatch

  /** What pressing a navigation button does: stay in the wizard with a new
      state, or call `onBack` and leave it. */
  datatype Outcome = Stay(state: WizardState) | Exit

  /** The component's state variables; `focus` is the code slot the
      handlers last moved the keyboard focus to. */
  datatype WizardState = WizardState(
    step: Step,
    email: string,
    code: seq<string>,
    isLoading: bool,
    newPassword: string,
    confirmPassword: string,
    showPassword: bool,
    focus: Option<nat>,
    pending: seq<Timer>)

  const Slots := 4
  const MinPasswordLength := 6

  const Initial := WizardState(Email, "", ["", "", "", ""], false, "", "", false, None, [])

  /** Four slots of at most one UTF-16 code unit each (the inputs have
      `maxLength={1}` and `HandleCodeChange` refuses longer values), so a
      slot is empty or holds one character of the Basic Multilingual
      Plane. */
  predicate SlotsWellFormed(code: seq<string>) {
    |code| == Slots && forall i :: 0 <= i < |code| ==> Length(code[i]) <= 1
  }

  /** The invariant every handler keeps: well-formed slots, focus on an
      existing slot, and the spinner only while some timer is pending. */
  predicate Inv(s: WizardState) {
    && SlotsWellFormed(s.code)
    && (s.focus.Some? ==> s.focus.value < Slots)
    && (s.isLoading ==> s.pending != [])
  }

  lemma InitialInv()
    ensures Inv(Initial) && Initial.step == Email && !Initial.isLoading && Initial.pending == []
  {
  }

  // ---------------------------------------------------------------------
  // Guards

  /** Verdict of the code step on `code.join("")`: it rejects a joined code
      shorter than four, which with one-character slots happens exactly
      when some slot is empty. */
  function CodeError(code: seq<string>): (r: Option<FormError>)
    requires SlotsWellFormed(code)
    ensures r.Some? <==> exists i :: 0 <= i < Slots && code[i] == ""
    ensures r.Some? ==> r.value == IncompleteCode
  {
    JoinShortIff(code);
    if Length(Join(code)) < Slots then Some(IncompleteCode) else None
  }

  /** Verdict of the new-password step: length is checked before equality,
      so a short password reports `PasswordTooShort` even when the two
      fields also differ. The length is JavaScript's, in UTF-16 code
      units. */
  function ResetError(newPassword: string, confirmPassword: string): (r: Option<FormError>)
    ensures r == Some(PasswordTooShort) <==> Length(newPassword) < MinPasswordLength
    ensures r == Some(PasswordMismatch) <==>
              Length(newPassword) >= MinPasswordLength && newPassword != confirmPassword
    ensures r == None <==> Length(newPassword) >= MinPasswordLength && newPassword == confirmPassword
  {
    if Length(newPassword) < MinPasswordLength then Some(PasswordTooShort)
    else if newPassword != confirmPassword then Some(PasswordMismatch)
    else None
  }

  // ---------------------------------------------------------------------
  // Submit handlers and their timers

  /** `handleSendEmail`: an all-whitespace email is ignored; otherwise the
      spinner starts and the "code sent" timer is queued. The step does not
      move until the timer fires. */
  function SendEmail(s: WizardState): (r: WizardState)
    ensures AllWhitespace(s.email) ==> r == s
    ensures !AllWhitespace(s.email) ==>
              r == s.(isLoading := true, pending := s.pending + [CodeSent])
    ensures r.step == s.step && r.email == s.email
    ensures Inv(s) ==> Inv(r)
  {
    TrimEmptyIff(s.email);
    if Trim(s.email) == [] then s
    else s.(isLoading := true, pending := s.pending + [CodeSent])
  }

  /** `handleVerifyCode`: an incomplete code is rejected and nothing
      changes; a full code starts the spinner and queues "code verified". */
  function VerifyCode(s: WizardState): (r: WizardState)
    requires SlotsWellFormed(s.code)
    ensures (exists i :: 0 <= i < Slots && s.code[i] == "") ==> r == s
    ensures (forall i :: 0 <= i < Slots ==> s.code[i] != "") ==>
              r == s.(isLoading := true, pending := s.pending + [CodeVerified])
    ensures Inv(s) ==> Inv(r)
  {
    if CodeError(s.code).Some? then s
    else s.(isLoading := true, pending := s.pending + [CodeVerified])
  }

  /** `handleResetPassword`: either check failing leaves the state alone;
      only when both pass is the "password updated" timer queued, which is
      the only way to reach `Success`. */
  function ResetPassword(s: WizardState): (r: WizardState)
    ensures ResetError(s.newPassword, s.confirmPassword).Some? ==> r == s
    ensures Length(s.newPassword) >= MinPasswordLength && s.newPassword == s.confirmPassword ==>
              r == s.(isLoading := true, pending := s.pending + [PasswordUpdated])
    ensures Inv(s) ==> Inv(r)
  {
    if ResetError(s.newPassword, s.confirmPassword).Some? then s
    else s.(isLoading := true, pending := s.pending + [PasswordUpdated])
  }

  /** The oldest pending timer fires: the spinner stops and the wizard moves
      to that timer's step, whatever step it is on by then; no entered
      field is touched. */
  function FireTimer(s: WizardState): (r: WizardState)
    requires s.pending != []
    ensures r.step == Target(s.pending[0]) && !r.isLoading && r.pending == s.pending[1..]
    ensures r == s.(step := r.step, isLoading := false, pending := r.pending)
    ensures Inv(s) ==> Inv(r)
  {
    s.(isLoading := false, step := Target(s.pending[0]), pending := s.pending[1..])
  }

  // ---------------------------------------------------------------------
  // Navigation

  /** The back arrow, shown on every step but `Success`: from `Email` it
      calls `onBack`; from `Code` it goes to `Email` and from `NewPassword`
      to `Code`, clearing nothing. */
  function Back(s: WizardState): (r: Outcome)
    requires s.step != Success
    ensures s.step == Email <==> r == Exit
    ensures s.step == Code ==> r == Stay(s.(step := Email))
    ensures s.step == NewPassword ==> r == Stay(s.(step := Code))
    ensures r.Stay? ==> Inv(s) ==> Inv(r.state)
  {
    if s.step == Email then Exit
    else Stay(s.(step := if s.step == NewPassword then Code else Email))
  }

  /** The one button of the `Success` step ("Iniciar sesión") calls
      `onBack`. */
  function SignIn(s: WizardState): (r: Outcome)
    requires s.step == Success
    ensures r == Exit
  {
    Exit
  }

  // ---------------------------------------------------------------------
  // Field bindings and the code slots

  function SetEmail(s: WizardState, v: string): (r: WizardState)
    ensures r == s.(email := v) && (Inv(s) ==> Inv(r))
  {
    s.(email := v)
  }

  function SetNewPassword(s: WizardState, v: string): (r: WizardState)
    ensures r == s.(newPassword := v) && (Inv(s) ==> Inv(r))
  {
    s.(newPassword := v)
  }

  function SetConfirmPassword(s: WizardState, v: string): (r: WizardState)
    ensures r == s.(confirmPassword := v) && (Inv(s) ==> Inv(r))
  {
    s.(confirmPassword := v)
  }

  /** The eye button shows or hides both password fields. */
  function ToggleShowPassword(s: WizardState): (r: WizardState)
    ensures r.showPassword != s.showPassword && r == s.(showPassword := r.showPassword)
  {
    s.(showPassword := !s.showPassword)
  }

  /** `handleCodeChange(i, v)`: a value longer than one UTF-16 code unit
      is ignored; otherwise only slot `i` becomes `v`, and a non-empty `v`
      moves the focus to the next slot when there is one. */
  function CodeChange(s: WizardState, i: nat, v: string): (r: WizardState)
    requires SlotsWellFormed(s.code) && i < Slots
    ensures SlotsWellFormed(r.code)
    ensures Length(v) > 1 ==> r == s
    ensures Length(v) <= 1 ==> r.code[i] == v
    ensures forall j :: 0 <= j < Slots && j != i ==> r.code[j] == s.code[j]
    ensures r.focus == (if v != "" && Length(v) <= 1 && i < Slots - 1 then Some(i + 1) else s.focus)
    ensures r == s.(code := r.code, focus := r.focus)
    ensures Inv(s) ==> Inv(r)
  {
    if Length(v) > 1 then s
    else
      var newCode := s.code[i := v];
      s.(code := newCode, focus := if v != "" && i < Slots - 1 then Some(i + 1) else s.focus)
  }

  /** `handleKeyDown(i, key)`: Backspace on an empty slot other than the
      first moves the focus back one slot; nothing else changes. */
  function KeyDown(s: WizardState, i: nat, key: string): (r: WizardState)
    requires SlotsWellFormed(s.code) && i < Slots
    ensures r.code == s.code
    ensures r.focus == (if key == "Backspace" && s.code[i] == "" && i > 0 then Some(i - 1) else s.focus)
    ensures r == s.(focus := r.focus)
    ensures Inv(s) ==> Inv(r)
  {
    if key == "Backspace" && s.code[i] == "" && i > 0 then s.(focus := Some(i - 1)) else s
  }

  // ---------------------------------------------------------------------
  // Submit buttons

  /** The email button is disabled while loading or while the field is
      empty; it tests the raw field, not the trimmed one. Every email the
      handler accepts enables it (`BlankEmailEnablesButton` shows that the
      converse fails). */
  function EmailSubmitDisabled(s: WizardState): (b: bool)
    ensures s.isLoading || s.email == "" ==> b
    ensures !s.isLoading && !AllWhitespace(s.email) ==> !b
  {
    s.isLoading || s.email == ""
  }

  /** The code button is disabled while loading or while some slot is
      empty. On well-formed slots this is the handler's own test, a joined
      code shorter than four code units. */
  function CodeSubmitDisabled(s: WizardState): (b: bool)
    ensures SlotsWellFormed(s.code) ==> (b <==> s.isLoading || Length(Join(s.code)) < Slots)
  {
    var disabled := s.isLoading || exists i :: 0 <= i < |s.code| && s.code[i] == "";
    if SlotsWellFormed(s.code) then JoinShortIff(s.code); disabled else disabled
  }

  /** The password button is disabled while loading or while either field
      is empty; length and equality are left to the handler. Every password
      the handler accepts enables it. */
  function PasswordSubmitDisabled(s: WizardState): (b: bool)
    ensures s.isLoading || s.newPassword == "" || s.confirmPassword == "" ==> b
    ensures !s.isLoading && ResetError(s.newPassword, s.confirmPassword) == None ==> !b
  {
    s.isLoading || s.newPassword == "" || s.confirmPassword == ""
  }

  // ---------------------------------------------------------------------
  // Properties of the machine

  /** A valid email submit followed by its timer lands on `Code` with the
      spinner off; no entered field is touched. */
  lemma SendEmailThenFire(s: WizardState)
    requires s.step == Email && s.pending == [] && !s.isLoading && !AllWhitespace(s.email)
    ensures SendEmail(s).isLoading
    ensures FireTimer(SendEmail(s)) == s.(step := Code)
  {
  }

  /** A full code submitted on `Code` followed by its timer lands on
      `NewPassword`; no entered field is touched. */
  lemma VerifyCodeThenFire(s: WizardState)
    requires s.step == Code && s.pending == [] && !s.isLoading && SlotsWellFormed(s.code)
    requires forall i :: 0 <= i < Slots ==> s.code[i] != ""
    ensures VerifyCode(s).isLoading
    ensures FireTimer(VerifyCode(s)) == s.(step := NewPassword)
  {
  }

  /** An accepted password followed by its timer lands on `Success`. */
  lemma ResetPasswordThenFire(s: WizardState)
    requires s.step == NewPassword && s.pending == [] && !s.isLoading
    requires Length(s.newPassword) >= MinPasswordLength && s.newPassword == s.confirmPassword
    ensures ResetPassword(s).isLoading
    ensures FireTimer(ResetPassword(s)) == s.(step := Success)
  {
  }

  /** The code button is enabled exactly when the code handler would accept
      the code (the two tests agree on one-character slots). */
  lemma CodeButtonMatchesGuard(s: WizardState)
    requires SlotsWellFormed(s.code) && !s.isLoading
    ensures !CodeSubmitDisabled(s) <==> CodeError(s.code).None?
  {
  }

  /** The email button and the email handler disagree on blank input: a
      whitespace-only email enables the button, yet the handler ignores it. */
  lemma BlankEmailEnablesButton(s: WizardState)
    requires s.email == " " && !s.isLoading
    ensures !EmailSubmitDisabled(s) && SendEmail(s) == s
  {
    assert AllWhitespace(s.email);
  }

  /** A password the button accepts can still be rejected by the handler. */
  lemma EnabledPasswordButtonMayReject()
    ensures var s := Initial.(step := NewPassword, newPassword := "abc", confirmPassword := "abc");
              !PasswordSubmitDisabled(s) && ResetPassword(s) == s
  {
  }

  /** From any other step the wizard reaches `Success` exactly through a
      "password updated" timer. */
  lemma SuccessOnlyByPasswordTimer(s: WizardState)
    requires s.pending != [] && s.step != Success
    ensures FireTimer(s).step == Success <==> s.pending[0] == PasswordUpdated
  {
  }

  /** The back arrow is live while a timer is pending: going back from
      `Code` after a verified code and then letting the timer fire jumps
      from `Email` straight to `NewPassword`. */
  lemma BackWhileVerifying()
    ensures var s := Initial.(step := Code, email := "a@b.com", code := ["1", "2", "3", "4"]);
              var v := VerifyCode(s);
              Back(v).Stay? && Back(v).state.step == Email &&
              FireTimer(Back(v).state).step == NewPassword
  {
    var s := Initial.(step := Code, email := "a@b.com", code := ["1", "2", "3", "4"]);
    assert forall i :: 0 <= i < Slots ==> s.code[i] != "";
  }

  /** Entering 1, 2, 3, 4 into the four slots in turn: the code is full
      and the focus is left on the last slot. */
  function TypeCode(s: WizardState): (r: WizardState)
    requires SlotsWellFormed(s.code)
    ensures r == s.(code := ["1", "2", "3", "4"], focus := Some(3))
  {
    var c1 := CodeChange(s, 0, "1");
    var c2 := CodeChange(c1, 1, "2");
    var c3 := CodeChange(c2, 2, "3");
    assert c3.code == s.code[0 := "1"][1 := "2"][2 := "3"];
    var c4 := CodeChange(c3, 3, "4");
    assert c4.code == ["1", "2", "3", "4"];
    c4
  }

  /** The email phase of the happy path: type a non-blank email, submit,
      let the timer fire. The wizard is on `Code` with that email. */
  function EmailPhase(s: WizardState, email: string): (r: WizardState)
    requires s.step == Email && s.pending == [] && !s.isLoading && !AllWhitespace(email)
    ensures r == s.(email := email, step := Code)
  {
    SendEmailThenFire(SetEmail(s, email));
    FireTimer(SendEmail(SetEmail(s, email)))
  }

  /** The code phase of the happy path: type 1 2 3 4, submit, let the
      timer fire. The wizard is on `NewPassword` with that code. */
  function CodePhase(s: WizardState): (r: WizardState)
    requires s.step == Code && s.pending == [] && !s.isLoading && SlotsWellFormed(s.code)
    ensures r == s.(code := ["1", "2", "3", "4"], focus := Some(3), step := NewPassword)
  {
    var typed := TypeCode(s);
    assert forall i :: 0 <= i < Slots ==> typed.code[i] != "";
    VerifyCodeThenFire(typed);
    FireTimer(VerifyCode(typed))
  }

  /** The password phase of the happy path: type the password twice,
      submit, let the timer fire. The wizard is on `Success`. */
  function PasswordPhase(s: WizardState, password: string): (r: WizardState)
    requires s.step == NewPassword && s.pending == [] && !s.isLoading
    requires Length(password) >= MinPasswordLength
    ensures r == s.(newPassword := password, confirmPassword := password, step := Success)
  {
    var typed := SetConfirmPassword(SetNewPassword(s, password), password);
    ResetPasswordThenFire(typed);
    FireTimer(ResetPassword(typed))
  }

  /** The happy path from any state on the email step with no timer
      pending, the initial one included: with every non-blank email, the
      code 1 2 3 4, and every password of six or more characters typed
      twice, the three phases reach `Success` with every entered value
      kept and no timer left. */
  lemma HappyPath(s: WizardState, email: string, password: string)
    requires s.step == Email && s.pending == [] && !s.isLoading && SlotsWellFormed(s.code)
    requires !AllWhitespace(email) && Length(password) >= MinPasswordLength
    ensures
      var r := PasswordPhase(CodePhase(EmailPhase(s, email)), password);
      r == s.(email := email, code := ["1", "2", "3", "4"], focus := Some(3),
              newPassword := password, confirmPassword := password, step := Success)
  {
  }

  /** The happy path from the initial wizard with the example inputs: it
      ends on `Success` with the email and the password entered, the
      spinner off and no timer left. */
  lemma ExampleRecovery()
    ensures
      var email, password := "a@b.com", "secret1";
      !AllWhitespace(email) && Length(password) >= MinPasswordLength &&
      var s1 := EmailPhase(Initial, email);
      s1.step == Code && s1.pending == [] && !s1.isLoading && s1.code == Initial.code &&
      SlotsWellFormed(s1.code) &&
      var s3 := CodePhase(s1);
      s3.step == NewPassword && s3.pending == [] && !s3.isLoading &&
      var r := PasswordPhase(s3, password);
      r.step == Success && r.email == email && r.newPassword == password &&
      !r.isLoading && r.pending == []
  {
    assert !IsJsWhitespace("a@b.com"[0]);
    InitialInv();
  }

  /** Lengths are JavaScript's: three characters outside the Basic
      Multilingual Plane are six code units, a password the reset step
      accepts, and one such character is two code units, a value the code
      slots refuse. */
  lemma SurrogatePairsCount(s: WizardState, i: nat)
    requires SlotsWellFormed(s.code) && i < Slots
    ensures Length("\U{1F600}\U{1F600}\U{1F600}") == 6
    ensures ResetError("\U{1F600}\U{1F600}\U{1F600}", "\U{1F600}\U{1F600}\U{1F600}") == None
    ensures CodeChange(s, i, "\U{1F600}") == s
  {
    var p := "\U{1F600}\U{1F600}\U{1F600}";
    assert p[1..][1..][1..] == [];
    assert Length(p[1..][1..]) == 2;
  }

  /** A mismatched confirmation keeps the wizard on `NewPassword`. */
  lemma MismatchStays(s: WizardState)
    requires s.step == NewPassword && s.newPassword == "secret1" && s.confirmPassword == "secret2"
    ensures ResetError(s.newPassword, s.confirmPassword) == Some(PasswordMismatch)
    ensures ResetPassword(s) == s
  {
  }

  // ---------------------------------------------------------------------
  // The component

  class ForgotPasswordScreen {
    var step: Step
    var email: string
    var code: seq<string>
    var isLoading: bool
    var newPassword: string
    var confirmPassword: string
    var showPassword: bool
    var focus: Option<nat>
    var pending: seq<Timer>

    function Snapshot(): WizardState
      reads this
    {
      WizardState(step, email, code, isLoading, newPassword, confirmPassword, showPassword, focus, pending)
    }

    ghost predicate Valid()
      reads this
    {
      Inv(Snapshot())
    }

    constructor ()
      ensures Valid() && Snapshot() == Initial
    {
      step, email, code, isLoading := Email, "", ["", "", "", ""], false;
      newPassword, confirmPassword, showPassword := "", "", false;
      focus, pending := None, [];
    }

    method HandleSendEmail()
      requires Valid()
      modifies this
      ensures Valid() && Snapshot() == SendEmail(old(Snapshot()))
    {
      if Trim(email) == [] {
        return;
      }
      isLoading := true;
      pending := pending + [CodeSent];
    }

    method HandleVerifyCode() returns (error: Option<FormError>)
      requires Valid()
      modifies this
      ensures Valid() && Snapshot() == VerifyCode(old(Snapshot()))
      ensures error == CodeError(old(code))
    {
      var fullCode := Join(code);
      if Length(fullCode) < Slots {
        error := Some(IncompleteCode);
        return;
      }
      error := None;
      isLoading := true;
      pending := pending + [CodeVerified];
    }

    method HandleResetPassword() returns (error: Option<FormError>)
      requires Valid()
      modifies this
      ensures Valid() && Snapshot() == ResetPassword(old(Snapshot()))
      ensures error == ResetError(old(newPassword), old(confirmPassword))
    {
      if Length(newPassword) < MinPasswordLength {
        error := Some(PasswordTooShort);
        return;
      }
      if newPassword != confirmPassword {
        error := Some(PasswordMismatch);
        return;
      }
      error := None;
      isLoading := true;
      pending := pending + [PasswordUpdated];
    }

    /** The oldest timer fires. */
    method Fire()
      requires Valid() && pending != []
      modifies this
      ensures Valid() && Snapshot() == FireTimer(old(Snapshot()))
    {
      var t := pending[0];
      pending := pending[1..];
      isLoading := false;
      step := Target(t);
    }

    /** The back arrow; `exit` means `onBack` was called. */
    method HandleBack() returns (exit: bool)
      requires Valid() && step != Success
      modifies this
      ensures Valid()
      ensures exit <==> Back(old(Snapshot())) == Exit
      ensures !exit ==> Stay(Snapshot()) == Back(old(Snapshot()))
      ensures exit ==> Snapshot() == old(Snapshot())
    {
      if step == Email {
        exit := true;
      } else {
        exit := false;
        step := if step == NewPassword then Code else Email;
      }
    }

    /** The "Iniciar sesión" button of the success step calls `onBack`. */
    method HandleSignIn() returns (exit: bool)
      requires Valid() && step == Success
      ensures exit && SignIn(Snapshot()) == Exit
    {
      exit := true;
    }

    method HandleEmailInput(v: string)
      requires Valid()
      modifies this
      ensures Valid() && Snapshot() == SetEmail(old(Snapshot()), v)
    {
      email := v;
    }

    method HandleNewPasswordInput(v: string)
      requires Valid()
      modifies this
      ensures Valid() && Snapshot() == SetNewPassword(old(Snapshot()), v)
    {
      newPassword := v;
    }

    method HandleConfirmPasswordInput(v: string)
      requires Valid()
      modifies this
      ensures Valid() && Snapshot() == SetConfirmPassword(old(Snapshot()), v)
    {
      confirmPassword := v;
    }

    method HandleToggleShowPassword()
      requires Valid()
      modifies this
      ensures Valid() && Snapshot() == ToggleShowPassword(old(Snapshot()))
    {
      showPassword := !showPassword;
    }

    method HandleCodeChange(i: nat, v: string)
      requires Valid() && i < Slots
      modifies this
      ensures Valid() && Snapshot() == CodeChange(old(Snapshot()), i, v)
    {
      if Length(v) > 1 {
        return;
      }
      var newCode := code;
      newCode := newCode[i := v];
      code := newCode;
      if v != "" && i < Slots - 1 {
        focus := Some(i + 1);
      }
    }

    method HandleKeyDown(i: nat, key: string)
      requires Valid() && i < Slots
      modifies this
      ensures Valid() && Snapshot() == KeyDown(old(Snapshot()), i, key)
    {
      if key == "Backspace" && code[i] == "" && i > 0 {
        focus := Some(i - 1);
      }
    }
  }
}
