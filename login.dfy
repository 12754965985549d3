/** The login screen (`LoginScreen`): a submit handler guarded by two
    trimmed-non-empty fields, and a 1500 ms timer that hands the untrimmed
    username to `onLogin`. Each started timer is the username it captured,
    queued in `pending`; the spinner is never switched off here, because
    the screen is unmounted once `onLogin` logs the user in. */
module Login {
  import opened JsStrings

  datatype LoginState = LoginState(
    username: string,
    password: string,
    showPassword: bool,
    isLoading: bool,
    pending: seq<string>)

  const Initial := LoginState("", "", false, false, [])

  /** A queued timer has always switched the spinner on. */
  predicate Inv(s: LoginState) {
    s.pending != [] ==> s.isLoading
  }

  /** The guard of `handleSubmit`: both trimmed fields are non-empty,
      that is, each field holds some non-whitespace character. */
  function CanSubmit(s: LoginState): (b: bool)
    ensures b <==> !AllWhitespace(s.username) && !AllWhitespace(s.password)
  {
    TrimEmptyIff(s.username);
    TrimEmptyIff(s.password);
    Trim(s.username) != [] && Trim(s.password) != []
  }

  /** `handleSubmit`: nothing happens unless both fields hold a
      non-whitespace character; then the spinner starts and a timer that
      captured the current username is queued. */
  function Submit(s: LoginState): (r: LoginState)
    ensures AllWhitespace(s.username) || AllWhitespace(s.password) ==> r == s
    ensures !AllWhitespace(s.username) && !AllWhitespace(s.password) ==>
              r == s.(isLoading := true, pending := s.pending + [s.username])
    ensures s.isLoading ==> r.isLoading
    ensures Inv(s) ==> Inv(r)
  {
    if CanSubmit(s) then s.(isLoading := true, pending := s.pending + [s.username]) else s
  }

  /** The oldest timer fires and calls `onLogin` with the name it captured;
      the spinner stays on. */
  function FireTimer(s: LoginState): (r: (LoginState, string))
    requires s.pending != []
    ensures r.1 == s.pending[0]
    ensures r.0 == s.(pending := s.pending[1..])
    ensures s.isLoading ==> r.0.isLoading
  {
    (s.(pending := s.pending[1..]), s.pending[0])
  }

  function SetUsername(s: LoginState, v: string): (r: LoginState)
    ensures r == s.(username := v) && (Inv(s) ==> Inv(r))
  {
    s.(username := v)
  }

  function SetPassword(s: LoginState, v: string): (r: LoginState)
    ensures r == s.(password := v) && (Inv(s) ==> Inv(r))
  {
    s.(password := v)
  }

  function ToggleShowPassword(s: LoginState): (r: LoginState)
    ensures r.showPassword != s.showPassword && r == s.(showPassword := r.showPassword)
  {
    s.(showPassword := !s.showPassword)
  }

  /** The submit button is disabled while loading or while either trimmed
      field is empty, that is, while either field is all whitespace. */
  function SubmitDisabled(s: LoginState): (b: bool)
    ensures b <==> s.isLoading || AllWhitespace(s.username) || AllWhitespace(s.password)
  {
    TrimEmptyIff(s.username);
    TrimEmptyIff(s.password);
    s.isLoading || Trim(s.username) == [] || Trim(s.password) == []
  }

  /** The button is enabled exactly when not loading and the handler would
      accept the submission. */
  lemma ButtonMatchesGuard(s: LoginState)
    ensures !SubmitDisabled(s) <==> !s.isLoading && Submit(s) != s
  {
  }

  /** A valid submit followed by its timer calls `onLogin` with the username
      as typed, surrounding whitespace included. */
  lemma SubmitThenFire(s: LoginState)
    requires s.pending == [] && !AllWhitespace(s.username) && !AllWhitespace(s.password)
    ensures Submit(s).isLoading
    ensures FireTimer(Submit(s)).1 == s.username
  {
  }

  /** The login form never switches the spinner off: every handler keeps
      `isLoading` once it is set. */
  lemma LoadingIsSticky(s: LoginState, v: string)
    requires s.isLoading
    ensures Submit(s).isLoading && SetUsername(s, v).isLoading && SetPassword(s, v).isLoading
    ensures ToggleShowPassword(s).isLoading
    ensures s.pending != [] ==> FireTimer(s).0.isLoading
  {
  }

  class LoginScreen {
    var username: string
    var password: string
    var showPassword: bool
    var isLoading: bool
    var pending: seq<string>

    function Snapshot(): LoginState
      reads this
    {
      LoginState(username, password, showPassword, isLoading, pending)
    }

    ghost predicate Valid()
      reads this
    {
      Inv(Snapshot())
    }

    constructor ()
      ensures Valid() && Snapshot() == Initial
    {
      username, password, showPassword, isLoading, pending := "", "", false, false, [];
    }

    method HandleSubmit()
      requires Valid()
      modifies this
      ensures Valid() && Snapshot() == Submit(old(Snapshot()))
    {
      if Trim(username) != [] && Trim(password) != [] {
        isLoading := true;
        pending := pending + [username];
      }
    }

    /** The oldest timer fires; `user` is the name passed to `onLogin`. */
    method Fire() returns (user: string)
      requires Valid() && pending != []
      modifies this
      ensures Valid() && (Snapshot(), user) == FireTimer(old(Snapshot()))
    {
      user := pending[0];
      pending := pending[1..];
    }

    method HandleUsernameInput(v: string)
      requires Valid()
      modifies this
      ensures Valid() && Snapshot() == SetUsername(old(Snapshot()), v)
    {
      username := v;
    }

    method HandlePasswordInput(v: string)
      requires Valid()
      modifies this
      ensures Valid() && Snapshot() == SetPassword(old(Snapshot()), v)
    {
      password := v;
    }

    method HandleToggleShowPassword()
      requires Valid()
      modifies this
      ensures Valid() && Snapshot() == ToggleShowPassword(old(Snapshot()))
    {
      showPassword := !showPassword;
    }
  }
}
