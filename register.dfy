/** The registration form: the cross-field password check, the two field
    patterns, the validity of the whole form, and what `onSubmit` does with
    an invalid form, a failed registration and a successful one (the
    automatic login and the navigation that follows it). */
module Register {
  import opened Models
  import Auth

  // ---------------------------------------------------------------------
  // Cross-field check

  const MISMATCH: string := "mismatch"

  /** A form control: its value and its error keys (`null` errors are the
      empty set). */
  class Control {
    var value: Option<string>
    var errors: set<string>

    constructor (value: Option<string>, errors: set<string>)
      ensures this.value == value && this.errors == errors
    {
      this.value := value;
      this.errors := errors;
    }
  }

  /** `confirmedPasswordValidator`, run on the group: `password` and
      `confirmPassword` are the two looked-up controls (`null` when absent).
      It returns the group's errors and may rewrite the confirmation's. */
  method ConfirmedPasswordValidator(password: Control?, confirmPassword: Control?)
    returns (result: Option<set<string>>)
    modifies confirmPassword
    ensures confirmPassword != null ==> confirmPassword.value == old(confirmPassword.value)
    // a missing control or a null value: no verdict, nothing touched
    ensures password == null || confirmPassword == null || password.value.None? || confirmPassword.value.None? ==>
      result == None && (confirmPassword != null ==> confirmPassword.errors == old(confirmPassword.errors))
    // different values: the group fails and the confirmation holds exactly `mismatch`
    ensures password != null && confirmPassword != null && password.value.Some? && confirmPassword.value.Some?
            && password.value != confirmPassword.value ==>
      result == Some({MISMATCH}) && confirmPassword.errors == {MISMATCH}
    // equal values: the group passes; a stale `mismatch` clears all of the
    // confirmation's errors, any other errors stay
    ensures password != null && confirmPassword != null && password.value.Some? && confirmPassword.value.Some?
            && password.value == confirmPassword.value ==>
      result == None &&
      confirmPassword.errors == (if MISMATCH in old(confirmPassword.errors) then {} else old(confirmPassword.errors))
  {
    if password == null || confirmPassword == null || password.value.None? || confirmPassword.value.None? {
      return None;
    }
    if password.value != confirmPassword.value {
      confirmPassword.errors := {MISMATCH};
      return Some({MISMATCH});
    } else {
      if MISMATCH in confirmPassword.errors {
        confirmPassword.errors := {};
      }
    }
    return None;
  }

  // ---------------------------------------------------------------------
  // Codice fiscale: /^[A-Z]{6}\d{2}[A-Z]\d{2}[A-Z]\d{3}[A-Z]$/i

  /** `[A-Z]` under the `i` flag: an ASCII letter of either case. */
  predicate IsLetter(c: char)
  {
    IsUpper(c) || IsLower(c)
  }

  /** `\d`. */
  predicate IsDigit(c: char)
  {
    '0' <= c <= '9'
  }

  datatype CharClass = Letter | Digit

  predicate InClass(c: char, k: CharClass)
  {
    match k
    case Letter => IsLetter(c)
    case Digit => IsDigit(c)
  }

  /** One `[class]{count}` of an anchored pattern. */
  datatype Piece = Piece(cls: CharClass, count: nat)

  const CODICE_FISCALE_PATTERN: seq<Piece> :=
    [Piece(Letter, 6), Piece(Digit, 2), Piece(Letter, 1), Piece(Digit, 2),
     Piece(Letter, 1), Piece(Digit, 3), Piece(Letter, 1)]

  /** The whole of `s` matches the pieces one after the other. */
  predicate MatchesPieces(s: string, pattern: seq<Piece>)
    decreases |pattern|
  {
    if pattern == [] then s == []
    else
      var n := pattern[0].count;
      n <= |s| && (forall i :: 0 <= i < n ==> InClass(s[i], pattern[0].cls)) && MatchesPieces(s[n..], pattern[1..])
  }

  function PatternLength(pattern: seq<Piece>): nat
    decreases |pattern|
  {
    if pattern == [] then 0 else pattern[0].count + PatternLength(pattern[1..])
  }

  /** The class the pattern demands at position `i`. */
  function ClassAt(pattern: seq<Piece>, i: nat): CharClass
    requires i < PatternLength(pattern)
    decreases |pattern|
  {
    if i < pattern[0].count then pattern[0].cls else ClassAt(pattern[1..], i - pattern[0].count)
  }

  /** Matching a sequence of pieces is having the right length and the
      right class at every position. */
  lemma {:induction false} MatchesPiecesLayout(s: string, pattern: seq<Piece>)
    ensures MatchesPieces(s, pattern) <==>
      |s| == PatternLength(pattern) && forall i :: 0 <= i < |s| ==> InClass(s[i], ClassAt(pattern, i))
    decreases |pattern|
  {
    if pattern != [] {
      var n := pattern[0].count;
      var rest := pattern[1..];
      if n <= |s| {
        var t := s[n..];
        MatchesPiecesLayout(t, rest);
        if |s| == PatternLength(pattern) {
          // position i >= n of s is position i - n of t
          forall i | n <= i < |s|
            ensures ClassAt(pattern, i) == ClassAt(rest, i - n) && s[i] == t[i - n]
          {
          }
          if forall i :: 0 <= i < |s| ==> InClass(s[i], ClassAt(pattern, i)) {
            forall j | 0 <= j < |t|
              ensures InClass(t[j], ClassAt(rest, j))
            {
              assert InClass(s[j + n], ClassAt(pattern, j + n));
            }
          }
          if MatchesPieces(s, pattern) {
            forall i | 0 <= i < |s|
              ensures InClass(s[i], ClassAt(pattern, i))
            {
              if i >= n {
                assert InClass(t[i - n], ClassAt(rest, i - n));
              }
            }
          }
        }
      }
    }
  }

  /** The layout of a codice fiscale, position by position. */
  function SlotClass(i: nat): CharClass
  {
    if i < 6 || i == 8 || i == 11 || i == 15 then Letter else Digit
  }

  /** The codice fiscale pattern accepts exactly the 16-character strings
      with letters at positions 0-5, 8, 11 and 15 and digits elsewhere,
      in either case. */
  lemma CodiceFiscaleLayout(s: string)
    ensures MatchesPieces(s, CODICE_FISCALE_PATTERN) <==>
      |s| == 16 && forall i :: 0 <= i < 16 ==> InClass(s[i], SlotClass(i))
  {
    MatchesPiecesLayout(s, CODICE_FISCALE_PATTERN);
    CodiceFiscaleLength();
    forall i | 0 <= i < 16
      ensures ClassAt(CODICE_FISCALE_PATTERN, i) == SlotClass(i)
    {
      CodiceFiscaleSlot(i);
    }
  }

  lemma CodiceFiscaleLength()
    ensures PatternLength(CODICE_FISCALE_PATTERN) == 16
  {
    var p := CODICE_FISCALE_PATTERN;
    assert p[1..][1..][1..][1..][1..][1..][1..] == [];
  }

  /** Position `i` of the pattern, walked piece by piece. */
  lemma CodiceFiscaleSlot(i: nat)
    requires i < 16
    ensures PatternLength(CODICE_FISCALE_PATTERN) == 16
    ensures ClassAt(CODICE_FISCALE_PATTERN, i) == SlotClass(i)
  {
    CodiceFiscaleLength();
    var p := CODICE_FISCALE_PATTERN;
    var p1 := p[1..];
    var p2 := p1[1..];
    var p3 := p2[1..];
    var p4 := p3[1..];
    var p5 := p4[1..];
    var p6 := p5[1..];
    assert PatternLength(p6) == 1 && PatternLength(p5) == 4;
    if i >= 6 { assert ClassAt(p, i) == ClassAt(p1, i - 6); }
    if i >= 8 { assert ClassAt(p1, i - 6) == ClassAt(p2, i - 8); }
    if i >= 9 { assert ClassAt(p2, i - 8) == ClassAt(p3, i - 9); }
    if i >= 11 { assert ClassAt(p3, i - 9) == ClassAt(p4, i - 11); }
    if i >= 12 { assert ClassAt(p4, i - 11) == ClassAt(p5, i - 12); }
    if i >= 15 { assert ClassAt(p5, i - 12) == ClassAt(p6, i - 15); }
  }

  /** `Validators.required` on a string control. */
  predicate Required(v: string)
  {
    v != ""
  }

  /** The codice fiscale control: required, then the pattern. */
  predicate CodiceFiscaleFieldValid(v: string)
  {
    Required(v) && MatchesPieces(v, CODICE_FISCALE_PATTERN)
  }

  /** A textbook codice fiscale is accepted. */
  lemma CodiceFiscaleExample(s: string)
    requires s == "RSSMRA85M01H501Z"
    ensures CodiceFiscaleFieldValid(s)
  {
    forall i | 0 <= i < 16
      ensures InClass(s[i], SlotClass(i))
    {
      if i < 6 || i == 8 || i == 11 || i == 15 {
        assert IsUpper(s[i]);
      }
    }
    CodiceFiscaleLayout(s);
  }

  /** The `i` flag: the same code in lower case is accepted too. */
  lemma CodiceFiscaleIgnoresCase(s: string)
    requires s == "rssmra85m01h501z"
    ensures CodiceFiscaleFieldValid(s)
  {
    forall i | 0 <= i < 16
      ensures InClass(s[i], SlotClass(i))
    {
      if i < 6 || i == 8 || i == 11 || i == 15 {
        assert IsLower(s[i]);
      }
    }
    CodiceFiscaleLayout(s);
  }

  /** A digit where the month letter goes is refused. */
  lemma CodiceFiscaleMonthLetter(s: string)
    requires s == "RSSMRA85101H501Z"
    ensures !CodiceFiscaleFieldValid(s)
  {
    CodiceFiscaleLayout(s);
    assert !InClass(s[8], SlotClass(8));
  }

  // ---------------------------------------------------------------------
  // Password strength:
  // /^(?=.*[a-z])(?=.*[A-Z])(?=.*\d)(?=.*[@$!%*?&])[A-Za-z\d@$!%*?&]{8,}$/

  predicate IsLower(c: char) { 'a' <= c <= 'z' }
  predicate IsUpper(c: char) { 'A' <= c <= 'Z' }
  predicate IsSpecial(c: char) { c in "@$!%*?&" }

  /** `[A-Za-z\d@$!%*?&]`. */
  predicate IsAllowed(c: char)
  {
    IsLower(c) || IsUpper(c) || IsDigit(c) || IsSpecial(c)
  }

  /** The characters `.` does not match. */
  predicate IsLineTerminator(c: char)
  {
    c == '\n' || c == '\r' || c == '\U{2028}' || c == '\U{2029}'
  }

  datatype Kind = Lower | Upper | Numeral | Special

  predicate OfKind(c: char, k: Kind)
  {
    match k
    case Lower => IsLower(c)
    case Upper => IsUpper(c)
    case Numeral => IsDigit(c)
    case Special => IsSpecial(c)
  }

  /** `(?=.*[k])` at the start: some character of kind `k` is reached
      without crossing a line terminator. */
  predicate Lookahead(s: string, k: Kind)
  {
    exists j :: 0 <= j < |s| && OfKind(s[j], k) && forall t :: 0 <= t < j ==> !IsLineTerminator(s[t])
  }

  /** The password regular expression, as written: four lookaheads, then
      eight or more allowed characters up to the end. */
  predicate PasswordPattern(s: string)
  {
    && Lookahead(s, Lower) && Lookahead(s, Upper) && Lookahead(s, Numeral) && Lookahead(s, Special)
    && |s| >= 8 && forall i :: 0 <= i < |s| ==> IsAllowed(s[i])
  }

  /** The strength rule in words: at least eight characters, all from the
      allowed set, with a lowercase letter, an uppercase letter, a digit and
      a special character among them. */
  predicate StrongPassword(s: string)
  {
    && |s| >= 8
    && (forall i :: 0 <= i < |s| ==> IsAllowed(s[i]))
    && (exists i :: 0 <= i < |s| && IsLower(s[i]))
    && (exists i :: 0 <= i < |s| && IsUpper(s[i]))
    && (exists i :: 0 <= i < |s| && IsDigit(s[i]))
    && (exists i :: 0 <= i < |s| && IsSpecial(s[i]))
  }

  /** With only allowed characters present, a lookahead is plain existence. */
  lemma LookaheadOverAllowed(s: string, k: Kind)
    requires forall i :: 0 <= i < |s| ==> IsAllowed(s[i])
    ensures Lookahead(s, k) <==> exists i :: 0 <= i < |s| && OfKind(s[i], k)
  {
    if i :| 0 <= i < |s| && OfKind(s[i], k) {
      forall t | 0 <= t < i
        ensures !IsLineTerminator(s[t])
      {
        assert IsAllowed(s[t]);
      }
    }
  }

  /** Some character of kind `k` exists, in the form `StrongPassword` states it. */
  lemma KindPresent(s: string, k: Kind)
    ensures (exists i :: 0 <= i < |s| && OfKind(s[i], k)) <==>
      match k
      case Lower => exists i :: 0 <= i < |s| && IsLower(s[i])
      case Upper => exists i :: 0 <= i < |s| && IsUpper(s[i])
      case Numeral => exists i :: 0 <= i < |s| && IsDigit(s[i])
      case Special => exists i :: 0 <= i < |s| && IsSpecial(s[i])
  {
  }

  /** The regular expression accepts exactly the strong passwords. */
  lemma PasswordPatternIsStrength(s: string)
    ensures PasswordPattern(s) <==> StrongPassword(s)
  {
    if forall i :: 0 <= i < |s| ==> IsAllowed(s[i]) {
      LookaheadOverAllowed(s, Lower);
      LookaheadOverAllowed(s, Upper);
      LookaheadOverAllowed(s, Numeral);
      LookaheadOverAllowed(s, Special);
      KindPresent(s, Lower);
      KindPresent(s, Upper);
      KindPresent(s, Numeral);
      KindPresent(s, Special);
    }
  }

  /** The password control: required, `minLength(8)`, then the pattern. */
  predicate PasswordFieldValid(v: string)
  {
    Required(v) && |v| >= 8 && PasswordPattern(v)
  }

  /** The extra `required` and `minLength(8)` add nothing to the pattern. */
  lemma PasswordFieldIsStrength(v: string)
    ensures PasswordFieldValid(v) <==> StrongPassword(v)
  {
    PasswordPatternIsStrength(v);
  }

  // ---------------------------------------------------------------------
  // The form

  datatype RegisterForm = RegisterForm(
    nome: string,
    cognome: string,
    codiceFiscale: string,
    dataNascita: string,
    password: string,
    confirmPassword: string)

  /** The form is valid when every control passes its validators and the
      group passes `confirmedPasswordValidator`. `dateOfBirthOk` is the
      verdict of the date-of-birth validator on a non-empty date. */
  predicate FormValid(f: RegisterForm, dateOfBirthOk: bool)
  {
    && Required(f.nome)
    && Required(f.cognome)
    && CodiceFiscaleFieldValid(f.codiceFiscale)
    && Required(f.dataNascita) && dateOfBirthOk
    && PasswordFieldValid(f.password)
    && Required(f.confirmPassword)
    && f.password == f.confirmPassword
  }

  /** What a submitted form guarantees about its fields. */
  lemma ValidFormFields(f: RegisterForm, dateOfBirthOk: bool)
    requires FormValid(f, dateOfBirthOk)
    ensures |f.codiceFiscale| == 16
    ensures forall i :: 0 <= i < 16 ==> InClass(f.codiceFiscale[i], SlotClass(i))
    ensures StrongPassword(f.password) && f.confirmPassword == f.password
  {
    CodiceFiscaleLayout(f.codiceFiscale);
    PasswordFieldIsStrength(f.password);
  }

  // ---------------------------------------------------------------------
  // Submission

  const INVALID_FORM_MESSAGE: string := "Per favore, correggi gli errori evidenziati nel form."
  const CONFLICT_MESSAGE: string := "Utente già registrato. Prova con un altro Codice Fiscale."
  const UNKNOWN_ERROR_MESSAGE: string := "Errore di registrazione sconosciuto. Riprova."

  /** The message `catchError` shows for a failed registration: the
      backend's own message unless it is missing or empty, else the default
      for the status. */
  function RegistrationErrorMessage(error: HttpError): (m: string)
    ensures m != ""
    ensures error.body.Some? && error.body.value.message != "" ==> m == error.body.value.message
    ensures !(error.body.Some? && error.body.value.message != "") ==>
      m == (if error.status == 409 then CONFLICT_MESSAGE else UNKNOWN_ERROR_MESSAGE)
  {
    var fallback := if error.status == 409 then CONFLICT_MESSAGE else UNKNOWN_ERROR_MESSAGE;
    match error.body
    case Some(body) => if body.message != "" then body.message else fallback
    case None => fallback
  }

  /** The status decides the message only when the backend sent none. */
  lemma StatusOnlyMattersWithoutMessage(a: HttpError, b: HttpError)
    requires a.body == b.body && a.body.Some? && a.body.value.message != ""
    ensures RegistrationErrorMessage(a) == RegistrationErrorMessage(b) == a.body.value.message
  {
  }

  const DASHBOARD_ROUTE: string := "/dashboard"

  /** `router.navigate([path], { queryParams })`, recorded; `registered` is the
      `registered=true` query parameter. */
  datatype Navigation = Navigation(path: string, registered: bool)

  /** The part of `RegisterComponent` that `onSubmit` updates. */
  class RegisterComponent {
    /** The component's own `AuthService` instance (it is listed in the
        component's providers). */
    const auth: Auth.AuthService

    var isLoading: bool
    var errorMessage: Option<string>
    var touched: bool                       // every control marked touched
    var requests: seq<RegistrazioneRequest> // registration calls issued
    var logins: seq<LoginRequest>           // automatic login calls issued
    var navigations: seq<Navigation>        // navigations made by the component

    constructor (auth: Auth.AuthService)
      ensures this.auth == auth
      ensures !isLoading && errorMessage == None && !touched
      ensures requests == [] && logins == [] && navigations == []
    {
      this.auth := auth;
      isLoading := false;
      errorMessage := None;
      touched := false;
      requests := [];
      logins := [];
      navigations := [];
    }

    /** `onSubmit` up to the registration call. `formattedDate` is the
        date of birth as `toISOString().split('T')[0]` renders it. */
    method Submit(form: RegisterForm, dateOfBirthOk: bool, formattedDate: string) returns (attempted: bool)
      modifies this
      ensures attempted <==> FormValid(form, dateOfBirthOk)
      ensures !attempted ==>
        && touched && errorMessage == Some(INVALID_FORM_MESSAGE)
        && isLoading == old(isLoading) && requests == old(requests)
      ensures attempted ==>
        && isLoading && errorMessage == None && touched == old(touched)
        && requests == old(requests) + [RegistrazioneRequest(form.codiceFiscale, form.password,
                                                             form.nome, form.cognome, formattedDate)]
      ensures logins == old(logins) && navigations == old(navigations)
    {
      if !FormValid(form, dateOfBirthOk) {
        touched := true;
        errorMessage := Some(INVALID_FORM_MESSAGE);
        return false;
      }
      isLoading := true;
      errorMessage := None;
      requests := requests + [RegistrazioneRequest(form.codiceFiscale, form.password,
                                                   form.nome, form.cognome, formattedDate)];
      return true;
    }

    /** The registration call failed: `catchError` sets the message,
        `finalize` clears the spinner. */
    method OnRegistrationError(error: HttpError)
      modifies this
      ensures errorMessage == Some(RegistrationErrorMessage(error)) && !isLoading
      ensures touched == old(touched) && requests == old(requests)
      ensures logins == old(logins) && navigations == old(navigations)
    {
      errorMessage := Some(RegistrationErrorMessage(error));
      isLoading := false;
    }

    /** The registration call succeeded: the `next` callback logs in with
        the codice fiscale and password of the request just sent, then
        `finalize` clears the spinner. */
    method OnRegistrationSucceeded()
      requires |requests| > 0
      modifies this
      ensures requests == old(requests) && navigations == old(navigations)
      ensures var sentRequest := requests[|requests| - 1];
        logins == old(logins) + [LoginRequest(sentRequest.codiceFiscale, sentRequest.password)]
      ensures !isLoading && errorMessage == old(errorMessage) && touched == old(touched)
    {
      var sentRequest := requests[|requests| - 1];
      logins := logins + [LoginRequest(sentRequest.codiceFiscale, sentRequest.password)];
      isLoading := false;
    }

    /** The automatic login answered: the service handles the outcome, then
        the component goes to the dashboard, or to the login page with
        `registered=true` when the login failed. */
    method OnAutoLoginAnswered(outcome: Result<AuthResponseDTO, HttpError>, now: int)
      requires auth.Valid()
      modifies this, auth
      ensures auth.Valid()
      ensures auth.Snapshot() == Auth.LoginCompleted(old(auth.Snapshot()), outcome, auth.parseClaims, now).0
      ensures navigations == old(navigations) +
        [if outcome.Success? then Navigation(DASHBOARD_ROUTE, false) else Navigation(Auth.LOGIN_ROUTE, true)]
      ensures isLoading == old(isLoading) && errorMessage == old(errorMessage) && touched == old(touched)
      ensures requests == old(requests) && logins == old(logins)
    {
      var r := auth.Login(outcome, now);
      if r.Success? {
        navigations := navigations + [Navigation(DASHBOARD_ROUTE, false)];
      } else {
        navigations := navigations + [Navigation(Auth.LOGIN_ROUTE, true)];
      }
    }
  }
}
