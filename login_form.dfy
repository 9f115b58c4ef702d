/**
 * The sign-in screen: which of its three views is shown, the messages it shows, and how the
 * submit, password-reset, toggle and "forgot password" handlers move between them. The
 * authentication service's answers are inputs, and so is whether the backend is configured.
 */
module LoginForm {
  import opened Wrappers
  import opened Text

  datatype View = Login | Register | ForgotPassword

  /** `getTitle`. */
  function Title(v: View): (t: string)
    ensures v == Login ==> t == "Entre na sua conta"
    ensures v == Register ==> t == "Crie sua conta"
    ensures v == ForgotPassword ==> t == "Recuperar Senha"
  {
    if v == Login then "Entre na sua conta"
    else if v == Register then "Crie sua conta"
    else "Recuperar Senha"
  }

  /** Every view has a title of its own. */
  lemma TitlesDistinct(a: View, b: View)
    requires a != b
    ensures Title(a) != Title(b)
  {
    assert Title(a)[0] != Title(b)[0] || |Title(a)| != |Title(b)|;
  }

  const NotConfigured := "Sistema não configurado. Entre em contato com o suporte."
  const Generic := "Ocorreu um erro inesperado. Tente novamente."
  const Mismatch := "As senhas não coincidem"
  const TooShort := "A senha deve ter pelo menos 6 caracteres"
  const AccountCreated := "Conta criada! Verifique seu email para confirmar sua conta antes de fazer login."
  const ResetSent := "Se uma conta com este email existir, um link para redefinir a senha foi enviado."
  const ResetFailed := "Não foi possível enviar o email de redefinição. Tente novamente mais tarde."

  /**
   * The fragments of the service's messages the `catch` block looks for; the fifth it looks for
   * is `Mismatch`, the message of the error the form throws itself.
   */
  const InvalidCredentials := "Invalid login credentials"
  const EmailNotConfirmed := "Email not confirmed"
  const AlreadyRegistered := "User already registered"
  const PasswordTooShort := "Password should be at least 6 characters"
  const RateLimited := "over_email_send_rate_limit"

  /** The texts shown for the six fragments, in the same order. */
  const WrongCredentialsText := "Email ou senha incorretos. Verifique seus dados e tente novamente."
  const NotConfirmedText := "Email não confirmado. Verifique sua caixa de entrada e clique no link de confirmação."
  const AlreadyRegisteredText := "Este email já está cadastrado. Tente fazer login ou recuperar sua senha."
  const TooShortText := "A senha deve ter pelo menos 6 caracteres."
  const MismatchText := "As senhas não coincidem."
  const RateLimitText := "Muitas tentativas. Aguarde alguns minutos antes de tentar novamente."

  /** The message shown for an error whose `message` is `m`: the `catch` block's `if`/`else` chain. */
  function ErrorMessage(m: Option<string>): string {
    if !Truthy(m) then Generic
    else if Contains(m.value, InvalidCredentials) then
      WrongCredentialsText
    else if Contains(m.value, EmailNotConfirmed) then
      NotConfirmedText
    else if Contains(m.value, AlreadyRegistered) then
      AlreadyRegisteredText
    else if Contains(m.value, PasswordTooShort) then
      TooShortText
    else if Contains(m.value, Mismatch) then
      MismatchText
    else if Contains(m.value, RateLimited) then
      RateLimitText
    else "Erro: " + m.value
  }

  /** A recognised fragment of a service message and the text shown for it. */
  datatype Translation = Translation(fragment: string, shown: string)

  /** The fragments the chain looks for, in the order it tries them. */
  const Translations := [
    Translation(InvalidCredentials, WrongCredentialsText),
    Translation(EmailNotConfirmed, NotConfirmedText),
    Translation(AlreadyRegistered, AlreadyRegisteredText),
    Translation(PasswordTooShort, TooShortText),
    Translation(Mismatch, MismatchText),
    Translation(RateLimited, RateLimitText)]

  /**
   * The reference reading of the chain: the text of the first translation whose fragment the
   * message contains, or None when no fragment occurs in it.
   */
  function FirstMatch(message: string, table: seq<Translation>): (r: Option<string>)
    ensures r.None? <==> forall i :: 0 <= i < |table| ==> !Contains(message, table[i].fragment)
    ensures r.Some? ==> exists i :: (0 <= i < |table| && Contains(message, table[i].fragment)
      && r.value == table[i].shown && forall j :: 0 <= j < i ==> !Contains(message, table[j].fragment))
    decreases |table|
  {
    if table == [] then None
    else if Contains(message, table[0].fragment) then Some(table[0].shown)
    else
      FirstMatch(message, table[1..])
  }

  /**
   * The chain is the first-match reading of the table: the first fragment found decides, a
   * message with none is shown after "Erro: ", and a missing message gets the generic text.
   */
  lemma ErrorMessageIsFirstMatch(m: Option<string>)
    ensures !Truthy(m) ==> ErrorMessage(m) == Generic
    ensures Truthy(m) ==>
      ErrorMessage(m) == match FirstMatch(m.value, Translations) case Some(t) => t case None => "Erro: " + m.value
  {
    if Truthy(m) {
      var x := m.value;
      var t := Translations;
      assert FirstMatch(x, t[6..]) == None;
      assert FirstMatch(x, t[5..]) == if Contains(x, RateLimited) then Some(RateLimitText) else None
        by { assert t[5..][0] == t[5] && t[5..][1..] == t[6..]; }
      assert FirstMatch(x, t[4..]) == if Contains(x, Mismatch) then Some(MismatchText) else FirstMatch(x, t[5..])
        by { assert t[4..][0] == t[4] && t[4..][1..] == t[5..]; }
      assert FirstMatch(x, t[3..]) == if Contains(x, PasswordTooShort) then Some(TooShortText) else FirstMatch(x, t[4..])
        by { assert t[3..][0] == t[3] && t[3..][1..] == t[4..]; }
      assert FirstMatch(x, t[2..]) == if Contains(x, AlreadyRegistered) then Some(AlreadyRegisteredText) else FirstMatch(x, t[3..])
        by { assert t[2..][0] == t[2] && t[2..][1..] == t[3..]; }
      assert FirstMatch(x, t[1..]) == if Contains(x, EmailNotConfirmed) then Some(NotConfirmedText) else FirstMatch(x, t[2..])
        by { assert t[1..][0] == t[1] && t[1..][1..] == t[2..]; }
      assert FirstMatch(x, t) == if Contains(x, InvalidCredentials) then Some(WrongCredentialsText) else FirstMatch(x, t[1..]);
    }
  }

  /** Each fragment holds a letter that marks it: the first five their first letter, the last its '_'. */
  lemma FragmentLetters()
    ensures 'I' in InvalidCredentials && 'E' in EmailNotConfirmed
    ensures 'U' in AlreadyRegistered && 'P' in PasswordTooShort
    ensures 'ã' in Mismatch && '_' in RateLimited
  {
    assert InvalidCredentials[0] == 'I';
    assert EmailNotConfirmed[0] == 'E';
    assert AlreadyRegistered[0] == 'U';
    assert PasswordTooShort[0] == 'P';
    assert Mismatch[11] == 'ã';
    assert RateLimited[4] == '_';
  }

  /** A message lacking 'I', 'E', 'U' and 'P' contains none of the first four fragments. */
  lemma ServiceFragmentsAbsent(m: string)
    requires 'I' !in m && 'E' !in m && 'U' !in m && 'P' !in m
    ensures !Contains(m, InvalidCredentials) && !Contains(m, EmailNotConfirmed)
    ensures !Contains(m, AlreadyRegistered) && !Contains(m, PasswordTooShort)
  {
    FragmentLetters();
    assert !Contains(m, InvalidCredentials) by {
      ContainsMissingChar(m, InvalidCredentials, 'I');
    }
    assert !Contains(m, EmailNotConfirmed) by {
      ContainsMissingChar(m, EmailNotConfirmed, 'E');
    }
    assert !Contains(m, AlreadyRegistered) by {
      ContainsMissingChar(m, AlreadyRegistered, 'U');
    }
    assert !Contains(m, PasswordTooShort) by {
      ContainsMissingChar(m, PasswordTooShort, 'P');
    }
  }

  /**
   * A message in which none of the fragments can occur (each holds a character the message
   * lacks) is shown after "Erro: ".
   */
  lemma ForeignMessageShown(m: string)
    requires m != "" && 'I' !in m && 'E' !in m && 'U' !in m && 'P' !in m && 'ã' !in m && '_' !in m
    ensures ErrorMessage(Some(m)) == "Erro: " + m
  {
    ServiceFragmentsAbsent(m);
    FragmentLetters();
    assert !Contains(m, Mismatch) by {
      ContainsMissingChar(m, Mismatch, 'ã');
    }
    assert !Contains(m, RateLimited) by {
      ContainsMissingChar(m, RateLimited, '_');
    }
  }

  /** The local length error matches none of the service's fragments, so it is shown after "Erro: ". */
  lemma TooShortShown()
    ensures ErrorMessage(Some(TooShort)) == "Erro: " + TooShort
  {
    TooShortUppercase();
    NoCharIn(TooShort, 'ã');
    NoCharIn(TooShort, '_');
    ForeignMessageShown(TooShort);
  }

  /** The local length error holds none of the capitals that start the service's fragments. */
  lemma TooShortUppercase()
    ensures 'I' !in TooShort && 'E' !in TooShort && 'U' !in TooShort && 'P' !in TooShort
  {
    assert forall i :: 0 <= i < |TooShort| ==> TooShort[i] == 'A' || TooShort[i] == ' ' || TooShort[i] == '6' || 'a' <= TooShort[i] <= 'z';
  }

  /** A message holding the mismatch fragment and none of the four before it gets the mismatch sentence. */
  lemma MismatchFragmentShown(m: string)
    requires 'I' !in m && 'E' !in m && 'U' !in m && 'P' !in m && Contains(m, Mismatch)
    ensures ErrorMessage(Some(m)) == MismatchText
  {
    ServiceFragmentsAbsent(m);
    assert m != "" by {
      ContainsChars(m, Mismatch);
      assert Mismatch[0] in m;
    }
  }

  /** The local mismatch error matches its own fragment and is shown as a sentence. */
  lemma MismatchShown()
    ensures ErrorMessage(Some(Mismatch)) == MismatchText
  {
    NoCharIn(Mismatch, 'I');
    NoCharIn(Mismatch, 'E');
    NoCharIn(Mismatch, 'U');
    NoCharIn(Mismatch, 'P');
    ContainsSelf(Mismatch);
    MismatchFragmentShown(Mismatch);
  }

  /** Character `c` does not occur in `s`, checked one position at a time. */
  lemma NoCharIn(s: string, c: char)
    requires forall i :: 0 <= i < |s| ==> s[i] != c
    ensures c !in s
  {
  }

  /** The `catch` block of `handleSubmit`: the message shown for a thrown error whose `message` is `m`. */
  method CatchMessage(m: Option<string>) returns (errorMessage: string)
    ensures errorMessage == ErrorMessage(m)
  {
    errorMessage := Generic;
    if Truthy(m) {
      var message := m.value;
      if Contains(message, InvalidCredentials) {
        errorMessage := WrongCredentialsText;
      } else if Contains(message, EmailNotConfirmed) {
        errorMessage := NotConfirmedText;
      } else if Contains(message, AlreadyRegistered) {
        errorMessage := AlreadyRegisteredText;
      } else if Contains(message, PasswordTooShort) {
        errorMessage := TooShortText;
      } else if Contains(message, Mismatch) {
        errorMessage := MismatchText;
      } else if Contains(message, RateLimited) {
        errorMessage := RateLimitText;
      } else {
        errorMessage := "Erro: " + message;
      }
    }
  }

  /** An error the authentication service reports. */
  datatype AuthError = AuthError(message: Option<string>)

  /** The signed-up or signed-in user; `emailConfirmed` is whether `email_confirmed_at` is set. */
  datatype User = User(emailConfirmed: bool)

  /** The awaited answer of `signInWithPassword` or `signUp`. */
  datatype AuthAnswer = AuthAnswer(error: Option<AuthError>, user: Option<User>)

  /**
   * Where `handleSubmit` leaves the screen: the view, the error and info lines, whether the
   * user got in (`onLoginSuccess`), and whether the authentication service was called.
   */
  datatype SubmitResult = SubmitResult(view: View, error: Option<string>, info: Option<string>, loggedIn: bool, contacted: bool)

  function SubmitOutcome(view: View, password: string, confirmPassword: string, configured: bool, answer: AuthAnswer)
    : SubmitResult
  {
    if !configured then SubmitResult(view, Some(NotConfigured), None, false, false)
    else match view
      case Login =>
        if answer.error.Some? then SubmitResult(view, Some(ErrorMessage(answer.error.value.message)), None, false, true)
        else SubmitResult(view, None, None, answer.user.Some?, true)
      case Register =>
        if password != confirmPassword then SubmitResult(view, Some(ErrorMessage(Some(Mismatch))), None, false, false)
        else if |password| < 6 then SubmitResult(view, Some(ErrorMessage(Some(TooShort))), None, false, false)
        else if answer.error.Some? then SubmitResult(view, Some(ErrorMessage(answer.error.value.message)), None, false, true)
        else if answer.user.Some? && !answer.user.value.emailConfirmed then SubmitResult(Login, None, Some(AccountCreated), false, true)
        else SubmitResult(view, None, None, answer.user.Some?, true)
      case ForgotPassword => SubmitResult(view, None, None, false, false)
  }

  /** The configuration check comes first: without it nothing else is checked or called. */
  lemma NotConfiguredFirst(view: View, password: string, confirmPassword: string, answer: AuthAnswer)
    ensures var r := SubmitOutcome(view, password, confirmPassword, false, answer);
      r.error == Some(NotConfigured) && r.info.None? && !r.contacted && !r.loggedIn && r.view == view
  {
  }

  /**
   * On the register view a mismatch is reported before the length is looked at, a short password
   * is reported next, and the sign-up is called only when both checks pass.
   */
  lemma RegisterChecksFirst(password: string, confirmPassword: string, answer: AuthAnswer)
    ensures var r := SubmitOutcome(Register, password, confirmPassword, true, answer);
      && (password != confirmPassword ==> r.error == Some(MismatchText) && !r.contacted)
      && (password == confirmPassword && |password| < 6 ==> r.error == Some("Erro: " + TooShort) && !r.contacted)
      && (r.contacted <==> password == confirmPassword && |password| >= 6)
  {
    var r := SubmitOutcome(Register, password, confirmPassword, true, answer);
    if password != confirmPassword {
      assert r.error == Some(ErrorMessage(Some(Mismatch))) && !r.contacted;
      MismatchShown();
    } else if |password| < 6 {
      assert r.error == Some(ErrorMessage(Some(TooShort))) && !r.contacted;
      TooShortShown();
    } else {
      assert r.contacted;
    }
  }

  /**
   * A sign-up answered with an unconfirmed user asks for the confirmation and goes back to the
   * login view; a confirmed one gets in.
   */
  lemma SignUpAnswered(password: string, user: User)
    requires |password| >= 6
    ensures var r := SubmitOutcome(Register, password, password, true, AuthAnswer(None, Some(user)));
      && (!user.emailConfirmed ==> r.view == Login && r.info == Some(AccountCreated) && r.error.None? && !r.loggedIn)
      && (user.emailConfirmed ==> r.view == Register && r.loggedIn && r.error.None?)
  {
  }

  /** A submit never opens the reset view, never sets both lines, and only gets in without an error. */
  lemma SubmitShape(view: View, password: string, confirmPassword: string, configured: bool, answer: AuthAnswer)
    ensures var r := SubmitOutcome(view, password, confirmPassword, configured, answer);
      && (r.view == ForgotPassword <==> view == ForgotPassword)
      && !(r.error.Some? && r.info.Some?)
      && (r.loggedIn ==> r.error.None? && r.contacted)
      && (r.contacted ==> configured && view != ForgotPassword)
  {
  }

  /** A user action on the screen. */
  datatype Step =
    | Toggle
    | ForgotLink
    | Submit(password: string, confirmPassword: string, configured: bool, answer: AuthAnswer)
    | Reset(failed: bool)

  /**
   * The view after a step, or None when the step is not offered on the view: the "forgot" link
   * is on the login view only, the sign-in form on the login and register views, the reset form
   * on the reset view; the toggle is always there.
   */
  function Next(v: View, s: Step): Option<View> {
    match s
    case Toggle => Some(if v == Login then Register else Login)
    case ForgotLink => if v == Login then Some(ForgotPassword) else None
    case Submit(p, c, configured, answer) =>
      if v == ForgotPassword then None else Some(SubmitOutcome(v, p, c, configured, answer).view)
    case Reset(failed) => if v == ForgotPassword then Some(if failed then v else Login) else None
  }

  /** The views a run of steps goes through from `v`, stopping at the first step not offered. */
  function Run(v: View, steps: seq<Step>): (r: View)
    decreases |steps|
  {
    if steps == [] then v
    else match Next(v, steps[0])
      case None => v
      case Some(w) => Run(w, steps[1..])
  }

  /** The reset view is entered only from the login view, through its link. */
  lemma ForgotOnlyByLink(v: View, s: Step)
    requires v != ForgotPassword && Next(v, s) == Some(ForgotPassword)
    ensures v == Login && s == ForgotLink
  {
  }

  /** A run that ends on the reset view from another view has followed the "forgot" link. */
  lemma {:induction false} RunReachesForgotByLink(v: View, steps: seq<Step>)
    requires v != ForgotPassword && Run(v, steps) == ForgotPassword
    ensures ForgotLink in steps
    decreases |steps|
  {
    var n := Next(v, steps[0]);
    if n.Some? && n.value != ForgotPassword {
      RunReachesForgotByLink(n.value, steps[1..]);
      assert steps == [steps[0]] + steps[1..];
    } else if n.Some? {
      ForgotOnlyByLink(v, steps[0]);
    }
  }

  /** The fields of the form. */
  datatype Field = Email | Password | ConfirmPassword | Name

  /** The screen's state. */
  class LoginScreen {
    var view: View
    var loading: bool
    var error: Option<string>
    var info: Option<string>
    var email: string
    var password: string
    var confirmPassword: string
    var name: string

    constructor ()
      ensures view == Login && !loading && error.None? && info.None?
      ensures email == "" && password == "" && confirmPassword == "" && name == ""
    {
      view, loading, error, info := Login, false, None, None;
      email, password, confirmPassword, name := "", "", "", "";
    }

    /** `handleChange`: the field takes the value as typed. */
    method Change(field: Field, value: string)
      modifies this
      ensures field == Email ==> email == value
      ensures field == Password ==> password == value
      ensures field == ConfirmPassword ==> confirmPassword == value
      ensures field == Name ==> name == value
      ensures field != Email ==> email == old(email)
      ensures field != Password ==> password == old(password)
      ensures field != ConfirmPassword ==> confirmPassword == old(confirmPassword)
      ensures field != Name ==> name == old(name)
      ensures view == old(view) && loading == old(loading) && error == old(error) && info == old(info)
    {
      match field
      case Email => email := value;
      case Password => password := value;
      case ConfirmPassword => confirmPassword := value;
      case Name => name := value;
    }

    /** The toggle below the form: login to register, anything else back to login; messages cleared. */
    method ToggleView()
      modifies this
      ensures Some(view) == Next(old(view), Toggle)
      ensures error.None? && info.None? && loading == old(loading)
      ensures email == old(email) && password == old(password) && confirmPassword == old(confirmPassword) && name == old(name)
    {
      view := if view == Login then Register else Login;
      error, info := None, None;
    }

    /** The "Esqueceu sua senha?" link, shown on the login view only; messages cleared. */
    method FollowForgotLink()
      requires view == Login
      modifies this
      ensures Some(view) == Next(old(view), ForgotLink)
      ensures error.None? && info.None? && loading == old(loading)
      ensures email == old(email) && password == old(password) && confirmPassword == old(confirmPassword) && name == old(name)
    {
      view := ForgotPassword;
      error, info := None, None;
    }

    /**
     * `handleSubmit`, with `configured` for `isSupabaseConfigured()` and `answer` for what the
     * sign-in or sign-up call answers (unused when it is not called). `contacted` says whether it
     * was called, `loggedIn` whether `onLoginSuccess` ran.
     */
    method SubmitForm(configured: bool, answer: AuthAnswer) returns (loggedIn: bool, contacted: bool)
      modifies this
      ensures var r := SubmitOutcome(old(view), old(password), old(confirmPassword), configured, answer);
        view == r.view && error == r.error && info == r.info && loggedIn == r.loggedIn && contacted == r.contacted
      ensures !loading
      ensures email == old(email) && password == old(password) && confirmPassword == old(confirmPassword) && name == old(name)
    {
      loggedIn, contacted := false, false;
      loading := true;
      error, info := None, None;
      if !configured {
        error := Some(NotConfigured);
        loading := false;
        return;
      }
      var thrown: Option<Option<string>> := None;
      if view == Login {
        contacted := true;
        if answer.error.Some? {
          thrown := Some(answer.error.value.message);
        } else if answer.user.Some? {
          loggedIn := true;
        }
      } else if view == Register {
        if password != confirmPassword {
          thrown := Some(Some(Mismatch));
        } else if |password| < 6 {
          thrown := Some(Some(TooShort));
        } else {
          contacted := true;
          if answer.error.Some? {
            thrown := Some(answer.error.value.message);
          } else if answer.user.Some? && !answer.user.value.emailConfirmed {
            info := Some(AccountCreated);
            view := Login;
            loading := false;
            return;
          } else if answer.user.Some? {
            loggedIn := true;
          }
        }
      }
      if thrown.Some? {
        var errorMessage := CatchMessage(thrown.value);
        error := Some(errorMessage);
      }
      loading := false;
    }

    /**
     * `handlePasswordReset`, with `failed` for whether the reset request failed: on success the
     * notice is shown and the login view comes back; on failure the fixed error is shown.
     */
    method PasswordReset(failed: bool)
      requires view == ForgotPassword
      modifies this
      ensures Some(view) == Next(old(view), Reset(failed))
      ensures failed ==> error == Some(ResetFailed) && info.None?
      ensures !failed ==> info == Some(ResetSent) && error.None?
      ensures !loading
      ensures email == old(email) && password == old(password) && confirmPassword == old(confirmPassword) && name == old(name)
    {
      loading := true;
      error, info := None, None;
      if failed {
        error := Some(ResetFailed);
      } else {
        info := Some(ResetSent);
        view := Login;
      }
      loading := false;
    }
  }
}
