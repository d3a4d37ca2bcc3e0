/** The sign-up page (`src/app/cadastro/page.tsx`): the checks run when the
    form is submitted, the `registerUser` call they guard, and the message
    the page then shows. The auth service's reply and the profile store are
    parameters, as in the `Auth` module. */
module Cadastro {

  import opened Common
  import Auth

  const FieldsMissing := "Preencha todos os campos"
  const PasswordsDiffer := "As senhas não coincidem"
  const PasswordTooShort := "A senha deve ter no mínimo 6 caracteres"
  const AccountCreated := "✅ Conta criada com sucesso! Você ganhou 30 créditos grátis. Redirecionando..."
  const FailurePrefix := "❌ Erro ao criar conta: "

  /** `❌ Erro ao criar conta: ${result.error}`. */
  function FailureMessage(error: string): string {
    FailurePrefix + error
  }

  /** The three checks of `handleSubmit`, in their order: the message shown,
      or nothing when `registerUser` is called. */
  function SignupError(name: string, email: string, password: string, confirmPassword: string): (error: Option<string>)
    ensures error.None? <==>
      name != "" && email != "" && password != "" && confirmPassword != ""
      && password == confirmPassword && |password| >= 6
    ensures error == Some(FieldsMissing) <==> name == "" || email == "" || password == "" || confirmPassword == ""
    ensures error == Some(PasswordsDiffer) <==>
      name != "" && email != "" && password != "" && confirmPassword != "" && password != confirmPassword
    ensures error == Some(PasswordTooShort) <==>
      name != "" && email != "" && password != "" && password == confirmPassword && |password| < 6
  {
    if name == "" || email == "" || password == "" || confirmPassword == "" then Some(FieldsMissing)
    else if password != confirmPassword then Some(PasswordsDiffer)
    else if |password| < 6 then Some(PasswordTooShort)
    else None
  }

  /** What the page shows after a submission. */
  datatype Notice = ErrorNotice(text: string) | SuccessNotice(text: string)

  /** `handleSubmit`: `request` is the `createUser` call `registerUser` makes,
      absent when a check stops the submission first. */
  method HandleSubmit(name: string, email: string, password: string, confirmPassword: string,
                      created: Auth.AuthReply, profiles: map<string, Auth.Profile>, storeError: Option<string>)
    returns (notice: Notice, request: Option<Auth.CreateUserRequest>, profiles': map<string, Auth.Profile>)
    ensures var e := SignupError(name, email, password, confirmPassword);
      e.Some? ==> notice == ErrorNotice(e.value) && request.None? && profiles' == profiles
    ensures request.Some? <==> SignupError(name, email, password, confirmPassword).None?
    ensures request.Some? ==> request.value == Auth.CreateUserRequest(email, password, name)
    ensures request.Some? && created.AuthError? ==>
      notice == ErrorNotice(FailureMessage(created.message)) && profiles' == profiles
    ensures request.Some? && created == Auth.AuthOk(None) ==>
      notice == ErrorNotice(FailureMessage(Auth.UserNotReturned)) && profiles' == profiles
    ensures request.Some? && created.AuthOk? && created.user.Some? ==>
      var u := created.user.value;
      if storeError.None? && u.id !in profiles then
        notice == SuccessNotice(AccountCreated) && profiles' == profiles[u.id := Auth.FreeProfile(u)]
      else
        notice == ErrorNotice(FailureMessage(Auth.InsertError(profiles, Auth.FreeProfile(u), storeError)))
        && profiles' == profiles
  {
    var error := SignupError(name, email, password, confirmPassword);
    if error.Some? {
      return ErrorNotice(error.value), None, profiles;
    }
    var result, sent;
    result, sent, profiles' := Auth.RegisterUser(email, password, Some(name), created, profiles, storeError);
    request := Some(sent);
    if result.SignedIn? {
      notice := SuccessNotice(AccountCreated);
    } else {
      notice := ErrorNotice(FailureMessage(result.error));
    }
  }

  /** The failure message carries the registration's own error, whole,
      after a fixed prefix: distinct errors give distinct messages. */
  lemma FailureMessageNamesError(error: string, other: string)
    ensures StartsWith(FailureMessage(error), FailurePrefix)
    ensures FailureMessage(error)[|FailurePrefix|..] == error
    ensures FailureMessage(error) == FailureMessage(other) ==> error == other
  {
    var m := FailureMessage(error);
    assert m[..|FailurePrefix|] == FailurePrefix;
    assert m[|FailurePrefix|..] == error;
    assert FailureMessage(other)[|FailurePrefix|..] == other;
  }

  /** A submission reaches the store only through a passing check: whatever
      the auth service answers, a rejected form leaves the profiles as
      they were, and an accepted one writes at most the new user's free
      profile. */
  method SubmitProvisions(name: string, email: string, password: string, confirmPassword: string,
                          u: Auth.AuthUser, profiles: map<string, Auth.Profile>, storeError: Option<string>)
    returns (notice: Notice, after: map<string, Auth.Profile>)
    ensures Auth.ProvisionedFrom(profiles, after, u)
    ensures after != profiles ==> SignupError(name, email, password, confirmPassword).None? && notice == SuccessNotice(AccountCreated)
  {
    var request;
    notice, request, after := HandleSubmit(name, email, password, confirmPassword, Auth.AuthOk(Some(u)), profiles, storeError);
  }
}
