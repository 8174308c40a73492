/** The settings screen (app/configuracoes.tsx): renaming the user and
    changing the password. */
module Settings {
  import opened Outcomes
  import opened Text
  import opened Session

  /** Why `handleSalvarNome` refuses, or that it sends the request. */
  function NameAccepted(nome: string, user: Option<User>): (ok: bool)
    ensures ok <==> !IsBlank(nome) && !(user.Some? && Trim(nome) == user.value.nome)
  {
    TrimEmptyIffBlank(nome);
    !(Trim(nome) == "" || (user.Some? && Trim(nome) == user.value.nome))
  }

  /** The alert `handleSalvarSenha` raises, in the order it checks. */
  datatype PasswordVerdict = EmptyFields | Mismatch | TooShort | PasswordAccepted

  const MinPasswordLength: nat := 6

  /** The password guard: a request goes out exactly when both fields have a
      visible character, are equal as typed and are at least six long; the
      blank check wins over the others, the equality check over the
      length check. */
  function CheckPassword(novaSenha: string, confirmarSenha: string): (v: PasswordVerdict)
    ensures v == PasswordAccepted <==>
      !IsBlank(novaSenha) && !IsBlank(confirmarSenha) && novaSenha == confirmarSenha
      && |novaSenha| >= MinPasswordLength
    ensures v == EmptyFields <==> IsBlank(novaSenha) || IsBlank(confirmarSenha)
    ensures v == Mismatch <==>
      !IsBlank(novaSenha) && !IsBlank(confirmarSenha) && novaSenha != confirmarSenha
  {
    TrimEmptyIffBlank(novaSenha);
    TrimEmptyIffBlank(confirmarSenha);
    if Trim(novaSenha) == "" || Trim(confirmarSenha) == "" then EmptyFields
    else if novaSenha != confirmarSenha then Mismatch
    else if |novaSenha| < MinPasswordLength then TooShort
    else PasswordAccepted
  }

  /** The alerts the screen raises. */
  datatype Notice =
    | EnterDifferentName | NameSaved | NameSaveFailed
    | FillBothPasswords | PasswordsDiffer | PasswordTooShort | PasswordSaved | PasswordSaveFailed

  /** The initial text of the name field: `user?.nome || ''`. */
  function InitialName(user: Option<User>): (n: string)
    ensures user.Some? ==> n == user.value.nome
    ensures user.None? ==> n == ""
  {
    if user.Some? then user.value.nome else ""
  }

  class SettingsScreen {
    /** The session user as the screen sees it; `updateUser` replaces it. */
    var user: Option<User>
    var nome: string
    var loadingNome: bool
    var novaSenha: string
    var confirmarSenha: string
    var loadingSenha: bool

    constructor (user: Option<User>)
      ensures this.user == user && nome == InitialName(user)
      ensures novaSenha == "" && confirmarSenha == ""
      ensures !loadingNome && !loadingSenha
    {
      this.user := user;
      nome := InitialName(user);
      loadingNome := false;
      novaSenha, confirmarSenha := "", "";
      loadingSenha := false;
    }

    /** `handleSalvarNome`, with `response` the settled `PUT /users/me`
        (its `usuario`). The button is disabled while `loadingNome`.
        `request` is the body sent, if any: the trimmed name. Only a
        resolved request replaces the user; the typed name is kept either
        way and the flag ends false. */
    method SaveName(response: Outcome<User>) returns (request: Option<string>, notice: Notice)
      requires !loadingNome
      modifies this`user, this`loadingNome
      ensures novaSenha == old(novaSenha) && confirmarSenha == old(confirmarSenha)
      ensures request == (if NameAccepted(old(nome), old(user)) then Some(Trim(old(nome))) else None)
      ensures request.None? ==> notice == EnterDifferentName && user == old(user)
      ensures request.Some? && response.Ok? ==> notice == NameSaved && user == Some(response.value)
      ensures request.Some? && response.Err? ==> notice == NameSaveFailed && user == old(user)
      ensures !loadingNome && nome == old(nome)
    {
      var typed := nome;
      var accepted, trimmed := NameAccepted(typed, user), Trim(typed);
      if !accepted {
        return None, EnterDifferentName;
      }
      loadingNome := true;
      request := Some(trimmed);
      if response.Ok? {
        user := Some(response.value);
        notice := NameSaved;
      } else {
        notice := NameSaveFailed;
      }
      loadingNome := false;
    }

    /** `handleSalvarSenha`, with `response` the settled
        `PUT /users/me/senha`; the button is disabled while `loadingSenha`.
        `request` is the password sent, if any. Both fields are cleared only
        after a success; the flag ends false. */
    method SavePassword(response: Outcome<()>) returns (request: Option<string>, notice: Notice)
      requires !loadingSenha
      modifies this`novaSenha, this`confirmarSenha, this`loadingSenha
      ensures request.Some? <==> CheckPassword(old(novaSenha), old(confirmarSenha)) == PasswordAccepted
      ensures request.Some? ==> request.value == old(novaSenha)
      ensures request.None? ==> novaSenha == old(novaSenha) && confirmarSenha == old(confirmarSenha)
      ensures request.None? ==> notice == match CheckPassword(old(novaSenha), old(confirmarSenha))
        case EmptyFields => FillBothPasswords
        case Mismatch => PasswordsDiffer
        case _ => PasswordTooShort
      ensures request.Some? && response.Ok? ==>
        notice == PasswordSaved && novaSenha == "" && confirmarSenha == ""
      ensures request.Some? && response.Err? ==>
        notice == PasswordSaveFailed && novaSenha == old(novaSenha) && confirmarSenha == old(confirmarSenha)
      ensures !loadingSenha && user == old(user)
    {
      var verdict := CheckPassword(novaSenha, confirmarSenha);
      if verdict != PasswordAccepted {
        notice := match verdict
          case EmptyFields => FillBothPasswords
          case Mismatch => PasswordsDiffer
          case _ => PasswordTooShort;
        return None, notice;
      }
      loadingSenha := true;
      request := Some(novaSenha);
      if response.Ok? {
        notice := PasswordSaved;
        novaSenha, confirmarSenha := "", "";
      } else {
        notice := PasswordSaveFailed;
      }
      loadingSenha := false;
    }
  }
}
