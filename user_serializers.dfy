/**
 * The validation rules of the user serializers: registration (the field checks the
 * model serializer derives from the user columns, the duplicate-email check,
 * password confirmation), creation from validated registration data, login and
 * password change, and the read-only fields of a profile update.
 *
 * `authenticate`, `check_password`, the password validators, the email format
 * check, `normalize_email` and `set_password` are framework code and appear as function parameters.
 */
module UserSerializers {
  import opened Wrappers
  import UM = UserModels

  /** A validation error attached to one field, or to the data as a whole. */
  datatype ValidationError = FieldError(field: string, message: string) | NonFieldError(message: string)

  // ---------------------------------------------------------------- registration

  datatype RegistrationData = RegistrationData(nombreUsuario: string, email: string, password: string, passwordConfirm: string)

  const EmailInUse := "El email ya está en uso"
  const PasswordsDiffer := "Las contraseñas no coinciden"

  /** Field-level check of the email: it must not already belong to a user. */
  function ValidateEmail(email: string, existingEmails: set<string>): (r: Result<string, ValidationError>)
    ensures r.Success? <==> email !in existingEmails
    ensures r.Success? ==> r.value == email
    ensures r.Failure? ==> r.error == FieldError("email", EmailInUse)
  {
    if email in existingEmails then Failure(FieldError("email", EmailInUse)) else Success(email)
  }

  /** Object-level check: the password and its confirmation must be equal. */
  function ValidateRegistration(data: RegistrationData): (r: Result<RegistrationData, ValidationError>)
    ensures r.Success? <==> data.password == data.passwordConfirm
    ensures r.Success? ==> r.value == data
    ensures r.Failure? ==> r.error == NonFieldError(PasswordsDiffer)
  {
    if data.password != data.passwordConfirm then Failure(NonFieldError(PasswordsDiffer)) else Success(data)
  }

  // The model serializer derives a field from each model column: a character field
  // that refuses a blank value, with the column's length limit and, for a unique
  // column, a uniqueness validator.  Their messages are the framework's own.

  const BlankMessage := "This field may not be blank."
  const NombreUsuarioTaken := "usuario with this nombre usuario already exists."
  const EmailTaken := "usuario with this email already exists."
  const NombreUsuarioTooLong := "Ensure this field has no more than 50 characters."
  const EmailTooLong := "Ensure this field has no more than 100 characters."
  const InvalidEmail := "Enter a valid email address."
  const NombreUsuarioMaxLength := 50
  const EmailMaxLength := 100

  /** A validator applied to a field's value: whether it fails, and the message it raises then. */
  datatype Check = Check(fails: bool, message: string)

  /** The messages of the failing validators; every validator runs, in order. */
  function FailingMessages(checks: seq<Check>): (msgs: seq<string>)
    ensures |msgs| <= |checks|
    ensures msgs == [] <==> forall i :: 0 <= i < |checks| ==> !checks[i].fails
    ensures forall m :: m in msgs <==> exists i :: 0 <= i < |checks| && checks[i].fails && checks[i].message == m
  {
    if checks == [] then []
    else
      var rest := FailingMessages(checks[1..]);
      assert forall m :: m in rest <==> exists i :: 1 <= i < |checks| && checks[i].fails && checks[i].message == m by {
        forall m | m in rest ensures exists i :: 1 <= i < |checks| && checks[i].fails && checks[i].message == m {
          var j :| 0 <= j < |checks[1..]| && checks[1..][j].fails && checks[1..][j].message == m;
          assert checks[j + 1] == checks[1..][j];
        }
        forall m, i | 1 <= i < |checks| && checks[i].fails && checks[i].message == m ensures m in rest {
          assert checks[1..][i - 1] == checks[i];
        }
      }
      (if checks[0].fails then [checks[0].message] else []) + rest
  }

  /** The messages of `nombre_usuario`: blank alone, else the uniqueness and length validators. */
  function NombreUsuarioMessages(v: string, existingNames: set<string>): seq<string> {
    if v == "" then [BlankMessage]
    else FailingMessages([Check(v in existingNames, NombreUsuarioTaken), Check(|v| > NombreUsuarioMaxLength, NombreUsuarioTooLong)])
  }

  /**
   * The messages of `email`: blank alone, else the uniqueness, length and format
   * validators; `validate_email` runs only once those passed.
   */
  function EmailMessages(v: string, existingEmails: set<string>, isEmail: string -> bool): seq<string> {
    if v == "" then [BlankMessage]
    else
      var validators := FailingMessages([Check(v in existingEmails, EmailTaken), Check(|v| > EmailMaxLength, EmailTooLong),
                                         Check(!isEmail(v), InvalidEmail)]);
      if validators != [] then validators
      else match ValidateEmail(v, existingEmails)
        case Failure(e) => [e.message]
        case Success(_) => []
  }

  /** The messages of a password field, which has no validator besides the blank check. */
  function PasswordMessages(v: string): seq<string> {
    if v == "" then [BlankMessage] else []
  }

  /** Messages attached to one field. */
  function FieldErrors(field: string, msgs: seq<string>): (errs: seq<ValidationError>)
    ensures |errs| == |msgs|
    ensures forall i :: 0 <= i < |msgs| ==> errs[i] == FieldError(field, msgs[i])
    ensures forall e :: e in errs <==> e.FieldError? && e.field == field && e.message in msgs
  {
    var errs := seq(|msgs|, i requires 0 <= i < |msgs| => FieldError(field, msgs[i]));
    assert forall m :: m in msgs ==> FieldError(field, m) in errs by {
      forall m | m in msgs ensures FieldError(field, m) in errs {
        var k :| 0 <= k < |msgs| && msgs[k] == m;
        assert errs[k] == FieldError(field, m);
      }
    }
    errs
  }

  /** The field errors of a registration, field by field in declaration order. */
  function RegistrationFieldErrors(data: RegistrationData, existingNames: set<string>, existingEmails: set<string>,
                                   isEmail: string -> bool): seq<ValidationError> {
    FieldErrors("nombre_usuario", NombreUsuarioMessages(data.nombreUsuario, existingNames))
    + FieldErrors("email", EmailMessages(data.email, existingEmails, isEmail))
    + FieldErrors("password", PasswordMessages(data.password))
    + FieldErrors("password_confirm", PasswordMessages(data.passwordConfirm))
  }

  /** Every field of a registration passes its field-level validation. */
  predicate RegistrationFieldsPass(data: RegistrationData, existingNames: set<string>, existingEmails: set<string>,
                                   isEmail: string -> bool) {
    && data.nombreUsuario != "" && |data.nombreUsuario| <= NombreUsuarioMaxLength && data.nombreUsuario !in existingNames
    && data.email != "" && |data.email| <= EmailMaxLength && isEmail(data.email) && data.email !in existingEmails
    && data.password != "" && data.passwordConfirm != ""
  }

  lemma FieldErrorsEmpty(data: RegistrationData, existingNames: set<string>, existingEmails: set<string>, isEmail: string -> bool)
    ensures RegistrationFieldErrors(data, existingNames, existingEmails, isEmail) == []
        <==> RegistrationFieldsPass(data, existingNames, existingEmails, isEmail)
  {
    var n := [Check(data.nombreUsuario in existingNames, NombreUsuarioTaken),
              Check(|data.nombreUsuario| > NombreUsuarioMaxLength, NombreUsuarioTooLong)];
    var e := [Check(data.email in existingEmails, EmailTaken), Check(|data.email| > EmailMaxLength, EmailTooLong),
              Check(!isEmail(data.email), InvalidEmail)];
    assert (forall i :: 0 <= i < |n| ==> !n[i].fails) <==> !n[0].fails && !n[1].fails;
    assert (forall i :: 0 <= i < |e| ==> !e[i].fails) <==> !e[0].fails && !e[1].fails && !e[2].fails;
  }

  /**
   * The whole registration validation: every field's checks run and all field
   * errors are reported together; the object-level password check runs only when
   * there are none.
   */
  function RegistrationIsValid(data: RegistrationData, existingNames: set<string>, existingEmails: set<string>,
                               isEmail: string -> bool): (r: Result<RegistrationData, seq<ValidationError>>)
    ensures r.Success? <==>
      RegistrationFieldsPass(data, existingNames, existingEmails, isEmail) && data.password == data.passwordConfirm
    ensures r.Success? ==> r.value == data
    ensures r.Failure? ==> r.error != []
    ensures RegistrationFieldsPass(data, existingNames, existingEmails, isEmail) && data.password != data.passwordConfirm ==>
      r == Failure([NonFieldError(PasswordsDiffer)])
  {
    var campos := RegistrationFieldErrors(data, existingNames, existingEmails, isEmail);
    FieldErrorsEmpty(data, existingNames, existingEmails, isEmail);
    if campos != [] then Failure(campos)
    else match ValidateRegistration(data)
      case Success(d) => Success(d)
      case Failure(e) => Failure([e])
  }

  /** A blank field reports the blank message on that field. */
  lemma BlankFieldsReported(data: RegistrationData, existingNames: set<string>, existingEmails: set<string>,
                            isEmail: string -> bool)
    ensures var r := RegistrationIsValid(data, existingNames, existingEmails, isEmail);
      && (data.nombreUsuario == "" ==> r.Failure? && FieldError("nombre_usuario", BlankMessage) in r.error)
      && (data.email == "" ==> r.Failure? && FieldError("email", BlankMessage) in r.error)
      && (data.password == "" ==> r.Failure? && FieldError("password", BlankMessage) in r.error)
      && (data.passwordConfirm == "" ==> r.Failure? && FieldError("password_confirm", BlankMessage) in r.error)
  {
    FieldErrorsEmpty(data, existingNames, existingEmails, isEmail);
    var a := FieldErrors("nombre_usuario", NombreUsuarioMessages(data.nombreUsuario, existingNames));
    var b := FieldErrors("email", EmailMessages(data.email, existingEmails, isEmail));
    var c := FieldErrors("password", PasswordMessages(data.password));
    var d := FieldErrors("password_confirm", PasswordMessages(data.passwordConfirm));
    var campos := a + b + c + d;
    assert RegistrationFieldErrors(data, existingNames, existingEmails, isEmail) == campos;
    if data.nombreUsuario == "" { assert campos[0] == a[0] == FieldError("nombre_usuario", BlankMessage); }
    if data.email == "" { assert campos[|a|] == b[0] == FieldError("email", BlankMessage); }
    if data.password == "" { assert campos[|a| + |b|] == c[0] == FieldError("password", BlankMessage); }
    if data.passwordConfirm == "" { assert campos[|a| + |b| + |c|] == d[0] == FieldError("password_confirm", BlankMessage); }
  }

  /**
   * A taken or over-long user name and a taken email are reported with the
   * framework's messages, whatever else is wrong with the data.
   */
  lemma UniquenessAndLengthReported(data: RegistrationData, existingNames: set<string>, existingEmails: set<string>,
                                    isEmail: string -> bool)
    ensures var r := RegistrationIsValid(data, existingNames, existingEmails, isEmail);
      && (data.nombreUsuario != "" && data.nombreUsuario in existingNames ==>
            r.Failure? && FieldError("nombre_usuario", NombreUsuarioTaken) in r.error)
      && (|data.nombreUsuario| > NombreUsuarioMaxLength ==> r.Failure? && FieldError("nombre_usuario", NombreUsuarioTooLong) in r.error)
      && (data.email != "" && data.email in existingEmails ==> r.Failure? && FieldError("email", EmailTaken) in r.error)
  {
    FieldErrorsEmpty(data, existingNames, existingEmails, isEmail);
    var n := [Check(data.nombreUsuario in existingNames, NombreUsuarioTaken),
              Check(|data.nombreUsuario| > NombreUsuarioMaxLength, NombreUsuarioTooLong)];
    var e := [Check(data.email in existingEmails, EmailTaken), Check(|data.email| > EmailMaxLength, EmailTooLong),
              Check(!isEmail(data.email), InvalidEmail)];
    assert n[0].fails ==> NombreUsuarioTaken in FailingMessages(n);
    assert n[1].fails ==> NombreUsuarioTooLong in FailingMessages(n);
    assert e[0].fails ==> EmailTaken in FailingMessages(e);
  }

  /**
   * `validate_email`'s own message is never reported: it runs only after the
   * uniqueness validator, which has already refused every email it would refuse.
   */
  lemma EmailInUseNeverReported(data: RegistrationData, existingNames: set<string>, existingEmails: set<string>,
                                isEmail: string -> bool)
    ensures var r := RegistrationIsValid(data, existingNames, existingEmails, isEmail);
      r.Failure? ==> FieldError("email", EmailInUse) !in r.error
  {
    FieldErrorsEmpty(data, existingNames, existingEmails, isEmail);
    var e := [Check(data.email in existingEmails, EmailTaken), Check(|data.email| > EmailMaxLength, EmailTooLong),
              Check(!isEmail(data.email), InvalidEmail)];
    assert EmailInUse !in FailingMessages(e);
    assert EmailInUse !in EmailMessages(data.email, existingEmails, isEmail);
  }

  /**
   * Create the user from validated registration data: the confirmation is dropped
   * and only the user name, the email and the password reach the manager.
   */
  method Create(manager: UM.UsuarioManager, data: RegistrationData,
                normalizeEmail: string -> string, setPassword: Option<string> -> string)
    returns (r: Result<UM.Usuario, UM.ManagerError>)
    requires manager.Valid()
    modifies manager
    ensures manager.Valid()
    ensures r.Failure? ==> manager.usuarios == old(manager.usuarios)
    ensures r.Success? ==>
      && r.value.nombreUsuario == data.nombreUsuario
      && r.value.email == normalizeEmail(data.email)
      && r.value.password == setPassword(Some(data.password))
      && !r.value.isStaff && !r.value.isAdmin && !r.value.isSuperuser
      && manager.usuarios == old(manager.usuarios) + [r.value]
    ensures data.email != "" && normalizeEmail(data.email) in old(manager.Emails()) ==> r == Failure(UM.IntegrityError("email"))
    ensures data.email != "" && normalizeEmail(data.email) !in old(manager.Emails()) && data.nombreUsuario in old(manager.NombresUsuario()) ==>
      r == Failure(UM.IntegrityError("nombre_usuario"))
    ensures data.email != "" && normalizeEmail(data.email) !in old(manager.Emails()) && data.nombreUsuario !in old(manager.NombresUsuario()) ==>
      r.Success? && r.value.idUsuario == old(manager.nextId)
  {
    r := manager.CreateUser(data.email, data.nombreUsuario, Some(data.password), normalizeEmail, setPassword);
  }

  // ---------------------------------------------------------------- login

  datatype LoginData<U> = LoginData(email: string, password: string, usuario: Option<U>)

  const InvalidCredentials := "Credenciales inválidas"

  /**
   * Login validation.  With both email and password present, the authenticated
   * user is attached to the data, and failed authentication is an error; with
   * either missing the data passes through unchanged.
   */
  function ValidateLogin<U>(email: string, password: string, authenticate: (string, string) -> Option<U>)
    : (r: Result<LoginData<U>, ValidationError>)
    ensures r.Failure? <==> email != "" && password != "" && authenticate(email, password).None?
    ensures r.Failure? ==> r.error == NonFieldError(InvalidCredentials)
    ensures r.Success? ==> r.value.email == email && r.value.password == password
    ensures r.Success? ==> (r.value.usuario.Some? <==> email != "" && password != "")
    ensures r.Success? && r.value.usuario.Some? ==> r.value.usuario == authenticate(email, password)
  {
    if email != "" && password != "" then
      var usuario := authenticate(email, password);
      if usuario.None? then Failure(NonFieldError(InvalidCredentials))
      else Success(LoginData(email, password, usuario))
    else
      Success(LoginData(email, password, None))
  }

  /** The messages of the login `email` field: blank alone, else the format check. */
  function LoginEmailMessages(v: string, isEmail: string -> bool): seq<string> {
    if v == "" then [BlankMessage] else if !isEmail(v) then [InvalidEmail] else []
  }

  /**
   * The whole login validation: the email field refuses a blank or malformed value
   * and the password field a blank one, both before `validate`; so every login that
   * passes carries the authenticated user.
   */
  function LoginIsValid<U>(email: string, password: string, isEmail: string -> bool,
                           authenticate: (string, string) -> Option<U>): (r: Result<LoginData<U>, seq<ValidationError>>)
    ensures r.Success? <==> email != "" && isEmail(email) && password != "" && authenticate(email, password).Some?
    ensures r.Success? ==> r.value == LoginData(email, password, authenticate(email, password))
    ensures email != "" && isEmail(email) && password != "" && authenticate(email, password).None? ==>
      r == Failure([NonFieldError(InvalidCredentials)])
    ensures email == "" ==> r.Failure? && FieldError("email", BlankMessage) in r.error
    ensures email != "" && !isEmail(email) ==> r.Failure? && FieldError("email", InvalidEmail) in r.error
    ensures password == "" ==> r.Failure? && FieldError("password", BlankMessage) in r.error
  {
    var campos := FieldErrors("email", LoginEmailMessages(email, isEmail)) + FieldErrors("password", PasswordMessages(password));
    if campos != [] then Failure(campos)
    else match ValidateLogin(email, password, authenticate)
      case Success(d) => Success(d)
      case Failure(e) => Failure([e])
  }

  // ---------------------------------------------------------------- password change

  datatype PasswordChange = PasswordChange(contrasenaActual: string, nuevaContrasena: string, confirmarContrasena: string)

  const NewPasswordsDiffer := "Las nuevas contraseñas no coinciden"
  const NewPasswordUnchanged := "La nueva contraseña debe ser diferente a la actual"
  const WrongCurrentPassword := "La contraseña actual es incorrecta"

  /** Field-level check of the current password against the requesting user's password. */
  function ValidateContrasenaActual(value: string, checkPassword: string -> bool): (r: Result<string, ValidationError>)
    ensures r.Success? <==> checkPassword(value)
    ensures r.Success? ==> r.value == value
    ensures r.Failure? ==> r.error == FieldError("contrasena_actual", WrongCurrentPassword)
  {
    if checkPassword(value) then Success(value) else Failure(FieldError("contrasena_actual", WrongCurrentPassword))
  }

  /**
   * Object-level check of a password change: first the new password must match its
   * confirmation (error on `confirmar_contrasena`), only then must it differ from
   * the current one (error on `nueva_contrasena`).
   */
  function ValidatePasswordChange(data: PasswordChange): (r: Result<PasswordChange, ValidationError>)
    ensures r.Success? <==> data.nuevaContrasena == data.confirmarContrasena && data.contrasenaActual != data.nuevaContrasena
    ensures r.Success? ==> r.value == data
    ensures data.nuevaContrasena != data.confirmarContrasena ==> r == Failure(FieldError("confirmar_contrasena", NewPasswordsDiffer))
    ensures data.nuevaContrasena == data.confirmarContrasena && data.contrasenaActual == data.nuevaContrasena ==>
              r == Failure(FieldError("nueva_contrasena", NewPasswordUnchanged))
  {
    if data.nuevaContrasena != data.confirmarContrasena then
      Failure(FieldError("confirmar_contrasena", NewPasswordsDiffer))
    else if data.contrasenaActual == data.nuevaContrasena then
      Failure(FieldError("nueva_contrasena", NewPasswordUnchanged))
    else
      Success(data)
  }

  /**
   * The field errors of a password change, field by field: a blank field reports
   * the blank message alone; otherwise the current password is checked against the
   * user's and the new one goes through the password validators.
   */
  function PasswordChangeFieldErrors(data: PasswordChange, checkPassword: string -> bool,
                                     passwordValidators: string -> seq<string>): (errs: seq<ValidationError>)
    ensures errs == [] <==>
      && data.contrasenaActual != "" && checkPassword(data.contrasenaActual)
      && data.nuevaContrasena != "" && passwordValidators(data.nuevaContrasena) == []
      && data.confirmarContrasena != ""
    ensures data.contrasenaActual == "" ==> errs[0] == FieldError("contrasena_actual", BlankMessage)
    ensures data.contrasenaActual != "" && !checkPassword(data.contrasenaActual) ==>
      errs[0] == FieldError("contrasena_actual", WrongCurrentPassword)
    ensures data.nuevaContrasena == "" ==> FieldError("nueva_contrasena", BlankMessage) in errs
    ensures data.nuevaContrasena != "" ==>
      forall m :: m in passwordValidators(data.nuevaContrasena) ==> FieldError("nueva_contrasena", m) in errs
    ensures data.confirmarContrasena == "" ==> FieldError("confirmar_contrasena", BlankMessage) in errs
    ensures forall e :: e in errs ==>
      e.FieldError? && e.field in {"contrasena_actual", "nueva_contrasena", "confirmar_contrasena"}
  {
    var actual := if data.contrasenaActual == "" then [BlankMessage]
      else match ValidateContrasenaActual(data.contrasenaActual, checkPassword)
        case Success(_) => []
        case Failure(e) => [e.message];
    var nueva := if data.nuevaContrasena == "" then [BlankMessage] else passwordValidators(data.nuevaContrasena);
    var a, b, c := FieldErrors("contrasena_actual", actual), FieldErrors("nueva_contrasena", nueva),
                   FieldErrors("confirmar_contrasena", PasswordMessages(data.confirmarContrasena));
    assert actual != [] ==> (a + b + c)[0] == a[0];
    a + b + c
  }

  /**
   * The whole validation of a password change: all field errors are reported
   * together, and the object-level checks run only when there are none.
   */
  function PasswordChangeIsValid(data: PasswordChange, checkPassword: string -> bool,
                                 passwordValidators: string -> seq<string>): (r: Result<PasswordChange, seq<ValidationError>>)
    ensures r.Success? <==>
      && data.contrasenaActual != "" && checkPassword(data.contrasenaActual)
      && data.nuevaContrasena != "" && passwordValidators(data.nuevaContrasena) == []
      && data.nuevaContrasena == data.confirmarContrasena && data.contrasenaActual != data.nuevaContrasena
    ensures data.contrasenaActual == "" ==>
      r.Failure? && FieldError("contrasena_actual", BlankMessage) in r.error
    ensures data.contrasenaActual != "" && !checkPassword(data.contrasenaActual) ==>
      r.Failure? && FieldError("contrasena_actual", WrongCurrentPassword) in r.error
    ensures r.Failure? ==> r.error != []
  {
    var campos := PasswordChangeFieldErrors(data, checkPassword, passwordValidators);
    if campos != [] then Failure(campos)
    else match ValidatePasswordChange(data)
      case Success(d) => Success(d)
      case Failure(e) => Failure([e])
  }

  /**
   * A wrong current password is reported whatever the new password and the
   * confirmation are, as long as the confirmation is equally blank or filled in:
   * the object-level checks that compare them never run.
   */
  lemma WrongCurrentPasswordHidesObjectChecks(data: PasswordChange, other: PasswordChange,
                                              checkPassword: string -> bool, passwordValidators: string -> seq<string>)
    requires data.contrasenaActual != "" && !checkPassword(data.contrasenaActual)
    requires other.contrasenaActual == data.contrasenaActual && other.nuevaContrasena == data.nuevaContrasena
    requires (other.confirmarContrasena == "") == (data.confirmarContrasena == "")
    ensures PasswordChangeIsValid(data, checkPassword, passwordValidators) == PasswordChangeIsValid(other, checkPassword, passwordValidators)
  {
  }

  // ---------------------------------------------------------------- profile update

  /** The columns of a profile row. */
  const PerfilFields: set<string> := {
    "id", "id_usuario", "nombre", "apellidos", "fecha_nacimiento", "genero", "altura", "peso_actual",
    "peso_objetivo", "nivel_actividad", "objetivo", "bmr", "tdee", "fecha_actualizacion"}

  /** Fields the profile serializer shows but never takes from a request. */
  const ReadOnlyFields: set<string> := {"id", "id_usuario", "bmr", "tdee", "fecha_actualizacion", "nombre_usuario", "email"}

  /** The part of a request payload that a profile update may write: writable columns only; other keys are ignored. */
  function ValidatedProfileData<V>(payload: map<string, V>): (d: map<string, V>)
    ensures d.Keys !! ReadOnlyFields
    ensures d.Keys <= PerfilFields
    ensures forall k :: k in payload && k in PerfilFields && k !in ReadOnlyFields ==> k in d && d[k] == payload[k]
    ensures forall k :: k in d ==> k in payload
  {
    map k | k in payload && k in PerfilFields && k !in ReadOnlyFields :: payload[k]
  }

  /**
   * A (partial) profile update applied to a row and saved: the writable values of
   * the payload replace the row's, the update timestamp becomes the moment of
   * saving, and no other read-only column changes whatever the payload holds.
   */
  function UpdateProfileRow<V>(row: map<string, V>, payload: map<string, V>, now: V): (r: map<string, V>)
    ensures r.Keys == row.Keys + ValidatedProfileData(payload).Keys + {"fecha_actualizacion"}
    ensures r["fecha_actualizacion"] == now
    ensures forall k :: k in ReadOnlyFields && k != "fecha_actualizacion" && k in row ==> k in r && r[k] == row[k]
    ensures forall k :: k in row && k !in payload && k != "fecha_actualizacion" ==> r[k] == row[k]
  {
    (row + ValidatedProfileData(payload))["fecha_actualizacion" := now]
  }
}
