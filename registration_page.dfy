/**
 * The three-step registration wizard: step 1 asks for the name, step 2 for the
 * account credentials, step 3 for the physical data, and submitting runs
 * register, then login, then the profile update.
 *
 * The page's state fields are the fields of `RegistroPage`.  The three HTTP
 * replies are parameters of the submit handler; the requests it sends, the
 * browser storage it writes and the navigation it schedules are recorded in
 * fields so that the contracts can speak about them.
 */
module RegistrationPage {
  import opened Wrappers
  import opened Session
  import US = UserSerializers

  /** The names of the form's inputs. */
  datatype FormField =
    | Nombre | Apellidos | Email | Password | PasswordConfirm
    | FechaNacimiento | Genero | Altura | PesoActual | NivelActividad | Objetivo

  /** The form data: input name to entered text. */
  type Form = map<FormField, string>

  /** Keys of the error map: an input's name, or "general" for the message shown above the form. */
  datatype ErrorKey = On(field: FormField) | General

  /** Error messages by key. */
  type Errors = map<ErrorKey, string>

  const InitialForm: Form := map[
    Nombre := "", Apellidos := "", Email := "", Password := "", PasswordConfirm := "",
    FechaNacimiento := "", Genero := "", Altura := "", PesoActual := "",
    NivelActividad := "sedentario", Objetivo := "mantenimiento"]

  /** A form field as text; a field the form does not hold reads as undefined, which is false like "". */
  function Field(form: Form, name: FormField): string {
    if name in form then form[name] else ""
  }

  /** JavaScript falsiness of a form field. */
  predicate Blank(form: Form, name: FormField) {
    Field(form, name) == ""
  }

  /** JavaScript truthiness of an entry of the error map. */
  predicate HasError(errors: Errors, key: ErrorKey) {
    key in errors && errors[key] != ""
  }

  const MinPasswordLength := 8

  const NamesMissing := "Por favor, completa tu nombre y apellidos."
  const AccountFieldsMissing := "Todos los campos de cuenta son obligatorios."
  const PasswordMismatch := "Las contraseñas no coinciden."
  const PasswordTooShort := "La contraseña debe tener al menos 8 caracteres."
  const PhysicalDataMissing := "Por favor, completa todos los datos físicos."
  const AutoLoginFailed := "Cuenta creada pero no se pudo iniciar sesión automáticamente."
  const ConnectionError := "Error de conexión con el servidor. Verifica que el backend esté ejecutándose en http://localhost:8000"
  const DashboardRoute := "/dashboard"

  // ---------------------------------------------------------------- step validation

  /** One error-map entry. */
  datatype ErrorEntry = ErrorEntry(key: ErrorKey, message: string)

  /**
   * The first failing check of the current step, if any.  Step 1 needs both names;
   * step 2 needs all account fields, then equal passwords, then a long enough
   * password; step 3 is not checked here.
   */
  function StepError(step: int, form: Form): (e: Option<ErrorEntry>)
    ensures e.Some? ==> e.value.key == General || e.value.key == On(Password)
    ensures step != 1 && step != 2 ==> e.None?
  {
    if step == 1 then
      if Blank(form, Nombre) || Blank(form, Apellidos) then Some(ErrorEntry(General, NamesMissing)) else None
    else if step == 2 then
      if Blank(form, Email) || Blank(form, Password) || Blank(form, PasswordConfirm) then
        Some(ErrorEntry(General, AccountFieldsMissing))
      else if Field(form, Password) != Field(form, PasswordConfirm) then
        Some(ErrorEntry(On(Password), PasswordMismatch))
      else if |Field(form, Password)| < MinPasswordLength then
        Some(ErrorEntry(On(Password), PasswordTooShort))
      else
        None
    else
      None
  }

  /** Step 1 passes exactly when both names are filled in, and otherwise reports one general error. */
  lemma StepOneGate(form: Form)
    ensures StepError(1, form).None? <==> !Blank(form, Nombre) && !Blank(form, Apellidos)
    ensures StepError(1, form).Some? ==> StepError(1, form) == Some(ErrorEntry(General, NamesMissing))
  {
  }

  /** Step 2 passes exactly when all account fields are filled, the passwords match and have at least 8 characters. */
  lemma StepTwoGate(form: Form)
    ensures StepError(2, form).None? <==>
      && !Blank(form, Email) && !Blank(form, Password) && !Blank(form, PasswordConfirm)
      && Field(form, Password) == Field(form, PasswordConfirm)
      && |Field(form, Password)| >= MinPasswordLength
    ensures Blank(form, Email) || Blank(form, Password) || Blank(form, PasswordConfirm) ==>
      StepError(2, form) == Some(ErrorEntry(General, AccountFieldsMissing))
    ensures (!Blank(form, Email) && !Blank(form, Password) && !Blank(form, PasswordConfirm)
             && Field(form, Password) == Field(form, PasswordConfirm) && |Field(form, Password)| < MinPasswordLength) ==>
      StepError(2, form) == Some(ErrorEntry(On(Password), PasswordTooShort))
  {
  }

  /** A short password is rejected at step 2 whether or not the confirmation matches. */
  lemma ShortPasswordRejected(form: Form)
    requires |Field(form, Password)| < MinPasswordLength
    ensures StepError(2, form).Some?
  {
  }

  /** With all account fields filled, a mismatch is reported before the length, even for a short password. */
  lemma MismatchReportedFirst(form: Form)
    requires !Blank(form, Email) && !Blank(form, Password) && !Blank(form, PasswordConfirm)
    requires Field(form, Password) != Field(form, PasswordConfirm)
    ensures StepError(2, form) == Some(ErrorEntry(On(Password), PasswordMismatch))
  {
  }

  /** The submit gate: any of the four physical fields is empty. */
  predicate PhysicalDataIncomplete(form: Form) {
    Blank(form, FechaNacimiento) || Blank(form, Genero) || Blank(form, Altura) || Blank(form, PesoActual)
  }

  // ---------------------------------------------------------------- server replies

  /** A field's value in an error reply: one message or an array of messages. */
  datatype ServerMessage = Text(text: string) | Texts(items: seq<string>)

  /** JavaScript truthiness of a reply value: an array is always true, a string when it is not empty. */
  predicate ServerTruthy(m: ServerMessage) {
    m.Texts? || m.text != ""
  }

  /** The message shown for a reply value: the string itself or the array's first element (undefined, read as "", for an empty array). */
  function FirstMessage(m: ServerMessage): string {
    match m
    case Text(t) => t
    case Texts(items) => if |items| > 0 then items[0] else ""
  }

  datatype RegisterReply = RegisterOk | RegisterRejected(body: map<string, ServerMessage>) | RegisterNetworkError

  datatype ProfileReply = ProfileOk | ProfileRejected | ProfileNetworkError

  /**
   * The error map made from a failed registration reply: `email`, `password` and
   * `non_field_errors` (shown as `general`) are taken when truthy; every other key is dropped.
   */
  function RegistrationErrors(body: map<string, ServerMessage>): (errors: Errors)
    ensures errors.Keys <= {On(Email), On(Password), General}
    ensures On(Email) in errors <==> "email" in body && ServerTruthy(body["email"])
    ensures On(Password) in errors <==> "password" in body && ServerTruthy(body["password"])
    ensures General in errors <==> "non_field_errors" in body && ServerTruthy(body["non_field_errors"])
    ensures On(Email) in errors ==> errors[On(Email)] == FirstMessage(body["email"])
    ensures On(Password) in errors ==> errors[On(Password)] == FirstMessage(body["password"])
    ensures General in errors ==> errors[General] == FirstMessage(body["non_field_errors"])
  {
    var conEmail: Errors := if "email" in body && ServerTruthy(body["email"]) then map[On(Email) := FirstMessage(body["email"])] else map[];
    var conPassword := if "password" in body && ServerTruthy(body["password"]) then conEmail[On(Password) := FirstMessage(body["password"])] else conEmail;
    if "non_field_errors" in body && ServerTruthy(body["non_field_errors"]) then
      conPassword[General := FirstMessage(body["non_field_errors"])]
    else
      conPassword
  }

  /** Keys of the reply other than the three read are ignored. */
  lemma RegistrationErrorsIgnoreOtherKeys(body: map<string, ServerMessage>, key: string, value: ServerMessage)
    requires key != "email" && key != "password" && key != "non_field_errors"
    ensures RegistrationErrors(body[key := value]) == RegistrationErrors(body)
  {
    var a, b := RegistrationErrors(body[key := value]), RegistrationErrors(body);
    assert forall k :: k in a <==> k in b;
  }

  /** A failed registration sends the wizard back to step 2 exactly when email or password has an error. */
  predicate ReturnsToCredentials(errors: Errors) {
    HasError(errors, On(Email)) || HasError(errors, On(Password))
  }

  /** The reply `{email: ["already exists"]}` becomes an email error and sends the wizard to step 2. */
  lemma EmailTakenReply()
    ensures RegistrationErrors(map["email" := Texts(["already exists"])]) == map[On(Email) := "already exists"]
    ensures ReturnsToCredentials(RegistrationErrors(map["email" := Texts(["already exists"])]))
  {
    var e := RegistrationErrors(map["email" := Texts(["already exists"])]);
    assert e.Keys == {On(Email)};
  }

  /** The error map of a failed registration, built entry by entry as the page does. */
  method CollectRegistrationErrors(body: map<string, ServerMessage>) returns (newErrors: Errors)
    ensures newErrors == RegistrationErrors(body)
  {
    newErrors := map[];
    if "email" in body && ServerTruthy(body["email"]) {
      newErrors := newErrors[On(Email) := FirstMessage(body["email"])];
    }
    if "password" in body && ServerTruthy(body["password"]) {
      newErrors := newErrors[On(Password) := FirstMessage(body["password"])];
    }
    if "non_field_errors" in body && ServerTruthy(body["non_field_errors"]) {
      newErrors := newErrors[General := FirstMessage(body["non_field_errors"])];
    }
  }

  // ---------------------------------------------------------------- requests

  datatype Request =
    | RegisterRequest(nombreUsuario: string, email: string, password: string, passwordConfirm: string)
    | LoginRequest(email: string, password: string)
    | ProfileUpdateRequest(bearer: string, nombre: string, apellidos: string, fechaNacimiento: string, genero: string,
                           altura: string, pesoActual: string, pesoObjetivo: string, nivelActividad: string, objetivo: string)

  /** The registration request: the email doubles as the user name. */
  function RegisterRequestOf(form: Form): Request {
    RegisterRequest(Field(form, Email), Field(form, Email), Field(form, Password), Field(form, PasswordConfirm))
  }

  /** The login request, with the credentials just registered. */
  function LoginRequestOf(form: Form): Request {
    LoginRequest(Field(form, Email), Field(form, Password))
  }

  /** The profile update: the form's personal and physical data, with the target weight set to the current weight. */
  function ProfileRequestOf(form: Form, bearer: string): Request {
    ProfileUpdateRequest(bearer, Field(form, Nombre), Field(form, Apellidos),
                         Field(form, FechaNacimiento), Field(form, Genero), Field(form, Altura),
                         Field(form, PesoActual), Field(form, PesoActual),
                         Field(form, NivelActividad), Field(form, Objetivo))
  }

  /** What the login phase sends: the login, then the profile update only when the login succeeded. */
  function LoginRequests(form: Form, login: LoginReply): seq<Request> {
    [LoginRequestOf(form)] + (if login.LoginOk? then [ProfileRequestOf(form, AsStored(login.access))] else [])
  }

  /**
   * The requests a submission sends once the physical data is complete: always the
   * registration (with the email as user name), the login only after it succeeded,
   * and the profile update, authorised with the stored access token, only after the login succeeded.
   */
  function RequestsSent(form: Form, registro: RegisterReply, login: LoginReply): (rs: seq<Request>)
    ensures 1 <= |rs| <= 3
    ensures rs[0] == RegisterRequest(Field(form, Email), Field(form, Email), Field(form, Password), Field(form, PasswordConfirm))
    ensures |rs| >= 2 <==> registro.RegisterOk?
    ensures |rs| >= 2 ==> rs[1] == LoginRequest(Field(form, Email), Field(form, Password))
    ensures |rs| == 3 <==> registro.RegisterOk? && login.LoginOk?
    ensures |rs| == 3 ==>
      && rs[2].ProfileUpdateRequest? && rs[2].bearer == AsStored(login.access)
      && rs[2].altura == Field(form, Altura) && rs[2].pesoActual == Field(form, PesoActual)
      && rs[2].pesoObjetivo == Field(form, PesoActual)
  {
    [RegisterRequestOf(form)] + (if registro.RegisterOk? then LoginRequests(form, login) else [])
  }

  /** Registration and login succeeded and the profile request did not throw: the flow reaches success. */
  predicate ReachesSuccess(registro: RegisterReply, login: LoginReply, perfil: ProfileReply) {
    registro.RegisterOk? && login.LoginOk? && !perfil.ProfileNetworkError?
  }

  /**
   * The error map a submission with complete physical data ends with: the
   * connection message when a request throws, the server's field errors when
   * registration is rejected, the auto-login message when login is rejected, and
   * no error at all when the flow reaches success.
   */
  function SubmitErrors(registro: RegisterReply, login: LoginReply, perfil: ProfileReply): (errors: Errors)
    ensures errors.Keys <= {On(Email), On(Password), General}
    ensures ReachesSuccess(registro, login, perfil) ==> errors == map[]
    ensures !registro.RegisterRejected? && !ReachesSuccess(registro, login, perfil) ==>
      errors == map[General := if registro.RegisterOk? && login.LoginRejected? then AutoLoginFailed else ConnectionError]
    ensures registro.RegisterRejected? ==> errors == RegistrationErrors(registro.body)
    ensures errors == map[] <==>
      ReachesSuccess(registro, login, perfil) || (registro.RegisterRejected? && RegistrationErrors(registro.body) == map[])
  {
    assert General in map[General := ConnectionError] && General in map[General := AutoLoginFailed];
    match registro
    case RegisterNetworkError => map[General := ConnectionError]
    case RegisterRejected(body) => RegistrationErrors(body)
    case RegisterOk =>
      match login
      case LoginNetworkError => map[General := ConnectionError]
      case LoginRejected(_) => map[General := AutoLoginFailed]
      case LoginOk(_, _) => if perfil.ProfileNetworkError? then map[General := ConnectionError] else map[]
  }

  /**
   * An email of 51 to 100 characters is a valid email, but sent again as the user
   * name it is too long for that column: the server refuses the registration on
   * `nombre_usuario` alone, a key the page does not read, so the submission ends
   * without success, without any message and without leaving step 3.
   */
  lemma LongEmailRejectedSilently(form: Form, existingNames: set<string>, existingEmails: set<string>,
                                  isEmail: string -> bool, login: LoginReply, perfil: ProfileReply)
    requires US.NombreUsuarioMaxLength < |Field(form, Email)| <= US.EmailMaxLength
    requires isEmail(Field(form, Email)) && Field(form, Email) !in existingEmails && Field(form, Email) !in existingNames
    requires !Blank(form, Password) && Field(form, Password) == Field(form, PasswordConfirm)
    ensures var rq := RegisterRequestOf(form);
      US.RegistrationIsValid(US.RegistrationData(rq.nombreUsuario, rq.email, rq.password, rq.passwordConfirm),
                             existingNames, existingEmails, isEmail)
      == Failure([US.FieldError("nombre_usuario", US.NombreUsuarioTooLong)])
    ensures var registro := RegisterRejected(map["nombre_usuario" := Texts([US.NombreUsuarioTooLong])]);
      && SubmitErrors(registro, login, perfil) == map[]
      && !ReturnsToCredentials(SubmitErrors(registro, login, perfil))
      && !ReachesSuccess(registro, login, perfil)
  {
    var email := Field(form, Email);
    var data := US.RegistrationData(email, email, Field(form, Password), Field(form, PasswordConfirm));
    var n := [US.Check(email in existingNames, US.NombreUsuarioTaken),
              US.Check(|email| > US.NombreUsuarioMaxLength, US.NombreUsuarioTooLong)];
    assert US.FailingMessages(n[1..][1..]) == [];
    assert US.FailingMessages(n) == [US.NombreUsuarioTooLong];
    var e := [US.Check(email in existingEmails, US.EmailTaken), US.Check(|email| > US.EmailMaxLength, US.EmailTooLong),
              US.Check(!isEmail(email), US.InvalidEmail)];
    assert US.FailingMessages(e) == [];
    assert US.EmailMessages(email, existingEmails, isEmail) == [];
    assert US.RegistrationFieldErrors(data, existingNames, existingEmails, isEmail)
        == [US.FieldError("nombre_usuario", US.NombreUsuarioTooLong)];
    var body := map["nombre_usuario" := Texts([US.NombreUsuarioTooLong])];
    assert RegistrationErrors(body).Keys == {};
  }

  // ---------------------------------------------------------------- the page

  class RegistroPage {
    var form: Form
    var errors: Errors
    var currentStep: int
    var loading: bool
    var showSuccess: bool
    var storage: Storage
    var requests: seq<Request>
    var navigation: Option<string>

    /** Between events: the step is 1, 2 or 3 and no request is in flight. */
    ghost predicate Valid()
      reads this
    {
      1 <= currentStep <= 3 && !loading
    }

    /** The page as mounted: empty form with the default level and goal, step 1, no errors. */
    constructor (storage: Storage)
      ensures Valid()
      ensures form == InitialForm && errors == map[] && currentStep == 1 && !showSuccess
      ensures this.storage == storage && requests == [] && navigation == None
    {
      form, errors, currentStep, loading, showSuccess := InitialForm, map[], 1, false, false;
      this.storage, requests, navigation := storage, [], None;
    }

    /** Typing into a field: only that field changes, and only its own error is blanked, if it was shown. */
    method HandleChange(name: FormField, value: string)
      requires Valid()
      modifies this`form, this`errors
      ensures Valid()
      ensures form == old(form)[name := value]
      ensures errors == if HasError(old(errors), On(name)) then old(errors)[On(name) := ""] else old(errors)
      ensures forall k :: k in old(errors) && k != On(name) ==> k in errors && errors[k] == old(errors)[k]
    {
      form := form[name := value];
      if HasError(errors, On(name)) {
        errors := errors[On(name) := ""];
      }
    }

    /** Forward: on a failing check the step stays and the errors are exactly that check's; otherwise errors clear and the step advances, at most to 3. */
    method NextStep()
      requires Valid()
      modifies this`errors, this`currentStep
      ensures Valid()
      ensures StepError(old(currentStep), form).Some? ==>
        && errors == map[StepError(old(currentStep), form).value.key := StepError(old(currentStep), form).value.message]
        && currentStep == old(currentStep)
      ensures StepError(old(currentStep), form).None? ==>
        errors == map[] && currentStep == (if old(currentStep) + 1 < 3 then old(currentStep) + 1 else 3)
    {
      var e := StepError(currentStep, form);
      if e.Some? {
        errors := map[e.value.key := e.value.message];
        return;
      }
      errors := map[];
      currentStep := if currentStep + 1 < 3 then currentStep + 1 else 3;
    }

    /** Back: errors clear and the step goes back, at least to 1. */
    method PrevStep()
      requires Valid()
      modifies this`errors, this`currentStep
      ensures Valid()
      ensures errors == map[]
      ensures currentStep == (if old(currentStep) - 1 > 1 then old(currentStep) - 1 else 1)
    {
      errors := map[];
      currentStep := if currentStep - 1 > 1 then currentStep - 1 else 1;
    }

    /**
     * Submit: with incomplete physical data only a general error is set.  Otherwise
     * register, then log in, then update the profile, stopping at the first failure;
     * tokens are stored only after a successful login; a failed profile update still
     * reaches success; a request that throws sets the connection error; and the page
     * is never left loading.
     */
    method HandleSubmit(registro: RegisterReply, login: LoginReply, perfil: ProfileReply)
      requires Valid()
      modifies this`errors, this`currentStep, this`loading, this`showSuccess, this`storage, this`requests, this`navigation
      ensures Valid()
      ensures PhysicalDataIncomplete(form) ==>
        && errors == map[General := PhysicalDataMissing]
        && requests == old(requests) && storage == old(storage)
        && currentStep == old(currentStep) && showSuccess == old(showSuccess) && navigation == old(navigation)
      ensures !PhysicalDataIncomplete(form) ==>
        && requests == old(requests) + RequestsSent(form, registro, login)
        && errors == SubmitErrors(registro, login, perfil)
        && currentStep == (if registro.RegisterRejected? && ReturnsToCredentials(errors) then 2 else old(currentStep))
        && storage == (if registro.RegisterOk? && login.LoginOk? then StoreTokens(old(storage), login.access, login.refresh)
                       else old(storage))
        && showSuccess == (old(showSuccess) || ReachesSuccess(registro, login, perfil))
        && navigation == (if ReachesSuccess(registro, login, perfil) then Some(DashboardRoute) else old(navigation))
    {
      if PhysicalDataIncomplete(form) {
        errors := map[General := PhysicalDataMissing];
        return;
      }
      Submit(registro, login, perfil);
    }

    /** The submission proper, once the physical data is complete: register, then log in and update the profile. */
    method Submit(registro: RegisterReply, login: LoginReply, perfil: ProfileReply)
      requires Valid()
      modifies this`errors, this`currentStep, this`loading, this`showSuccess, this`storage, this`requests, this`navigation
      ensures Valid()
      ensures requests == old(requests) + RequestsSent(form, registro, login)
      ensures errors == SubmitErrors(registro, login, perfil)
      ensures currentStep == (if registro.RegisterRejected? && ReturnsToCredentials(errors) then 2 else old(currentStep))
      ensures storage == (if registro.RegisterOk? && login.LoginOk? then StoreTokens(old(storage), login.access, login.refresh)
                          else old(storage))
      ensures showSuccess == (old(showSuccess) || ReachesSuccess(registro, login, perfil))
      ensures navigation == (if ReachesSuccess(registro, login, perfil) then Some(DashboardRoute) else old(navigation))
    {
      loading := true;
      errors := map[];
      var registered := Register(registro);
      if registered {
        LogIn(login, perfil);
      }
    }

    /**
     * Phase 1: send the registration with the email as user name; report whether the
     * account was created, and otherwise leave the page with the connection error or
     * the server's field errors.
     */
    method Register(registro: RegisterReply) returns (registered: bool)
      requires 1 <= currentStep <= 3 && errors == map[]
      modifies this`requests, this`errors, this`currentStep, this`loading
      ensures registered <==> registro.RegisterOk?
      ensures requests == old(requests) + [RegisterRequestOf(form)]
      ensures registered ==> errors == map[] && currentStep == old(currentStep) && loading == old(loading)
      ensures !registered ==> errors == SubmitErrors(registro, LoginNetworkError, ProfileOk) && !loading
      ensures currentStep == (if registro.RegisterRejected? && ReturnsToCredentials(errors) then 2 else old(currentStep))
    {
      requests := requests + [RegisterRequestOf(form)];
      match registro {
        case RegisterNetworkError =>
          Fail(ConnectionError);
          return false;
        case RegisterRejected(body) =>
          ShowRegistrationErrors(body);
          return false;
        case RegisterOk =>
          return true;
      }
    }

    /** Phase 2: log in; on success store the tokens and go on to the profile update. */
    method LogIn(login: LoginReply, perfil: ProfileReply)
      requires errors == map[]
      modifies this`requests, this`errors, this`showSuccess, this`navigation, this`loading, this`storage
      ensures requests == old(requests) + LoginRequests(form, login)
      ensures errors == SubmitErrors(RegisterOk, login, perfil)
      ensures storage == if login.LoginOk? then StoreTokens(old(storage), login.access, login.refresh) else old(storage)
      ensures showSuccess == (old(showSuccess) || ReachesSuccess(RegisterOk, login, perfil))
      ensures navigation == if ReachesSuccess(RegisterOk, login, perfil) then Some(DashboardRoute) else old(navigation)
      ensures !loading
    {
      requests := requests + [LoginRequestOf(form)];
      match login {
        case LoginNetworkError =>
          Fail(ConnectionError);
        case LoginRejected(_) =>
          Fail(AutoLoginFailed);
        case LoginOk(access, refresh) =>
          storage := storage[AccessTokenKey := AsStored(access)];
          if Truthy(refresh) {
            storage := storage[RefreshTokenKey := refresh.value];
          }
          UpdateProfile(AsStored(access), perfil);
      }
    }

    /** Leave a rejected registration: the server's field errors, back to step 2 for an email or password error. */
    method ShowRegistrationErrors(body: map<string, ServerMessage>)
      requires 1 <= currentStep <= 3
      modifies this`errors, this`currentStep, this`loading
      ensures errors == RegistrationErrors(body) && !loading
      ensures currentStep == (if ReturnsToCredentials(errors) then 2 else old(currentStep))
    {
      var newErrors := CollectRegistrationErrors(body);
      errors := newErrors;
      if HasError(newErrors, On(Email)) || HasError(newErrors, On(Password)) {
        currentStep := 2;
      }
      loading := false;
    }

    /** Leave a failed submission: one general error and loading cleared. */
    method Fail(message: string)
      modifies this`errors, this`loading
      ensures errors == map[General := message] && !loading
    {
      errors := map[General := message];
      loading := false;
    }

    /**
     * Phases 3 and 4: send the profile update with the access token; unless the
     * request throws, show success and schedule the navigation; clear loading.
     */
    method UpdateProfile(token: string, perfil: ProfileReply)
      requires errors == map[]
      modifies this`requests, this`errors, this`showSuccess, this`navigation, this`loading
      ensures requests == old(requests) + [ProfileRequestOf(form, token)]
      ensures errors == (if perfil.ProfileNetworkError? then map[General := ConnectionError] else map[])
      ensures showSuccess == (old(showSuccess) || !perfil.ProfileNetworkError?)
      ensures navigation == (if perfil.ProfileNetworkError? then old(navigation) else Some(DashboardRoute))
      ensures !loading
    {
      requests := requests + [ProfileRequestOf(form, token)];
      if perfil.ProfileNetworkError? {
        Fail(ConnectionError);
        return;
      }
      // A rejected update is only logged: the account exists and is signed in.
      showSuccess := true;
      navigation := Some(DashboardRoute);
      loading := false;
    }
  }

  /** Step 1 with the surname missing stays put with the names error; with both names it reaches step 2. */
  method StepOneScenario() returns (blockedStep: int, blockedErrors: Errors, nextStep: int, nextErrors: Errors)
    ensures blockedStep == 1 && blockedErrors == map[General := NamesMissing]
    ensures nextStep == 2 && nextErrors == map[]
  {
    var page := new RegistroPage(map[]);
    page.HandleChange(Nombre, "Ana");
    page.NextStep();
    blockedStep, blockedErrors := page.currentStep, page.errors;
    page.HandleChange(Apellidos, "Ruiz");
    page.NextStep();
    nextStep, nextErrors := page.currentStep, page.errors;
  }

  /** Step 2 rejects a seven-character password; retyping it blanks the password error. */
  method StepTwoScenario() returns (step: int, rejected: Errors, retyped: Errors)
    ensures step == 2 && rejected == map[On(Password) := PasswordTooShort]
    ensures retyped == map[On(Password) := ""]
  {
    var page := new RegistroPage(map[]);
    page.currentStep := 2;
    page.HandleChange(Email, "ana@x.com");
    page.HandleChange(Password, "1234567");
    page.HandleChange(PasswordConfirm, "1234567");
    page.NextStep();
    step, rejected := page.currentStep, page.errors;
    page.HandleChange(Password, "12345678");
    retyped := page.errors;
  }

  /** Submitting complete data to a server that accepts all three requests stores both tokens and reaches the dashboard. */
  method SubmitScenario() returns (storage: Storage, success: bool, navigation: Option<string>, errors: Errors)
    ensures AccessTokenKey in storage && storage[AccessTokenKey] == "acc"
    ensures RefreshTokenKey in storage && storage[RefreshTokenKey] == "ref"
    ensures success && navigation == Some(DashboardRoute) && errors == map[]
  {
    var page := new RegistroPage(map[]);
    page.form := InitialForm[FechaNacimiento := "1995-01-01"][Genero := "femenino"][Altura := "165"][PesoActual := "60"];
    page.HandleSubmit(RegisterOk, LoginOk(Some("acc"), Some("ref")), ProfileOk);
    storage, success, navigation, errors := page.storage, page.showSuccess, page.navigation, page.errors;
  }
}
