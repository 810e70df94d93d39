/**
 * The login page: a two-field form whose submission checks that both fields are
 * filled in, posts the credentials, and on an ok reply stores the tokens and
 * schedules the navigation to the main page; every outcome is announced by a toast.
 */
module LoginPage {
  import opened Wrappers
  import opened Session

  datatype LoginField = Email | Password

  type Form = map<LoginField, string>

  const InitialForm: Form := map[Email := "", Password := ""]

  /** A field's value; a field never typed into reads as the empty string. */
  function Field(form: Form, f: LoginField): string {
    if f in form then form[f] else ""
  }

  datatype Toast = ErrorToast(text: string) | SuccessToast(text: string)

  /** The body of the one request the page sends. */
  datatype Credentials = Credentials(email: string, password: string)

  const FieldsMissing := "Por favor completa todos los campos"
  const WrongCredentials := "Credenciales incorrectas"
  const Welcome := "¡Bienvenido de vuelta!"
  const ConnectionError := "Error de conexión con el servidor"
  const MainPageRoute := "/paginaPrincipal"

  /** The text shown for a non-ok reply: the server's `error` when truthy, the generic message otherwise. */
  function RejectionMessage(error: Option<string>): (text: string)
    ensures text != ""
    ensures Truthy(error) ==> text == error.value
    ensures !Truthy(error) ==> text == WrongCredentials
  {
    if Truthy(error) then error.value else WrongCredentials
  }

  /**
   * The toast a sent login ends with: success exactly for an ok reply, the
   * rejection text for a non-ok reply, the connection message when the request threw.
   */
  function ReplyToast(reply: LoginReply): (t: Toast)
    ensures t.SuccessToast? <==> reply.LoginOk?
    ensures t.text != ""
    ensures reply.LoginRejected? ==> t == ErrorToast(RejectionMessage(reply.error))
    ensures reply.LoginNetworkError? ==> t == ErrorToast(ConnectionError)
  {
    match reply
    case LoginOk(_, _) => SuccessToast(Welcome)
    case LoginRejected(error) => ErrorToast(RejectionMessage(error))
    case LoginNetworkError => ErrorToast(ConnectionError)
  }

  class LoginForm {
    var form: Form
    var loading: bool
    var storage: Storage
    var toasts: seq<Toast>
    var requests: seq<Credentials>
    var navigation: Option<string>

    /** Between events no request is in flight. */
    ghost predicate Valid()
      reads this
    {
      !loading
    }

    /** The page as mounted: both fields empty, nothing sent, shown or scheduled. */
    constructor (storage: Storage)
      ensures Valid()
      ensures form == InitialForm && this.storage == storage
      ensures toasts == [] && requests == [] && navigation == None
    {
      form, loading, this.storage := InitialForm, false, storage;
      toasts, requests, navigation := [], [], None;
    }

    /** Typing into a field replaces that field only. */
    method HandleChange(name: LoginField, value: string)
      requires Valid()
      modifies this`form
      ensures Valid()
      ensures Field(form, name) == value
      ensures forall f :: f != name ==> Field(form, f) == Field(old(form), f)
    {
      form := form[name := value];
    }

    /**
     * Submit: with a blank field only an error toast is shown.  Otherwise the
     * credentials are sent once; an ok reply stores the tokens, greets the user and
     * schedules the main page; a rejection or an exception only shows its toast;
     * in every case the page ends not loading.
     */
    method HandleSubmit(reply: LoginReply)
      requires Valid()
      modifies this`loading, this`storage, this`toasts, this`requests, this`navigation
      ensures Valid()
      ensures Field(form, Email) == "" || Field(form, Password) == "" ==>
        && toasts == old(toasts) + [ErrorToast(FieldsMissing)]
        && requests == old(requests) && storage == old(storage) && navigation == old(navigation)
      ensures Field(form, Email) != "" && Field(form, Password) != "" ==>
        && requests == old(requests) + [Credentials(Field(form, Email), Field(form, Password))]
        && toasts == old(toasts) + [ReplyToast(reply)]
        && storage == (if reply.LoginOk? then StoreTokens(old(storage), reply.access, reply.refresh) else old(storage))
        && navigation == (if reply.LoginOk? then Some(MainPageRoute) else old(navigation))
    {
      if Field(form, Email) == "" || Field(form, Password) == "" {
        toasts := toasts + [ErrorToast(FieldsMissing)];
        return;
      }
      loading := true;
      requests := requests + [Credentials(Field(form, Email), Field(form, Password))];
      match reply {
        case LoginRejected(error) =>
          toasts := toasts + [ErrorToast(RejectionMessage(error))];
        case LoginNetworkError =>
          toasts := toasts + [ErrorToast(ConnectionError)];
        case LoginOk(access, refresh) =>
          storage := storage[AccessTokenKey := AsStored(access)];
          if Truthy(refresh) {
            storage := storage[RefreshTokenKey := refresh.value];
          }
          toasts := toasts + [SuccessToast(Welcome)];
          navigation := Some(MainPageRoute);
      }
      loading := false;
    }
  }

  /** A first attempt with a blank password is refused locally; the second is rejected by the server. */
  method LoginScenario() returns (requests: seq<Credentials>, toasts: seq<Toast>, navigation: Option<string>)
    ensures requests == [Credentials("ana@x.com", "secreta1")]
    ensures toasts == [ErrorToast(FieldsMissing), ErrorToast(WrongCredentials)]
    ensures navigation == None
  {
    var page := new LoginForm(map[]);
    page.HandleChange(Email, "ana@x.com");
    page.HandleSubmit(LoginOk(Some("acc"), None));
    page.HandleChange(Password, "secreta1");
    page.HandleSubmit(LoginRejected(None));
    requests, toasts, navigation := page.requests, page.toasts, page.navigation;
  }
}
