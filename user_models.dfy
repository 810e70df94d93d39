/**
 * The user and profile models: the choice sets and defaults of a profile, the
 * user manager's guards, and the profile helpers that compute age, BMR and the
 * activity multiplier and store BMR and TDEE when a profile is saved.
 *
 * Unlike the nutrition pipeline, these helpers answer `None` when data is
 * missing instead of substituting defaults, and they know only two BMR constants.
 */
module UserModels {
  import opened Wrappers
  import NU = NutritionUtils

  // ---------------------------------------------------------------- choices and defaults

  const GeneroChoices: set<string> := {"masculino", "femenino"}
  const NivelActividadChoices: set<string> := {"sedentario", "ligero", "moderado", "activo", "muy_activo"}
  const ObjetivoChoices: set<string> := {"perdida_peso", "mantenimiento", "ganancia_muscular"}
  const DefaultNivelActividad := "sedentario"
  const DefaultObjetivo := "mantenimiento"

  // ---------------------------------------------------------------- profile helpers

  /** Age in completed years, or `None` without a birth date (tuple comparison of (month, day)). */
  function CalcularEdad(p: NU.Profile, today: NU.Date): (r: Option<int>)
    ensures r.None? <==> p.fechaNacimiento.None?
    ensures r.Some? ==> r.value == NU.Age(p.fechaNacimiento, today)
  {
    if p.fechaNacimiento.None? then None
    else
      var b := p.fechaNacimiento.value;
      var birthdayAhead := today.month < b.month || (today.month == b.month && today.day < b.day);
      Some(today.year - b.year - (if birthdayAhead then 1 else 0))
  }

  /** The four values BMR needs are all present and truthy. */
  predicate BmrInputsPresent(p: NU.Profile) {
    NU.Present(p.pesoActual) && NU.Present(p.altura) && p.fechaNacimiento.Some? && p.genero != ""
  }

  /** BMR, or `None` when weight, height, birth date or gender is missing or false. */
  function CalcularBmr(p: NU.Profile, today: NU.Date): (r: Option<real>)
    ensures r.Some? <==> BmrInputsPresent(p)
    ensures r.Some? && p.genero == NU.Masculino ==> r.value == NU.Bmr(p, today)
    ensures r.Some? && p.genero != NU.Masculino ==> r.value == NU.Bmr(p.(genero := NU.Masculino), today) - 166.0
  {
    if !BmrInputsPresent(p) then None
    else
      var edad := CalcularEdad(p, today).value;
      var base := 10.0 * p.pesoActual.value + 6.25 * p.altura.value - 5.0 * (edad as real);
      if p.genero == NU.Masculino then Some(base + 5.0) else Some(base - 161.0)
  }

  /** Where both versions answer, they agree for the two listed genders. */
  lemma BmrAgreesForListedGenders(p: NU.Profile, today: NU.Date)
    requires BmrInputsPresent(p)
    requires p.genero in GeneroChoices
    ensures CalcularBmr(p, today) == Some(NU.Bmr(p, today))
  {
  }

  /** For any other gender the pipeline uses -78 and these helpers -161: they differ by 83. */
  lemma BmrDisagreesForOtherGenders(p: NU.Profile, today: NU.Date)
    requires BmrInputsPresent(p)
    requires p.genero !in GeneroChoices
    ensures CalcularBmr(p, today).value == NU.Bmr(p, today) - 83.0
  {
  }

  /** Without a birth date the helpers refuse while the pipeline assumes age 30. */
  lemma MissingBirthDateDisagrees(p: NU.Profile, today: NU.Date)
    requires p.fechaNacimiento.None?
    ensures CalcularEdad(p, today).None? && CalcularBmr(p, today).None?
    ensures NU.Age(p.fechaNacimiento, today) == NU.DefaultAge
  {
  }

  /** The activity multiplier of the profile's level; an unknown level uses 1.2. */
  function FactorActividad(p: NU.Profile): (f: real)
    ensures 1.2 <= f <= 1.9
    ensures f == NU.ActivityFactor(p.nivelActividad)
    ensures p.nivelActividad !in NivelActividadChoices ==> f == 1.2
  {
    var factores := map["sedentario" := 1.2, "ligero" := 1.375, "moderado" := 1.55, "activo" := 1.725, "muy_activo" := 1.9];
    if p.nivelActividad in factores then factores[p.nivelActividad] else 1.2
  }

  /**
   * The (bmr, tdee) columns after a save: unchanged when the computed BMR is
   * missing or zero, otherwise the BMR and the BMR times the activity multiplier.
   */
  function SavedEnergy(p: NU.Profile, today: NU.Date, bmr: Option<real>, tdee: Option<real>): (r: (Option<real>, Option<real>))
    ensures CalcularBmr(p, today).None? || CalcularBmr(p, today).value == 0.0 ==> r == (bmr, tdee)
    ensures CalcularBmr(p, today).Some? && CalcularBmr(p, today).value != 0.0 ==>
      r.0 == CalcularBmr(p, today) && r.1.Some? && r.1.value == r.0.value * FactorActividad(p)
    ensures CalcularBmr(p, today).Some? && CalcularBmr(p, today).value > 0.0 ==>
      1.2 * r.0.value <= r.1.value <= 1.9 * r.0.value
  {
    var calculado := CalcularBmr(p, today);
    if calculado.Some? && calculado.value != 0.0 then
      (calculado, Some(calculado.value * FactorActividad(p)))
    else
      (bmr, tdee)
  }

  /** A profile row.  Only `Save` writes `bmr` and `tdee`. */
  class Perfil {
    const idUsuario: int
    var nombre: string
    var apellidos: string
    var fechaNacimiento: Option<NU.Date>
    var genero: string
    var altura: Option<real>
    var pesoActual: Option<real>
    var pesoObjetivo: Option<real>
    var nivelActividad: string
    var objetivo: string
    var bmr: Option<real>
    var tdee: Option<real>
    var fechaActualizacion: Option<NU.Date>

    /** The fields the calculations read. */
    function Data(): NU.Profile
      reads this
    {
      NU.Profile(pesoActual, altura, fechaNacimiento, genero, nivelActividad, objetivo)
    }

    /** A new, empty profile: blank texts, NULL numbers and dates, the default level and goal. */
    constructor (idUsuario: int)
      ensures this.idUsuario == idUsuario
      ensures nombre == "" && apellidos == "" && genero == ""
      ensures fechaNacimiento.None? && altura.None? && pesoActual.None? && pesoObjetivo.None?
      ensures bmr.None? && tdee.None? && fechaActualizacion.None?
      ensures nivelActividad == DefaultNivelActividad && objetivo == DefaultObjetivo
      ensures nivelActividad in NivelActividadChoices && objetivo in ObjetivoChoices
    {
      this.idUsuario := idUsuario;
      nombre, apellidos, genero := "", "", "";
      fechaNacimiento, altura, pesoActual, pesoObjetivo := None, None, None, None;
      bmr, tdee, fechaActualizacion := None, None, None;
      nivelActividad, objetivo := DefaultNivelActividad, DefaultObjetivo;
    }

    /**
     * The save the helper at module level describes: `bmr` and `tdee` are recomputed
     * when a non-zero BMR can be computed, and the update timestamp is set to the
     * moment of saving; nothing else changes.
     */
    method Save(today: NU.Date)
      modifies this`bmr, this`tdee, this`fechaActualizacion
      ensures (bmr, tdee) == SavedEnergy(Data(), today, old(bmr), old(tdee))
      ensures CalcularBmr(Data(), today).None? ==> bmr == old(bmr) && tdee == old(tdee)
      ensures fechaActualizacion == Some(today)
    {
      var calculado := CalcularBmr(Data(), today);
      if calculado.Some? && calculado.value != 0.0 {
        bmr := calculado;
        tdee := Some(calculado.value * FactorActividad(Data()));
      }
      fechaActualizacion := Some(today);
    }

    /**
     * The save a profile actually gets: the framework's own, since the helper is
     * not a method of the class.  Only the update timestamp changes.
     */
    method SaveAsWritten(today: NU.Date)
      modifies this`fechaActualizacion
      ensures fechaActualizacion == Some(today)
    {
      fechaActualizacion := Some(today);
    }
  }

  /**
   * A complete profile saved as written keeps no BMR although one can be computed;
   * saved with the helper it stores the computed BMR and its TDEE.
   */
  method StaleEnergyExample() returns (asWritten: Option<real>, intended: Option<real>)
    ensures asWritten.None? && intended == Some(1780.0)
  {
    var today := NU.Date(2024, 6, 1);
    var p := new Perfil(1);
    p.fechaNacimiento, p.genero, p.altura, p.pesoActual := Some(NU.Date(1994, 1, 1)), NU.Masculino, Some(180.0), Some(80.0);
    p.SaveAsWritten(today);
    assert CalcularEdad(p.Data(), today) == Some(30);
    assert CalcularBmr(p.Data(), today) == Some(1780.0);
    asWritten := p.bmr;
    p.Save(today);
    assert p.tdee == Some(2136.0);
    intended := p.bmr;
  }

  // ---------------------------------------------------------------- users

  /** A user row.  The password is whatever the opaque hasher made of it. */
  datatype Usuario = Usuario(
    idUsuario: int,
    nombreUsuario: string,
    email: string,
    password: string,
    isActive: bool,
    isStaff: bool,
    isAdmin: bool,
    isSuperuser: bool)

  /** Why the manager refused: an empty email, or a row that breaks a uniqueness constraint. */
  datatype ManagerError = EmptyEmail | IntegrityError(field: string)

  const EmptyEmailMessage := "El usuario debe tener un email"

  /** The user table with the manager's two creation operations. */
  class UsuarioManager {
    var usuarios: seq<Usuario>
    var nextId: int

    /** Ids are positive, distinct and below `nextId`; emails and user names are unique. */
    ghost predicate Valid()
      reads this
    {
      && nextId >= 1
      && (forall i :: 0 <= i < |usuarios| ==> 1 <= usuarios[i].idUsuario < nextId)
      && (forall i, j :: 0 <= i < j < |usuarios| ==>
            usuarios[i].idUsuario != usuarios[j].idUsuario
            && usuarios[i].email != usuarios[j].email
            && usuarios[i].nombreUsuario != usuarios[j].nombreUsuario)
    }

    /** The emails stored in the table. */
    function Emails(): (s: set<string>)
      reads this
      ensures forall i :: 0 <= i < |usuarios| ==> usuarios[i].email in s
      ensures forall e :: e in s ==> exists i :: 0 <= i < |usuarios| && usuarios[i].email == e
    {
      set i | 0 <= i < |usuarios| :: usuarios[i].email
    }

    /** The user names stored in the table. */
    function NombresUsuario(): (s: set<string>)
      reads this
      ensures forall i :: 0 <= i < |usuarios| ==> usuarios[i].nombreUsuario in s
      ensures forall n :: n in s ==> exists i :: 0 <= i < |usuarios| && usuarios[i].nombreUsuario == n
    {
      set i | 0 <= i < |usuarios| :: usuarios[i].nombreUsuario
    }

    constructor ()
      ensures Valid() && usuarios == [] && nextId == 1
    {
      usuarios, nextId := [], 1;
    }

    /**
     * Create an ordinary, active user.  An empty email is refused before anything
     * is stored; a normalised email or a user name already in the table breaks the
     * uniqueness constraint and nothing is stored either.
     */
    method CreateUser(email: string, nombreUsuario: string, password: Option<string>,
                      normalizeEmail: string -> string, setPassword: Option<string> -> string)
      returns (r: Result<Usuario, ManagerError>)
      requires Valid()
      modifies this
      ensures Valid()
      ensures email == "" ==> r == Failure(EmptyEmail)
      ensures r.Failure? ==> usuarios == old(usuarios) && nextId == old(nextId)
      ensures email != "" && normalizeEmail(email) in old(Emails()) ==> r == Failure(IntegrityError("email"))
      ensures email != "" && normalizeEmail(email) !in old(Emails()) && nombreUsuario in old(NombresUsuario()) ==>
                r == Failure(IntegrityError("nombre_usuario"))
      ensures email != "" && normalizeEmail(email) !in old(Emails()) && nombreUsuario !in old(NombresUsuario()) ==>
                && r == Success(Usuario(old(nextId), nombreUsuario, normalizeEmail(email), setPassword(password),
                                       true, false, false, false))
                && usuarios == old(usuarios) + [r.value]
                && nextId == old(nextId) + 1
    {
      if email == "" {
        return Failure(EmptyEmail);
      }
      var normalizado := normalizeEmail(email);
      if normalizado in Emails() {
        return Failure(IntegrityError("email"));
      }
      if nombreUsuario in NombresUsuario() {
        return Failure(IntegrityError("nombre_usuario"));
      }
      var usuario := Usuario(nextId, nombreUsuario, normalizado, setPassword(password), true, false, false, false);
      usuarios := usuarios + [usuario];
      nextId := nextId + 1;
      r := Success(usuario);
    }

    /** Create a user as `CreateUser` does, then raise its admin, staff and superuser flags and save it again. */
    method CreateSuperuser(email: string, nombreUsuario: string, password: Option<string>,
                           normalizeEmail: string -> string, setPassword: Option<string> -> string)
      returns (r: Result<Usuario, ManagerError>)
      requires Valid()
      modifies this
      ensures Valid()
      ensures email == "" ==> r == Failure(EmptyEmail)
      ensures r.Failure? ==> usuarios == old(usuarios) && nextId == old(nextId)
      ensures email != "" && normalizeEmail(email) in old(Emails()) ==> r == Failure(IntegrityError("email"))
      ensures email != "" && normalizeEmail(email) !in old(Emails()) && nombreUsuario in old(NombresUsuario()) ==>
                r == Failure(IntegrityError("nombre_usuario"))
      ensures email != "" && normalizeEmail(email) !in old(Emails()) && nombreUsuario !in old(NombresUsuario()) ==>
                && r == Success(Usuario(old(nextId), nombreUsuario, normalizeEmail(email), setPassword(password),
                                       true, true, true, true))
                && usuarios == old(usuarios) + [r.value]
                && nextId == old(nextId) + 1
    {
      r := CreateUser(email, nombreUsuario, password, normalizeEmail, setPassword);
      if r.Success? {
        var usuario := r.value.(isAdmin := true, isStaff := true, isSuperuser := true);
        usuarios := usuarios[..|usuarios| - 1] + [usuario];
        r := Success(usuario);
      }
    }
  }
}
