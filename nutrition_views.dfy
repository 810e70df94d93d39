/**
 * The two nutrition endpoints: `calcular_macros` runs the macro pipeline on the
 * caller's profile and keeps every successful result as a new active record;
 * `obtener_macros_actuales` answers with the first active record of the profile.
 */
module NutritionViews {
  import opened Wrappers
  import NU = NutritionUtils

  /** A stored profile row: its own key and the measures the pipeline reads. */
  datatype PerfilRow = PerfilRow(idPerfil: int, profile: NU.Profile)

  /** A row of the macronutrient table; the date is the day it was created. */
  datatype MacrosRecord = MacrosRecord(
    idPerfil: int,
    caloriasDiarias: real,
    proteinas: real,
    carbohidratos: real,
    grasas: real,
    fechaCalculo: NU.Date,
    activo: bool)

  const ProfileIncomplete := "Primero debe completar su perfil con peso, altura y objetivos"
  const ProfileNotFound := "Perfil no encontrado"
  const NoMacrosYet := "No hay macros calculados. Use el endpoint de cálculo."

  /** Replies of the calculation endpoint: the pipeline's report as is, or the missing-profile error. */
  datatype CalcularReply =
    | Calculated(report: NU.MacroReport)
    | CalcularProfileMissing(error: string)

  /** Replies of the read endpoint: the current record's values, the hint to calculate first, or not found. */
  datatype ActualesReply =
    | Current(caloriasDiarias: real, proteinas: real, carbohidratos: real, grasas: real, fechaCalculo: NU.Date)
    | NoMacros(message: string)
    | ActualesProfileMissing(error: string)

  function CalcularStatus(r: CalcularReply): int {
    if r.Calculated? then 200 else 400
  }

  function ActualesStatus(r: ActualesReply): int {
    if r.ActualesProfileMissing? then 404 else 200
  }

  /** The record `calcular_macros` creates from a successful report: active, dated today. */
  function RecordOf(idPerfil: int, r: NU.MacroReport, today: NU.Date): MacrosRecord {
    MacrosRecord(idPerfil, r.caloriasDiarias, r.proteinas, r.carbohidratos, r.grasas, today, true)
  }

  /** The rows a calculation adds: one active record for a report without error, none otherwise. */
  function NewRecords(row: PerfilRow, today: NU.Date): (added: seq<MacrosRecord>)
    ensures |added| <= 1
    ensures |added| == 1 <==> NU.Present(row.profile.pesoActual) && NU.Present(row.profile.altura)
    ensures |added| == 1 ==> added[0].idPerfil == row.idPerfil && added[0].activo && added[0].fechaCalculo == today
    ensures |added| == 1 ==>
      var report := NU.MacrosForProfile(row.profile, today);
      && added[0].caloriasDiarias == report.caloriasDiarias && added[0].proteinas == report.proteinas
      && added[0].carbohidratos == report.carbohidratos && added[0].grasas == report.grasas
  {
    var report := NU.MacrosForProfile(row.profile, today);
    if report.error.None? then [RecordOf(row.idPerfil, report, today)] else []
  }

  predicate IsActiveOf(m: MacrosRecord, idPerfil: int) {
    m.idPerfil == idPerfil && m.activo
  }

  /** The index of the first active record of a profile at or after `from`, in table order. */
  function FirstActiveFrom(macros: seq<MacrosRecord>, idPerfil: int, from: nat): (i: Option<nat>)
    requires from <= |macros|
    ensures i.Some? ==>
      && from <= i.value < |macros| && IsActiveOf(macros[i.value], idPerfil)
      && forall j :: from <= j < i.value ==> !IsActiveOf(macros[j], idPerfil)
    ensures i.None? ==> forall j :: from <= j < |macros| ==> !IsActiveOf(macros[j], idPerfil)
    decreases |macros| - from
  {
    if from == |macros| then None
    else if IsActiveOf(macros[from], idPerfil) then Some(from)
    else FirstActiveFrom(macros, idPerfil, from + 1)
  }

  /** The first active record of a profile, the one `.first()` returns on the unordered table. */
  function FirstActive(macros: seq<MacrosRecord>, idPerfil: int): Option<nat> {
    FirstActiveFrom(macros, idPerfil, 0)
  }

  /**
   * The read endpoint: not found without a profile; otherwise the values of the
   * first active record of that profile, or the hint when it has none.
   */
  function ObtenerMacrosActuales(perfiles: map<int, PerfilRow>, macros: seq<MacrosRecord>, user: int): (r: ActualesReply)
    ensures ActualesStatus(r) == 404 <==> user !in perfiles
    ensures r.NoMacros? <==>
      user in perfiles && forall j :: 0 <= j < |macros| ==> !IsActiveOf(macros[j], perfiles[user].idPerfil)
    ensures r.Current? ==>
      exists j :: && 0 <= j < |macros| && IsActiveOf(macros[j], perfiles[user].idPerfil) && r == CurrentOf(macros[j])
                  && forall k :: 0 <= k < j ==> !IsActiveOf(macros[k], perfiles[user].idPerfil)
  {
    if user !in perfiles then ActualesProfileMissing(ProfileNotFound)
    else
      match FirstActive(macros, perfiles[user].idPerfil)
      case None => NoMacros(NoMacrosYet)
      case Some(i) => CurrentOf(macros[i])
  }

  function CurrentOf(m: MacrosRecord): ActualesReply {
    Current(m.caloriasDiarias, m.proteinas, m.carbohidratos, m.grasas, m.fechaCalculo)
  }

  /** Appending rows after an active record of a profile does not move that profile's first active record. */
  lemma {:induction false} FirstActiveIgnoresAppended(macros: seq<MacrosRecord>, extra: seq<MacrosRecord>, idPerfil: int, from: nat)
    requires from <= |macros|
    requires FirstActiveFrom(macros, idPerfil, from).Some?
    ensures FirstActiveFrom(macros + extra, idPerfil, from) == FirstActiveFrom(macros, idPerfil, from)
    decreases |macros| - from
  {
    if !IsActiveOf(macros[from], idPerfil) {
      FirstActiveIgnoresAppended(macros, extra, idPerfil, from + 1);
    }
  }

  /** Appending rows to a table without an active record of a profile: the search continues in the new rows. */
  lemma {:induction false} FirstActiveSkipsInactivePrefix(macros: seq<MacrosRecord>, extra: seq<MacrosRecord>, idPerfil: int, from: nat)
    requires from <= |macros|
    requires FirstActiveFrom(macros, idPerfil, from).None?
    ensures FirstActiveFrom(macros + extra, idPerfil, from) == FirstActiveFrom(macros + extra, idPerfil, |macros|)
    decreases |macros| - from
  {
    if from < |macros| {
      assert (macros + extra)[from] == macros[from];
      FirstActiveSkipsInactivePrefix(macros, extra, idPerfil, from + 1);
    }
  }

  /**
   * A successful calculation for a profile that had no current macros makes the
   * new record the one the read endpoint returns.
   */
  lemma ReadAfterFirstCalculation(perfiles: map<int, PerfilRow>, macros: seq<MacrosRecord>, user: int, today: NU.Date)
    requires user in perfiles
    requires ObtenerMacrosActuales(perfiles, macros, user).NoMacros?
    requires NU.MacrosForProfile(perfiles[user].profile, today).error.None?
    ensures ObtenerMacrosActuales(perfiles, macros + NewRecords(perfiles[user], today), user)
      == CurrentOf(RecordOf(perfiles[user].idPerfil, NU.MacrosForProfile(perfiles[user].profile, today), today))
  {
    var row := perfiles[user];
    var added := NewRecords(row, today);
    FirstActiveSkipsInactivePrefix(macros, added, row.idPerfil, 0);
    assert (macros + added)[|macros|] == added[0];
  }

  /**
   * Once a profile has an active record, later calculations never change what the
   * read endpoint answers: new records are appended and no older one is deactivated,
   * so the oldest active record keeps being returned.
   */
  lemma ReadStaysOnOldest(perfiles: map<int, PerfilRow>, macros: seq<MacrosRecord>, user: int, today: NU.Date)
    requires user in perfiles
    requires ObtenerMacrosActuales(perfiles, macros, user).Current?
    ensures ObtenerMacrosActuales(perfiles, macros + NewRecords(perfiles[user], today), user)
      == ObtenerMacrosActuales(perfiles, macros, user)
  {
    FirstActiveIgnoresAppended(macros, NewRecords(perfiles[user], today), perfiles[user].idPerfil, 0);
  }

  /** The profiles and the macronutrient table, as the two endpoints see them. */
  class NutritionStore {
    var perfiles: map<int, PerfilRow>
    var macros: seq<MacrosRecord>

    constructor (perfiles: map<int, PerfilRow>)
      ensures this.perfiles == perfiles && macros == []
    {
      this.perfiles, macros := perfiles, [];
    }

    /**
     * The calculation endpoint: 400 and no change without a profile; otherwise the
     * pipeline's report is returned as is, and one active record dated today is
     * appended exactly when the report has no error.
     */
    method CalcularMacros(user: int, today: NU.Date) returns (reply: CalcularReply)
      modifies this`macros
      ensures user !in perfiles ==>
        reply == CalcularProfileMissing(ProfileIncomplete) && CalcularStatus(reply) == 400 && macros == old(macros)
      ensures user in perfiles ==>
        && reply == Calculated(NU.MacrosForProfile(perfiles[user].profile, today)) && CalcularStatus(reply) == 200
        && macros == old(macros) + NewRecords(perfiles[user], today)
    {
      if user !in perfiles {
        return CalcularProfileMissing(ProfileIncomplete);
      }
      var perfil := perfiles[user];
      var resultado := NU.MacrosForProfile(perfil.profile, today);
      if resultado.error.None? {
        macros := macros + [RecordOf(perfil.idPerfil, resultado, today)];
      }
      reply := Calculated(resultado);
    }
  }
}
