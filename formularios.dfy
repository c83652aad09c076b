/**
 * The loan-window checks of `FiltrosForm` (PEMA/forms.py:40-129): the
 * choice sets for the duration and the start hour, `clean_inicio` and
 * `clean_hora_inicio`, and the order in which the form runs them.
 * A datetime is a day number and a minute of that day; day 0 is
 * 1970-01-01, a Thursday, and weekdays count from Monday = 0 as Python's
 * `weekday()` does. "Today" is a parameter.
 */
module Formularios {
  import opened Wrappers
  import Texto

  const MinutosDia := 1440

  datatype FechaHora = FechaHora(dia: int, minuto: int)

  predicate Normal(f: FechaHora) {
    0 <= f.minuto < MinutosDia
  }

  /** Minutes since 1970-01-01 00:00. */
  function Minutos(f: FechaHora): int {
    f.dia * MinutosDia + f.minuto
  }

  /** `date.weekday()`: Monday is 0, Sunday is 6. */
  function DiaSemana(dia: int): (d: int)
    ensures 0 <= d < 7
  {
    (dia + 3) % 7
  }

  /** 1970-01-01 was a Thursday, and weekdays repeat every seven days. */
  lemma DiaSemanaCalendario(dia: int)
    ensures DiaSemana(0) == 3
    ensures DiaSemana(dia + 7) == DiaSemana(dia)
    ensures DiaSemana(dia + 1) == (DiaSemana(dia) + 1) % 7
  {
  }

  predicate FinDeSemana(dia: int) {
    DiaSemana(dia) >= 5
  }

  /** The `duracion` choices, in hours. */
  const Duraciones: seq<nat> := [1, 2, 3, 4, 8, 24, 48, 72, 96]

  /** The `hora_inicio` choices. */
  const OpcionesHoraInicio: seq<string> := [
    "09:00:00", "09:30:00", "10:00:00", "10:30:00", "11:00:00", "11:30:00",
    "12:00:00", "12:30:00", "13:00:00", "13:30:00", "14:00:00", "14:30:00",
    "15:00:00", "15:30:00", "16:00:00", "16:30:00", "17:00:00", "17:30:00",
    "18:00:00", "18:30:00", "19:00:00", "19:30:00", "20:00:00"]

  /** The value of the two decimal digits at `s[i]` and `s[i + 1]`. */
  function DosDigitos(s: string, i: nat): (n: nat)
    requires i + 1 < |s| && Texto.EsDigito(s[i]) && Texto.EsDigito(s[i + 1])
    ensures n < 100
  {
    10 * Texto.ValorDigito(s[i]) + Texto.ValorDigito(s[i + 1])
  }

  /** `strptime(s, '%H:%M:%S')` on the two-digit form, as a minute of the day (the seconds are checked and dropped). */
  function ParseHora(s: string): (r: Option<int>)
    ensures r.Some? ==> 0 <= r.value < MinutosDia
  {
    if |s| == 8 && s[2] == ':' && s[5] == ':'
       && Texto.EsDigito(s[0]) && Texto.EsDigito(s[1]) && Texto.EsDigito(s[3])
       && Texto.EsDigito(s[4]) && Texto.EsDigito(s[6]) && Texto.EsDigito(s[7])
       && DosDigitos(s, 0) < 24 && DosDigitos(s, 3) < 60 && DosDigitos(s, 6) < 60
    then Some(DosDigitos(s, 0) * 60 + DosDigitos(s, 3))
    else None
  }

  /** A minute of the day written `HH:MM:00`. */
  function FormatoHora(m: nat): (s: string)
    requires m < MinutosDia
    ensures |s| == 8
  {
    var h := m / 60;
    var mm := m % 60;
    [Texto.CaracterDigito(h / 10), Texto.CaracterDigito(h % 10), ':',
     Texto.CaracterDigito(mm / 10), Texto.CaracterDigito(mm % 10), ':', '0', '0']
  }

  lemma ParseFormatoHora(m: nat)
    requires m < MinutosDia
    ensures ParseHora(FormatoHora(m)) == Some(m)
  {
    var s := FormatoHora(m);
    assert DosDigitos(s, 0) == m / 60;
    assert DosDigitos(s, 3) == m % 60;
    assert Texto.ValorDigito('0') == 0;
  }

  /** The choices from 09:00 to 11:30 read as their minute of the day. */
  lemma OpcionesManana()
    ensures forall i :: 0 <= i < 6 ==> ParseHora(OpcionesHoraInicio[i]) == Some(540 + 30 * i)
  {
  }

  /** The choices from 12:00 to 14:30. */
  lemma OpcionesMediodia()
    ensures forall i :: 6 <= i < 12 ==> ParseHora(OpcionesHoraInicio[i]) == Some(540 + 30 * i)
  {
  }

  /** The choices from 15:00 to 17:30. */
  lemma OpcionesTarde()
    ensures forall i :: 12 <= i < 18 ==> ParseHora(OpcionesHoraInicio[i]) == Some(540 + 30 * i)
  {
  }

  /** The choices from 18:00 to 20:00. */
  lemma OpcionesNoche()
    ensures forall i :: 18 <= i < 23 ==> ParseHora(OpcionesHoraInicio[i]) == Some(540 + 30 * i)
  {
  }

  /** The start-hour choices run from 09:00 to 20:00 in steps of 30 minutes: choice `i` is minute `540 + 30 * i`. */
  lemma ParseOpcion(i: nat)
    requires i < |OpcionesHoraInicio|
    ensures ParseHora(OpcionesHoraInicio[i]) == Some(540 + 30 * i)
  {
    OpcionesManana();
    OpcionesMediodia();
    OpcionesTarde();
    OpcionesNoche();
  }

  /** `datetime.combine(inicio, hora) + timedelta(hours=duracion)`: the return moment. */
  function Devolucion(inicio: FechaHora, hora: int, duracion: nat): (r: FechaHora)
    ensures Normal(r)
    ensures Minutos(r) == inicio.dia * MinutosDia + hora + 60 * duracion
  {
    var total := inicio.dia * MinutosDia + hora + 60 * duracion;
    FechaHora(total / MinutosDia, total % MinutosDia)
  }

  /** The errors the two cleaners raise; `ErrorInterno` is an exception escaping the form. */
  datatype ErrorFormulario =
    | InicioEnFinDeSemana
    | PocaAnticipacion
    | FueraDeHorario
    | DevolucionEnFinDeSemana
    | ErrorInterno

  const InicioHorario := 7
  const FinHorario := 20

  /** `clean_inicio`: a weekday start, at least three days from today. */
  function CleanInicio(inicio: FechaHora, hoy: int): (r: Result<FechaHora, ErrorFormulario>)
    ensures r.Ok? <==> !FinDeSemana(inicio.dia) && inicio.dia >= hoy + 3
    ensures r.Ok? ==> r.value == inicio
    ensures FinDeSemana(inicio.dia) ==> r == Err(InicioEnFinDeSemana)
    ensures !FinDeSemana(inicio.dia) && inicio.dia < hoy + 3 ==> r == Err(PocaAnticipacion)
  {
    if DiaSemana(inicio.dia) >= 5 then Err(InicioEnFinDeSemana)
    else if inicio.dia < hoy + 3 then Err(PocaAnticipacion)
    else Ok(inicio)
  }

  /** The two checks `clean_hora_inicio` makes on the return moment. */
  function ComprobarDevolucion(fin: FechaHora): (r: Option<ErrorFormulario>)
    ensures r == None <==> InicioHorario <= fin.minuto / 60 <= FinHorario && !FinDeSemana(fin.dia)
    ensures r.Some? ==> r.value in {FueraDeHorario, DevolucionEnFinDeSemana}
  {
    if !(InicioHorario <= fin.minuto / 60 <= FinHorario) then Some(FueraDeHorario)
    else if DiaSemana(fin.dia) >= 5 then Some(DevolucionEnFinDeSemana)
    else None
  }

  /**
   * `clean_hora_inicio` as written. `duracion` and `inicio` are what
   * `cleaned_data` holds for them (`None` when their own cleaning failed);
   * `int(None)` and `datetime.combine(None, …)` raise `TypeError`.
   */
  function CleanHoraInicio(hora: string, duracion: Option<nat>, inicio: Option<FechaHora>): (r: Result<string, ErrorFormulario>)
    requires hora in OpcionesHoraInicio
    ensures duracion.None? || inicio.None? ==> r == Err(ErrorInterno)
    ensures duracion.Some? && inicio.Some? ==>
      exists i :: 0 <= i < |OpcionesHoraInicio| && OpcionesHoraInicio[i] == hora &&
        match ComprobarDevolucion(Devolucion(inicio.value, 540 + 30 * i, duracion.value))
        case None => r == Ok(hora)
        case Some(e) => r == Err(e)
  {
    var i :| 0 <= i < |OpcionesHoraInicio| && OpcionesHoraInicio[i] == hora;
    ParseOpcion(i);
    match ParseHora(hora)
    case None => Err(ErrorInterno)
    case Some(h) =>
      if duracion.None? || inicio.None? then Err(ErrorInterno)
      else match ComprobarDevolucion(Devolucion(inicio.value, h, duracion.value))
        case None => Ok(hora)
        case Some(e) => Err(e)
  }

  /** `clean_hora_inicio` leaving the check to the other fields' errors when one of its inputs is missing. */
  function CleanHoraInicioCorregido(hora: string, duracion: Option<nat>, inicio: Option<FechaHora>): (r: Option<ErrorFormulario>)
    requires hora in OpcionesHoraInicio
    ensures r != Some(ErrorInterno)
    ensures duracion.None? || inicio.None? ==> r == None
    ensures duracion.Some? && inicio.Some? ==>
      (ParseHora(hora).Some? && r == ComprobarDevolucion(Devolucion(inicio.value, ParseHora(hora).value, duracion.value)))
  {
    var i :| 0 <= i < |OpcionesHoraInicio| && OpcionesHoraInicio[i] == hora;
    ParseOpcion(i);
    if duracion.None? || inicio.None? then None
    else ComprobarDevolucion(Devolucion(inicio.value, ParseHora(hora).value, duracion.value))
  }

  /** What validating the whole form gives: valid, the field errors, or an exception. */
  datatype Validacion = Valida | Invalida(errores: seq<ErrorFormulario>) | Excepcion

  /** The errors in the order the fields are cleaned, without the missing ones. */
  function Errores(primero: Option<ErrorFormulario>, segundo: Option<ErrorFormulario>): seq<ErrorFormulario> {
    (if primero.Some? then [primero.value] else []) + (if segundo.Some? then [segundo.value] else [])
  }

  /**
   * `FiltrosForm.is_valid()` as written: `inicio` is cleaned before
   * `duracion` and `hora_inicio`, and a field whose cleaning fails is
   * absent from `cleaned_data` when the later ones are cleaned.
   */
  function ValidarFiltros(inicio: FechaHora, hoy: int, duracion: Option<nat>, hora: string): (v: Validacion)
    requires hora in OpcionesHoraInicio
    ensures v == Excepcion <==> duracion.None? || CleanInicio(inicio, hoy).Err?
  {
    var ci := CleanInicio(inicio, hoy);
    var ch := CleanHoraInicio(hora, duracion, if ci.Ok? then Some(ci.value) else None);
    match ch
    case Err(ErrorInterno) => Excepcion
    case Err(e) => Invalida([e])
    case Ok(_) => Valida
  }

  /** The form validation with the corrected hour cleaner. */
  function ValidarFiltrosCorregido(inicio: FechaHora, hoy: int, duracion: Option<nat>, hora: string): (v: Validacion)
    requires hora in OpcionesHoraInicio
    ensures v != Excepcion
  {
    var ci := CleanInicio(inicio, hoy);
    var ch := CleanHoraInicioCorregido(hora, duracion, if ci.Ok? then Some(ci.value) else None);
    if ci.Ok? && ch.None? && duracion.Some? then Valida
    else Invalida(Errores(if ci.Err? then Some(ci.error) else None, ch))
  }

  /**
   * With the corrected cleaner the form accepts exactly the windows that
   * start on a weekday at least three days ahead and return inside office
   * hours on a weekday.
   */
  lemma ValidarFiltrosCorregidoSii(inicio: FechaHora, hoy: int, duracion: nat, i: nat)
    requires i < |OpcionesHoraInicio|
    ensures var fin := Devolucion(inicio, 540 + 30 * i, duracion);
      ValidarFiltrosCorregido(inicio, hoy, Some(duracion), OpcionesHoraInicio[i]) == Valida
      <==> !FinDeSemana(inicio.dia) && inicio.dia >= hoy + 3
           && InicioHorario <= fin.minuto / 60 <= FinHorario && !FinDeSemana(fin.dia)
  {
    ParseOpcion(i);
  }

  /** When the start is valid, the corrected validation agrees with the form as written. */
  lemma CorregidoCoincide(inicio: FechaHora, hoy: int, duracion: nat, hora: string)
    requires hora in OpcionesHoraInicio
    requires CleanInicio(inicio, hoy).Ok?
    ensures ValidarFiltros(inicio, hoy, Some(duracion), hora) == ValidarFiltrosCorregido(inicio, hoy, Some(duracion), hora)
  {
    var i :| 0 <= i < |OpcionesHoraInicio| && OpcionesHoraInicio[i] == hora;
    ParseOpcion(i);
  }

  /**
   * A start on a Saturday (day 2 is 1970-01-03) is meant to be answered
   * with the weekend error; the form as written raises instead.
   */
  lemma InicioSabadoLanzaExcepcion()
    ensures FinDeSemana(2)
    ensures ValidarFiltros(FechaHora(2, 600), 0, Some(1), "09:00:00") == Excepcion
    ensures ValidarFiltrosCorregido(FechaHora(2, 600), 0, Some(1), "09:00:00") == Invalida([InicioEnFinDeSemana])
  {
    assert OpcionesHoraInicio[0] == "09:00:00";
  }

  /** A duration of whole days returns at the start hour, that many days later. */
  lemma DuracionEnDias(inicio: FechaHora, hora: int, dias: nat)
    requires 0 <= hora < MinutosDia
    ensures Devolucion(inicio, hora, 24 * dias) == FechaHora(inicio.dia + dias, hora)
  {
    var total := inicio.dia * MinutosDia + hora + 60 * (24 * dias);
    assert total == (inicio.dia + dias) * MinutosDia + hora;
  }

  /**
   * For a duration under a day and a start hour among the choices, the
   * return passes the office-hours check iff it comes before 21:00 of the
   * same day; a 20:30 return passes, since only the hour is compared.
   */
  lemma DuracionCortaEnHorario(inicio: FechaHora, duracion: nat, i: nat)
    requires duracion in Duraciones[..5] && i < |OpcionesHoraInicio|
    ensures var fin := Devolucion(inicio, 540 + 30 * i, duracion);
      InicioHorario <= fin.minuto / 60 <= FinHorario <==> 540 + 30 * i + 60 * duracion < 21 * 60
  {
    var h := 540 + 30 * i;
    var fin := Devolucion(inicio, h, duracion);
    assert h + 60 * duracion <= 1680;
    if h + 60 * duracion < MinutosDia {
      assert fin == FechaHora(inicio.dia, h + 60 * duracion) by {
        assert Minutos(FechaHora(inicio.dia, h + 60 * duracion)) == Minutos(fin);
      }
    } else {
      assert fin == FechaHora(inicio.dia + 1, h + 60 * duracion - MinutosDia) by {
        assert Minutos(FechaHora(inicio.dia + 1, h + 60 * duracion - MinutosDia)) == Minutos(fin);
      }
    }
  }

  lemma DevolucionVeinteYMedia(inicio: FechaHora)
    ensures Devolucion(inicio, 19 * 60 + 30, 1).minuto == 20 * 60 + 30
    ensures ComprobarDevolucion(Devolucion(inicio, 19 * 60 + 30, 1)) != Some(FueraDeHorario)
  {
    assert Duraciones[..5][0] == 1;
    DuracionCortaEnHorario(inicio, 1, 21);
  }
}
