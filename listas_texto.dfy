/**
 * The string logic of the `importar_listas` command
 * (PEMA/management/commands/importar_listas.py): the class date becomes a
 * year and a semester, and each student name loses its "digits and two
 * blanks" prefixes.
 */
module ListasTexto {
  import opened Wrappers
  import Texto
  import BaseDatos

  /** Why the command stops with an exception. */
  datatype ErrorImportacion =
    | FechaIncompleta       // IndexError: fewer than three `/`-separated fields
    | FechaNoNumerica       // ValueError: the month or the year is not an integer
    | SinCentinela          // IndexError: no row is named `Fecha/Hora`
    | MatriculaInvalida     // ValueError: a student number is not an integer
    | Integridad(error: BaseDatos.ErrorIntegridad)

  /** The year and the semester of a `d/m/y` date: semester 1 for January to June, 2 otherwise. */
  function FechaASemestre(fecha: string): (r: Result<(int, int), ErrorImportacion>)
    ensures r.Ok? ==> r.value.1 in {1, 2}
    ensures r == Err(FechaIncompleta) <==> |Texto.Dividir(fecha, '/')| < 3
  {
    var partes := Texto.Dividir(fecha, '/');
    if |partes| < 3 then Err(FechaIncompleta)
    else match Texto.AEntero(partes[2])
      case None => Err(FechaNoNumerica)
      case Some(anno) =>
        match Texto.AEntero(partes[1])
        case None => Err(FechaNoNumerica)
        case Some(mes) => Ok((anno, if mes < 7 then 1 else 2))
  }

  /**
   * A date written `d/m/y`, where `int()` accepts the fields `m` and `y`,
   * gives back the value of `y`, and semester 1 iff the value of `m` is
   * below 7.
   */
  lemma FechaASemestreCampos(dia: string, m: string, y: string)
    requires '/' !in dia
    requires Texto.AEntero(m).Some? && Texto.AEntero(y).Some?
    ensures FechaASemestre(dia + "/" + m + "/" + y)
         == Ok((Texto.AEntero(y).value, if Texto.AEntero(m).value < 7 then 1 else 2))
  {
    EnteroSinBarra(m);
    EnteroSinBarra(y);
    assert dia + "/" + m + "/" + y == dia + ['/'] + (m + ['/'] + y);
    Texto.DividirPrefijo(dia, m + ['/'] + y, '/');
    Texto.DividirPrefijo(m, y, '/');
    Texto.DividirSinSeparador(y, '/');
  }

  /** A date with digit-only month and year, zero-padded or not, gives their decimal values. */
  lemma FechaASemestreDigitos(dia: string, m: string, y: string)
    requires '/' !in dia && Texto.SoloDigitos(m) && Texto.SoloDigitos(y)
    ensures FechaASemestre(dia + "/" + m + "/" + y)
         == Ok((Texto.ValorDigitos(y) as int, if Texto.ValorDigitos(m) < 7 then 1 else 2))
  {
    FechaASemestreCampos(dia, m, y);
  }

  /** A date whose month and year are written by `Texto` reads back as those numbers. */
  lemma FechaASemestreTexto(dia: string, mes: int, anno: int)
    requires '/' !in dia
    ensures FechaASemestre(dia + "/" + Texto.Texto(mes) + "/" + Texto.Texto(anno)) == Ok((anno, if mes < 7 then 1 else 2))
  {
    Texto.AEnteroTexto(mes);
    Texto.AEnteroTexto(anno);
    FechaASemestreCampos(dia, Texto.Texto(mes), Texto.Texto(anno));
  }

  /** A field `int()` accepts holds no slash. */
  lemma EnteroSinBarra(s: string)
    requires Texto.AEntero(s).Some?
    ensures '/' !in s
  {
    forall i | 0 <= i < |s|
      ensures s[i] != '/'
    {
      if 0 < i && !Texto.SoloDigitos(s) {
        assert s[1..][i - 1] == s[i];
      }
    }
  }

  /** The day field is never read: only month and year decide the result. */
  lemma DiaIndiferente(d1: string, d2: string, resto: string)
    requires '/' !in d1 && '/' !in d2
    ensures FechaASemestre(d1 + "/" + resto) == FechaASemestre(d2 + "/" + resto)
  {
    Texto.DividirPrefijo(d1, resto, '/');
    Texto.DividirPrefijo(d2, resto, '/');
    assert d1 + "/" + resto == d1 + ['/'] + resto;
    assert d2 + "/" + resto == d2 + ['/'] + resto;
  }

  /** Python's `\s` on `str`: the characters for which `str.isspace()` holds. */
  predicate EsEspacio(c: char) {
    || '\U{9}' <= c <= '\U{D}'
    || '\U{1C}' <= c <= '\U{20}'
    || c == '\U{85}' || c == '\U{A0}' || c == '\U{1680}'
    || '\U{2000}' <= c <= '\U{200A}'
    || c == '\U{2028}' || c == '\U{2029}' || c == '\U{202F}' || c == '\U{205F}' || c == '\U{3000}'
  }

  /** The length of the run of digits `s` starts with. */
  function LongitudDigitos(s: string): (n: nat)
    ensures n <= |s|
    ensures forall k :: 0 <= k < n ==> Texto.EsDigito(s[k])
    ensures n == |s| || !Texto.EsDigito(s[n])
  {
    if s == [] || !Texto.EsDigito(s[0]) then 0 else 1 + LongitudDigitos(s[1..])
  }

  /**
   * `re.sub(r'\d+\s\s', '', s)`. A match can only start at the first digit
   * of a run and must take the whole run, since a digit is not a blank; a
   * run not followed by two blanks is copied and the scan goes on after it.
   */
  function LimpiarNombre(s: string): (r: string)
    ensures |r| <= |s|
    decreases |s|
  {
    if s == [] then []
    else if !Texto.EsDigito(s[0]) then [s[0]] + LimpiarNombre(s[1..])
    else
      var n := LongitudDigitos(s);
      if n + 2 <= |s| && EsEspacio(s[n]) && EsEspacio(s[n + 1]) then LimpiarNombre(s[n + 2..])
      else s[..n] + LimpiarNombre(s[n..])
  }

  /** `s[i..j]` is a run of digits followed by two blanks: an occurrence of the pattern. */
  predicate CoincideEn(s: string, i: int, j: int) {
    0 <= i < j && j + 2 <= |s|
    && (forall k :: i <= k < j ==> Texto.EsDigito(s[k]))
    && EsEspacio(s[j]) && EsEspacio(s[j + 1])
  }

  /** The pattern occurs somewhere in `s`. */
  ghost predicate Coincide(s: string) {
    exists i, j :: CoincideEn(s, i, j)
  }

  lemma CoincideDesplazada(s: string, d: nat)
    requires d <= |s|
    ensures Coincide(s[d..]) ==> Coincide(s)
  {
    if Coincide(s[d..]) {
      var i, j :| CoincideEn(s[d..], i, j);
      assert CoincideEn(s, i + d, j + d);
    }
  }

  /** No occurrence starts before `d`. */
  lemma CoincideDesde(s: string, d: nat)
    requires d <= |s|
    requires forall i, j :: CoincideEn(s, i, j) ==> i >= d
    ensures Coincide(s) ==> Coincide(s[d..])
  {
    if Coincide(s) {
      var i, j :| CoincideEn(s, i, j);
      assert CoincideEn(s[d..], i - d, j - d);
    }
  }

  lemma IntactoSiiNoDigito(s: string)
    requires s != [] && !Texto.EsDigito(s[0])
    requires LimpiarNombre(s[1..]) == s[1..] <==> !Coincide(s[1..])
    ensures LimpiarNombre(s) == s <==> !Coincide(s)
  {
    assert s == [s[0]] + s[1..];
    CoincideDesplazada(s, 1);
    forall i, j | CoincideEn(s, i, j) ensures i >= 1 {
    }
    CoincideDesde(s, 1);
    if LimpiarNombre(s) == s {
      assert LimpiarNombre(s)[1..] == LimpiarNombre(s[1..]);
    }
  }

  /** An occurrence cannot start inside a leading run of digits that is not followed by two blanks. */
  lemma NingunaDentroDelRun(s: string, n: nat)
    requires n == LongitudDigitos(s)
    requires !(n + 2 <= |s| && EsEspacio(s[n]) && EsEspacio(s[n + 1]))
    ensures forall i, j :: CoincideEn(s, i, j) ==> i >= n
  {
    assert n < |s| ==> !Texto.EsDigito(s[n]);
    forall i, j | CoincideEn(s, i, j) ensures i >= n {
    }
  }

  /** Behind a leading run of digits not followed by two blanks, the pattern occurs iff it occurs after the run. */
  lemma CoincideTrasRun(s: string, n: nat)
    requires n == LongitudDigitos(s)
    requires !(n + 2 <= |s| && EsEspacio(s[n]) && EsEspacio(s[n + 1]))
    ensures Coincide(s) <==> Coincide(s[n..])
  {
    CoincideDesplazada(s, n);
    NingunaDentroDelRun(s, n);
    CoincideDesde(s, n);
  }

  /** A leading run of digits not followed by two blanks is copied. */
  lemma LimpiarRunSinBlancos(s: string, n: nat)
    requires s != [] && Texto.EsDigito(s[0]) && n == LongitudDigitos(s)
    requires !(n + 2 <= |s| && EsEspacio(s[n]) && EsEspacio(s[n + 1]))
    ensures LimpiarNombre(s) == s[..n] + LimpiarNombre(s[n..])
  {
  }

  /** Behind a leading run of digits not followed by two blanks, the name is left as it is iff the rest is. */
  lemma IntactoTrasRun(s: string, n: nat)
    requires s != [] && Texto.EsDigito(s[0]) && n == LongitudDigitos(s)
    requires !(n + 2 <= |s| && EsEspacio(s[n]) && EsEspacio(s[n + 1]))
    ensures LimpiarNombre(s) == s <==> LimpiarNombre(s[n..]) == s[n..]
  {
    LimpiarRunSinBlancos(s, n);
    IgualTrasPrefijo(s, n, LimpiarNombre(s[n..]), LimpiarNombre(s));
  }

  /** A string made of the first `n` characters of `s` and `x` is `s` iff `x` is the rest of `s`. */
  lemma IgualTrasPrefijo(s: string, n: nat, x: string, y: string)
    requires n <= |s| && y == s[..n] + x
    ensures y == s <==> x == s[n..]
  {
    if y == s {
      assert x == y[n..];
    } else {
      assert s == s[..n] + s[n..];
    }
  }

  lemma IntactoSiiRunSinBlancos(s: string, n: nat)
    requires s != [] && Texto.EsDigito(s[0]) && n == LongitudDigitos(s)
    requires !(n + 2 <= |s| && EsEspacio(s[n]) && EsEspacio(s[n + 1]))
    requires LimpiarNombre(s[n..]) == s[n..] <==> !Coincide(s[n..])
    ensures LimpiarNombre(s) == s <==> !Coincide(s)
  {
    CoincideTrasRun(s, n);
    IntactoTrasRun(s, n);
  }

  /** The name is left as it is exactly when the pattern does not occur in it. */
  lemma {:induction false} LimpiarNombreIntactoSii(s: string)
    ensures LimpiarNombre(s) == s <==> !Coincide(s)
    decreases |s|
  {
    if s == [] {
    } else if !Texto.EsDigito(s[0]) {
      LimpiarNombreIntactoSii(s[1..]);
      IntactoSiiNoDigito(s);
    } else {
      var n := LongitudDigitos(s);
      if n + 2 <= |s| && EsEspacio(s[n]) && EsEspacio(s[n + 1]) {
        assert CoincideEn(s, 0, n);
      } else {
        LimpiarNombreIntactoSii(s[n..]);
        IntactoSiiRunSinBlancos(s, n);
      }
    }
  }

  /** A name without digits is left as it is. */
  lemma {:induction false} SinDigitosIntacto(s: string)
    requires forall k :: 0 <= k < |s| ==> !Texto.EsDigito(s[k])
    ensures LimpiarNombre(s) == s
    decreases |s|
  {
    if s != [] {
      SinDigitosIntacto(s[1..]);
    }
  }

  /** A leading student number and two blanks are removed. */
  lemma {:induction false} LimpiarPrefijo(numero: nat, resto: string)
    ensures LimpiarNombre(Texto.DigitosDe(numero) + "  " + resto) == LimpiarNombre(resto)
  {
    var d := Texto.DigitosDe(numero);
    var s := d + "  " + resto;
    LongitudDigitosPrefijo(d, "  " + resto);
    assert s == d + ("  " + resto);
    assert s[|d| + 2..] == resto;
  }

  lemma {:induction false} LongitudDigitosPrefijo(d: string, resto: string)
    requires forall k :: 0 <= k < |d| ==> Texto.EsDigito(d[k])
    requires resto == [] || !Texto.EsDigito(resto[0])
    ensures LongitudDigitos(d + resto) == |d|
    decreases |d|
  {
    if d != [] {
      assert (d + resto)[1..] == d[1..] + resto;
      LongitudDigitosPrefijo(d[1..], resto);
    }
  }

  /** A name without digits, behind a student number and two blanks, comes out as the bare name. */
  lemma LimpiarNombreConNumero(numero: nat, nombre: string)
    requires forall k :: 0 <= k < |nombre| ==> !Texto.EsDigito(nombre[k])
    ensures LimpiarNombre(Texto.DigitosDe(numero) + "  " + nombre) == nombre
  {
    SinDigitosIntacto(nombre);
    LimpiarPrefijo(numero, nombre);
  }

  /** Cleaning can leave a new occurrence behind, so cleaning twice is not cleaning once. */
  lemma LimpiarNoIdempotente()
    ensures LimpiarNombre("1 2   ") == "1  "
    ensures LimpiarNombre(LimpiarNombre("1 2   ")) == ""
  {
    assert LongitudDigitos("1 2   ") == 1;
    assert "1 2   "[1..] == " 2   ";
    assert " 2   "[1..] == "2   ";
    assert LongitudDigitos("2   ") == 1;
    assert "2   "[3..] == " ";
    assert LongitudDigitos("1  ") == 1;
  }
}
