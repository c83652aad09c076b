/**
 * The row collection and the account creation of the `importar_listas`
 * command (PEMA/management/commands/importar_listas.py): the rows before
 * the `Fecha/Hora` sentinel are collected, and one account per student
 * and one for the teacher are created and enrolled in the materia. The
 * spreadsheet cells are given as strings.
 */
module ImportarListas {
  import opened Wrappers
  import opened Entidades
  import opened ListasTexto
  import Texto
  import BaseDatos

  /** A row of the student list: the name cell (`None` when empty) and the student-number cell. */
  datatype Fila = Fila(nombre: Option<string>, matricula: string)

  const Centinela := "Fecha/Hora"

  /** `df.dropna(subset=['NOMBRE DEL ALUMNO'])`: the rows that have a name, in order. */
  function ConNombre(filas: seq<Fila>): (r: seq<Fila>)
    ensures |r| <= |filas|
    ensures forall k :: 0 <= k < |r| ==> r[k].nombre.Some?
  {
    if filas == [] then []
    else (if filas[0].nombre.Some? then [filas[0]] else []) + ConNombre(filas[1..])
  }

  /** `ConNombre` keeps exactly the rows that have a name. */
  lemma {:induction false} ConNombreFiltra(filas: seq<Fila>, f: Fila)
    ensures f in ConNombre(filas) <==> f in filas && f.nombre.Some?
  {
    if filas != [] {
      ConNombreFiltra(filas[1..], f);
      assert filas == [filas[0]] + filas[1..];
    }
  }

  /** The position of the first row named `Fecha/Hora`. */
  function PrimeraCentinela(filas: seq<Fila>): (r: Option<nat>)
    ensures r.Some? ==> r.value < |filas| && filas[r.value].nombre == Some(Centinela)
    ensures r.Some? ==> forall k :: 0 <= k < r.value ==> filas[k].nombre != Some(Centinela)
    ensures r.None? ==> forall k :: 0 <= k < |filas| ==> filas[k].nombre != Some(Centinela)
  {
    if filas == [] then None
    else if filas[0].nombre == Some(Centinela) then Some(0)
    else match PrimeraCentinela(filas[1..])
      case None => None
      case Some(i) => Some(i + 1)
  }

  /**
   * The first `k` named rows as the row loop leaves them: the cleaned
   * names and the student numbers converted with `int`, or `None` once a
   * student number does not convert (`int` raises `ValueError`).
   */
  function Convertidas(df: seq<Fila>, k: nat): (r: Option<(seq<string>, seq<int>)>)
    requires k <= |df| && forall j :: 0 <= j < |df| ==> df[j].nombre.Some?
    ensures r.Some? ==> |r.value.0| == k && |r.value.1| == k
  {
    if k == 0 then Some(([], []))
    else match Convertidas(df, k - 1)
      case None => None
      case Some(p) =>
        match Texto.AEntero(df[k - 1].matricula)
        case None => None
        case Some(m) => Some((p.0 + [LimpiarNombre(df[k - 1].nombre.value)], p.1 + [m]))
  }

  /** The rows convert iff every student number does, and then row `j` gives entry `j` of both lists. */
  lemma {:induction false} ConvertidasSii(df: seq<Fila>, k: nat)
    requires k <= |df| && forall j :: 0 <= j < |df| ==> df[j].nombre.Some?
    ensures Convertidas(df, k).Some? <==> forall j :: 0 <= j < k ==> Texto.AEntero(df[j].matricula).Some?
    ensures Convertidas(df, k).Some? ==> forall j :: 0 <= j < k ==>
      Convertidas(df, k).value.0[j] == LimpiarNombre(df[j].nombre.value)
      && Texto.AEntero(df[j].matricula) == Some(Convertidas(df, k).value.1[j])
  {
    if k > 0 {
      ConvertidasSii(df, k - 1);
    }
  }

  /** Once a student number fails to convert, so do all longer prefixes. */
  lemma {:induction false} ConvertidasFalla(df: seq<Fila>, k: nat, n: nat)
    requires k <= n <= |df| && forall j :: 0 <= j < |df| ==> df[j].nombre.Some?
    requires Convertidas(df, k).None?
    ensures Convertidas(df, n).None?
    decreases n
  {
    if n > k {
      ConvertidasFalla(df, k, n - 1);
    }
  }

  /** What the row collection of `importar_listas` produces from the sheet's rows. */
  function Recoleccion(filas: seq<Fila>): (r: Result<(seq<string>, seq<int>), ErrorImportacion>)
    ensures r.Ok? ==> |r.value.0| == |r.value.1|
  {
    var df := ConNombre(filas);
    match PrimeraCentinela(df)
    case None => Err(SinCentinela)
    case Some(final) =>
      match Convertidas(df, final)
      case None => Err(MatriculaInvalida)
      case Some(p) => Ok(p)
  }

  /**
   * Without a `Fecha/Hora` row the command fails (`index[0]` raises
   * `IndexError`); otherwise it succeeds iff every student number before
   * that row converts, and then gives one cleaned name and one number per
   * named row before it, in order.
   */
  lemma RecoleccionSii(filas: seq<Fila>)
    ensures var r := Recoleccion(filas);
      var validas := ConNombre(filas);
      match PrimeraCentinela(validas)
      case None => r == Err(SinCentinela)
      case Some(final) =>
        && (r.Ok? <==> forall k :: 0 <= k < final ==> Texto.AEntero(validas[k].matricula).Some?)
        && (r.Err? ==> r.error == MatriculaInvalida)
        && (r.Ok? ==>
              && |r.value.0| == final && |r.value.1| == final
              && forall k :: 0 <= k < final ==>
                   r.value.0[k] == LimpiarNombre(validas[k].nombre.value)
                   && Texto.AEntero(validas[k].matricula) == Some(r.value.1[k]))
  {
    var validas := ConNombre(filas);
    if PrimeraCentinela(validas).Some? {
      ConvertidasSii(validas, PrimeraCentinela(validas).value);
    }
  }

  /**
   * The row loop of `importar_listas`: over the named rows before the first
   * `Fecha/Hora`, appends the cleaned name to `nombres` and the student
   * number, converted with `int`, to `matriculas`.
   */
  method RecolectarFilas(filas: seq<Fila>) returns (r: Result<(seq<string>, seq<int>), ErrorImportacion>)
    ensures r == Recoleccion(filas)
  {
    var df := ConNombre(filas);
    var posicion := PrimeraCentinela(df);
    if posicion.None? {
      return Err(SinCentinela);
    }
    var final := posicion.value;
    var nombres: seq<string> := [];
    var matriculas: seq<int> := [];
    var k := 0;
    while k < final
      invariant 0 <= k <= final
      invariant Convertidas(df, k) == Some((nombres, matriculas))
    {
      var matricula := Texto.AEntero(df[k].matricula);
      if matricula.None? {
        ConvertidasFalla(df, k + 1, final);
        return Err(MatriculaInvalida);
      }
      nombres := nombres + [LimpiarNombre(df[k].nombre.value)];
      matriculas := matriculas + [matricula.value];
      k := k + 1;
    }
    return Ok((nombres, matriculas));
  }

  /** The usernames of the students: `create_user(username=matricula)` stores the number as text. */
  function Usernames(matriculas: seq<int>): (r: seq<Usuario>)
    ensures |r| == |matriculas|
    ensures forall k :: 0 <= k < |r| ==> r[k] == Texto.Texto(matriculas[k])
  {
    seq(|matriculas|, k requires 0 <= k < |matriculas| => Texto.Texto(matriculas[k]))
  }

  /** Distinct student numbers give distinct usernames, and conversely. */
  lemma UsernamesDistintos(matriculas: seq<int>, i: nat, j: nat)
    requires i < |matriculas| && j < |matriculas|
    ensures Usernames(matriculas)[i] == Usernames(matriculas)[j] <==> matriculas[i] == matriculas[j]
  {
    if Usernames(matriculas)[i] == Usernames(matriculas)[j] {
      Texto.TextoInyectivo(matriculas[i], matriculas[j]);
    }
  }

  /** None of the first `k` usernames exists yet, and none of them repeats. */
  predicate NuevosHasta(existentes: set<Usuario>, usuarios: seq<Usuario>, k: nat)
    requires k <= |usuarios|
  {
    && (forall j :: 0 <= j < k ==> usuarios[j] !in existentes)
    && (forall i, j :: 0 <= i < j < k ==> usuarios[i] != usuarios[j])
  }

  /** None of the usernames exists yet, and none repeats. */
  predicate Nuevos(existentes: set<Usuario>, usuarios: seq<Usuario>) {
    NuevosHasta(existentes, usuarios, |usuarios|)
  }

  /** Every account the import creates is new: the teacher's and the students', none twice. */
  predicate AltasPosibles(existentes: set<Usuario>, maestro: Usuario, alumnos: seq<Usuario>) {
    maestro !in existentes && Nuevos(existentes + {maestro}, alumnos)
  }

  /** `get_or_create` of the materia succeeds: absent, or present with the same year and semester. */
  predicate MateriaCompatible(materias: map<string, Materia>, nombre: string, anno: int, semestre: int) {
    nombre in materias ==> materias[nombre].year == anno && materias[nombre].semestre == semestre
  }

  /** The materia `get_or_create` returns. */
  function MateriaInicial(materias: map<string, Materia>, nombre: string, anno: int, semestre: int): Materia {
    if nombre in materias then materias[nombre] else Materia(anno, semestre, true, {}, {}, {})
  }

  /** The set of the first `k` usernames. */
  function Inscritos(alumnos: seq<Usuario>, k: nat): (r: set<Usuario>)
    requires k <= |alumnos|
    ensures forall u :: u in r <==> u in alumnos[..k]
  {
    if k == 0 then {}
    else
      assert alumnos[..k] == alumnos[..k - 1] + [alumnos[k - 1]];
      Inscritos(alumnos, k - 1) + {alumnos[k - 1]}
  }

  /** The borrower accounts the first `k` steps of the student loop create. */
  function Cuentas(nombres: seq<string>, alumnos: seq<Usuario>, k: nat): map<Usuario, Cuenta>
    requires k <= |alumnos| <= |nombres|
  {
    if k == 0 then map[]
    else Cuentas(nombres, alumnos, k - 1)[alumnos[k - 1] := Cuenta(nombres[k - 1], alumnos[k - 1], {Prestatarios})]
  }

  /**
   * Where the student loop stops when it reaches step `k`: at the first
   * username from `k` on that is taken, either before the import or by an
   * earlier student of the list, or at the end of the list.
   */
  function Creables(existentes: set<Usuario>, alumnos: seq<Usuario>, k: nat): (n: nat)
    requires k <= |alumnos|
    ensures k <= n <= |alumnos|
    decreases |alumnos| - k
  {
    if k == |alumnos| || alumnos[k] in existentes || alumnos[k] in Inscritos(alumnos, k) then k
    else Creables(existentes, alumnos, k + 1)
  }

  /** How many student accounts the loop creates over the accounts `existentes`. */
  function Creados(existentes: set<Usuario>, alumnos: seq<Usuario>): (n: nat)
    ensures n <= |alumnos|
  {
    Creables(existentes, alumnos, 0)
  }

  /** From a new prefix of length `k`, the loop stops after a new prefix, at a taken username or at the end. */
  lemma {:induction false} CreablesSii(existentes: set<Usuario>, alumnos: seq<Usuario>, k: nat)
    requires k <= |alumnos| && NuevosHasta(existentes, alumnos, k)
    ensures NuevosHasta(existentes, alumnos, Creables(existentes, alumnos, k))
    ensures var n := Creables(existentes, alumnos, k);
      n < |alumnos| ==> alumnos[n] in existentes || alumnos[n] in Inscritos(alumnos, n)
    ensures Nuevos(existentes, alumnos) ==> Creables(existentes, alumnos, k) == |alumnos|
    decreases |alumnos| - k
  {
    if k < |alumnos| {
      NuevosAvance(existentes, alumnos, k);
      NuevosHastaPrefijo(existentes, alumnos, k + 1, |alumnos|);
      if alumnos[k] !in existentes && alumnos[k] !in Inscritos(alumnos, k) {
        CreablesSii(existentes, alumnos, k + 1);
      }
    }
  }

  /**
   * The loop creates the first `Creados` students, all new and distinct;
   * it stops short exactly when some username is taken, and then the next
   * username is taken before the import or repeats an earlier one.
   */
  lemma CreadosSii(existentes: set<Usuario>, alumnos: seq<Usuario>)
    ensures NuevosHasta(existentes, alumnos, Creados(existentes, alumnos))
    ensures Creados(existentes, alumnos) == |alumnos| <==> Nuevos(existentes, alumnos)
    ensures var n := Creados(existentes, alumnos);
      n < |alumnos| ==> alumnos[n] in existentes || alumnos[n] in Inscritos(alumnos, n)
  {
    CreablesSii(existentes, alumnos, 0);
  }

  /**
   * The accounts after the account part of `parsear_listas`: unchanged when
   * the teacher's username is taken; otherwise the teacher's account and
   * the accounts of the first `Creados` students.
   */
  function UsuariosTrasAltas(usuarios: map<Usuario, Cuenta>, nombreEmpleado: string, maestro: Usuario,
                             nombres: seq<string>, alumnos: seq<Usuario>): (r: map<Usuario, Cuenta>)
    requires |alumnos| <= |nombres|
    ensures usuarios.Keys <= r.Keys
  {
    if maestro in usuarios then usuarios
    else usuarios[maestro := Cuenta(nombreEmpleado, maestro, {Maestros})]
         + Cuentas(nombres, alumnos, Creados(usuarios.Keys + {maestro}, alumnos))
  }

  /** The materia after the same part: the teacher and those students enrolled, if the teacher was new. */
  function MateriaTrasAltas(m: Materia, existentes: set<Usuario>, maestro: Usuario, alumnos: seq<Usuario>): Materia {
    if maestro in existentes then m
    else m.(maestros := m.maestros + {maestro},
            alumnos := m.alumnos + Inscritos(alumnos, Creados(existentes + {maestro}, alumnos)))
  }

  /** When every account is new, the import creates all of them and enrols everybody. */
  lemma AltasCompletas(usuarios: map<Usuario, Cuenta>, nombreEmpleado: string, maestro: Usuario,
                       nombres: seq<string>, alumnos: seq<Usuario>, m: Materia)
    requires |alumnos| <= |nombres|
    requires AltasPosibles(usuarios.Keys, maestro, alumnos)
    ensures UsuariosTrasAltas(usuarios, nombreEmpleado, maestro, nombres, alumnos)
         == usuarios[maestro := Cuenta(nombreEmpleado, maestro, {Maestros})] + Cuentas(nombres, alumnos, |alumnos|)
    ensures MateriaTrasAltas(m, usuarios.Keys, maestro, alumnos)
         == m.(maestros := m.maestros + {maestro}, alumnos := m.alumnos + Inscritos(alumnos, |alumnos|))
  {
    assert usuarios[maestro := Cuenta(nombreEmpleado, maestro, {Maestros})].Keys == usuarios.Keys + {maestro};
    CreadosSii(usuarios.Keys + {maestro}, alumnos);
  }

  /** The import never alters an account that existed before it. */
  lemma AltasNoPisan(usuarios: map<Usuario, Cuenta>, nombreEmpleado: string, maestro: Usuario,
                     nombres: seq<string>, alumnos: seq<Usuario>)
    requires |alumnos| <= |nombres|
    ensures forall u :: u in usuarios ==> UsuariosTrasAltas(usuarios, nombreEmpleado, maestro, nombres, alumnos)[u] == usuarios[u]
  {
    if maestro !in usuarios {
      var conMaestro := usuarios[maestro := Cuenta(nombreEmpleado, maestro, {Maestros})];
      assert conMaestro.Keys == usuarios.Keys + {maestro};
      CreadosSii(conMaestro.Keys, alumnos);
      CuentasNoPisan(conMaestro, nombres, alumnos, Creados(conMaestro.Keys, alumnos));
    }
  }

  /**
   * Whatever the outcome, the teacher's username exists afterwards, so
   * importing the same list again fails at the teacher.
   */
  lemma ReimportarFalla(usuarios: map<Usuario, Cuenta>, nombreEmpleado: string, maestro: Usuario,
                        nombres: seq<string>, alumnos: seq<Usuario>, otros: seq<Usuario>)
    requires |alumnos| <= |nombres|
    ensures !AltasPosibles(UsuariosTrasAltas(usuarios, nombreEmpleado, maestro, nombres, alumnos).Keys, maestro, otros)
  {
    if maestro !in usuarios {
      var conMaestro := usuarios[maestro := Cuenta(nombreEmpleado, maestro, {Maestros})];
      assert maestro in conMaestro;
    }
  }

  /** One step of the student loop: `Prestatario.crear_usuario` and `materia.agregar_alumno`. */
  method InscribirAlumno(db: BaseDatos.BaseDatos, materia: string, nombre: string, alumno: Usuario)
    returns (ok: bool)
    requires materia in db.materias
    modifies db`materias, db`usuarios
    ensures db.materias.Keys == old(db.materias).Keys
    ensures ok <==> alumno !in old(db.usuarios)
    ensures ok ==> db.usuarios == old(db.usuarios)[alumno := Cuenta(nombre, alumno, {Prestatarios})]
    ensures ok ==> db.materias == old(db.materias)[materia :=
      old(db.materias)[materia].(alumnos := old(db.materias)[materia].alumnos + {alumno})]
    ensures !ok ==> db.usuarios == old(db.usuarios) && db.materias == old(db.materias)
  {
    ok := db.CrearUsuario(alumno, nombre, alumno, Prestatarios);
    if ok {
      db.AgregarAlumno(materia, alumno);
    }
  }

  /** The teacher's part of `parsear_listas`: `Maestro.crear_usuario` and `materia.agregar_maestro`. */
  method InscribirMaestro(db: BaseDatos.BaseDatos, materia: string, nombre: string, maestro: Usuario)
    returns (ok: bool)
    requires materia in db.materias
    modifies db`materias, db`usuarios
    ensures db.materias.Keys == old(db.materias).Keys
    ensures ok <==> maestro !in old(db.usuarios)
    ensures ok ==> db.usuarios == old(db.usuarios)[maestro := Cuenta(nombre, maestro, {Maestros})]
    ensures ok ==> db.materias == old(db.materias)[materia :=
      old(db.materias)[materia].(maestros := old(db.materias)[materia].maestros + {maestro})]
    ensures !ok ==> db.usuarios == old(db.usuarios) && db.materias == old(db.materias)
  {
    ok := db.CrearUsuario(maestro, nombre, maestro, Maestros);
    if ok {
      db.AgregarMaestro(materia, maestro);
    }
  }

  /** The first `k + 1` usernames are new iff the first `k` are and the next is neither taken nor among them. */
  lemma NuevosAvance(existentes: set<Usuario>, usuarios: seq<Usuario>, k: nat)
    requires k < |usuarios|
    ensures NuevosHasta(existentes, usuarios, k + 1) <==>
      NuevosHasta(existentes, usuarios, k) && usuarios[k] !in existentes && usuarios[k] !in Inscritos(usuarios, k)
  {
    if NuevosHasta(existentes, usuarios, k) && usuarios[k] !in existentes && usuarios[k] !in Inscritos(usuarios, k) {
      forall i | 0 <= i < k ensures usuarios[i] != usuarios[k] {
        assert usuarios[i] == usuarios[..k][i];
      }
    }
  }

  /** Fewer usernames stay new. */
  lemma NuevosHastaPrefijo(existentes: set<Usuario>, usuarios: seq<Usuario>, k: nat, n: nat)
    requires k <= n <= |usuarios|
    ensures NuevosHasta(existentes, usuarios, n) ==> NuevosHasta(existentes, usuarios, k)
  {
  }

  /** One account per username, named after the matching name, with the username as password. */
  lemma {:induction false} CuentasDeAlumnos(existentes: set<Usuario>, nombres: seq<string>, alumnos: seq<Usuario>, k: nat)
    requires k <= |alumnos| <= |nombres| && NuevosHasta(existentes, alumnos, k)
    ensures Cuentas(nombres, alumnos, k).Keys == Inscritos(alumnos, k)
    ensures forall j :: 0 <= j < k ==> Cuentas(nombres, alumnos, k)[alumnos[j]] == Cuenta(nombres[j], alumnos[j], {Prestatarios})
  {
    if k > 0 {
      NuevosHastaPrefijo(existentes, alumnos, k - 1, k);
      CuentasDeAlumnos(existentes, nombres, alumnos, k - 1);
    }
  }

  /** One more step of the student loop adds the next account. */
  lemma PasoCuentas(base: map<Usuario, Cuenta>, nombres: seq<string>, alumnos: seq<Usuario>, k: nat)
    requires k < |alumnos| <= |nombres|
    ensures (base + Cuentas(nombres, alumnos, k))[alumnos[k] := Cuenta(nombres[k], alumnos[k], {Prestatarios})]
         == base + Cuentas(nombres, alumnos, k + 1)
  {
  }

  /** One more step of the student loop enrolls the next student. */
  lemma PasoInscritos(materias: map<string, Materia>, materia: string, m: Materia, alumnos: seq<Usuario>, k: nat)
    requires k < |alumnos|
    ensures var antes := materias[materia := m.(alumnos := m.alumnos + Inscritos(alumnos, k))];
      antes[materia := antes[materia].(alumnos := antes[materia].alumnos + {alumnos[k]})]
        == materias[materia := m.(alumnos := m.alumnos + Inscritos(alumnos, k + 1))]
  {
    assert m.alumnos + Inscritos(alumnos, k) + {alumnos[k]} == m.alumnos + Inscritos(alumnos, k + 1);
  }

  /**
   * One step of the student loop at student `k`: the username is taken
   * exactly where the loop stops, and otherwise creating and enrolling it
   * gives the tables of the next step.
   */
  lemma PasoAlumno(base: map<Usuario, Cuenta>, materias: map<string, Materia>, materia: string, m: Materia,
                   nombres: seq<string>, alumnos: seq<Usuario>, k: nat)
    requires k < |alumnos| <= |nombres| && NuevosHasta(base.Keys, alumnos, k)
    requires Creados(base.Keys, alumnos) == Creables(base.Keys, alumnos, k)
    ensures alumnos[k] in base + Cuentas(nombres, alumnos, k) <==> Creados(base.Keys, alumnos) == k
    ensures alumnos[k] !in base + Cuentas(nombres, alumnos, k) ==>
      NuevosHasta(base.Keys, alumnos, k + 1) && Creados(base.Keys, alumnos) == Creables(base.Keys, alumnos, k + 1)
    ensures (base + Cuentas(nombres, alumnos, k))[alumnos[k] := Cuenta(nombres[k], alumnos[k], {Prestatarios})]
         == base + Cuentas(nombres, alumnos, k + 1)
    ensures var antes := materias[materia := m.(alumnos := m.alumnos + Inscritos(alumnos, k))];
      antes[materia := antes[materia].(alumnos := antes[materia].alumnos + {alumnos[k]})]
        == materias[materia := m.(alumnos := m.alumnos + Inscritos(alumnos, k + 1))]
  {
    CuentasDeAlumnos(base.Keys, nombres, alumnos, k);
    NuevosAvance(base.Keys, alumnos, k);
    PasoCuentas(base, nombres, alumnos, k);
    PasoInscritos(materias, materia, m, alumnos, k);
  }

  /**
   * The student loop of `parsear_listas`: one borrower account per
   * username, named after the matching entry of `nombres`, with the
   * username as password, enrolled in the materia; stops at the first
   * username that is taken, keeping the `Creados` accounts made before it.
   */
  method CrearAlumnos(db: BaseDatos.BaseDatos, materia: string, nombres: seq<string>, alumnos: seq<Usuario>)
    returns (ok: bool)
    requires materia in db.materias && |alumnos| <= |nombres|
    modifies db`materias, db`usuarios
    ensures ok <==> Nuevos(old(db.usuarios).Keys, alumnos)
    ensures db.usuarios == old(db.usuarios) + Cuentas(nombres, alumnos, Creados(old(db.usuarios).Keys, alumnos))
    ensures db.materias == old(db.materias)[materia :=
      old(db.materias)[materia].(alumnos := old(db.materias)[materia].alumnos
                                            + Inscritos(alumnos, Creados(old(db.usuarios).Keys, alumnos)))]
  {
    ghost var m := old(db.materias)[materia];
    ghost var base := old(db.usuarios);
    CreadosSii(base.Keys, alumnos);
    assert db.materias[materia] == m.(alumnos := m.alumnos + Inscritos(alumnos, 0));
    var k := 0;
    while k < |alumnos|
      invariant 0 <= k <= |alumnos|
      invariant NuevosHasta(base.Keys, alumnos, k)
      invariant Creados(base.Keys, alumnos) == Creables(base.Keys, alumnos, k)
      invariant db.materias == old(db.materias)[materia := m.(alumnos := m.alumnos + Inscritos(alumnos, k))]
      invariant db.usuarios == base + Cuentas(nombres, alumnos, k)
    {
      PasoAlumno(base, old(db.materias), materia, m, nombres, alumnos, k);
      ok := InscribirAlumno(db, materia, nombres[k], alumnos[k]);
      if !ok {
        return;
      }
      k := k + 1;
    }
    ok := true;
  }

  /** The accounts of new usernames leave the existing accounts as they were. */
  lemma CuentasNoPisan(existentes: map<Usuario, Cuenta>, nombres: seq<string>, alumnos: seq<Usuario>, k: nat)
    requires k <= |alumnos| <= |nombres| && NuevosHasta(existentes.Keys, alumnos, k)
    ensures forall u :: u in existentes ==>
      u in existentes + Cuentas(nombres, alumnos, k) && (existentes + Cuentas(nombres, alumnos, k))[u] == existentes[u]
  {
    CuentasDeAlumnos(existentes.Keys, nombres, alumnos, k);
  }

  /** The materia after the teacher and then the students are added to the one `get_or_create` returned. */
  lemma MateriaFinal(materias: map<string, Materia>, nombre: string, m: Materia, maestro: Usuario, inscritos: set<Usuario>)
    ensures var conMateria := materias[nombre := m];
      var conMaestro := conMateria[nombre := conMateria[nombre].(maestros := conMateria[nombre].maestros + {maestro})];
      conMaestro[nombre := conMaestro[nombre].(alumnos := conMaestro[nombre].alumnos + inscritos)]
        == materias[nombre := m.(maestros := m.maestros + {maestro}, alumnos := m.alumnos + inscritos)]
  {
  }

  lemma ActualizarDosVeces<K, V>(m: map<K, V>, k: K, primero: V, segundo: V)
    ensures m[k := primero][k := segundo] == m[k := segundo]
  {
  }

  /**
   * The part of `parsear_listas` after `get_or_create`: the teacher's
   * account and enrolment, then the students'. Stops at the first taken
   * username; the accounts created before it stay.
   */
  method Altas(db: BaseDatos.BaseDatos, materia: string, nombreEmpleado: string, maestro: Usuario,
               nombres: seq<string>, alumnos: seq<Usuario>)
    returns (ok: bool)
    requires materia in db.materias && |alumnos| <= |nombres|
    modifies db`materias, db`usuarios
    ensures ok <==> AltasPosibles(old(db.usuarios).Keys, maestro, alumnos)
    ensures db.usuarios == UsuariosTrasAltas(old(db.usuarios), nombreEmpleado, maestro, nombres, alumnos)
    ensures db.materias == old(db.materias)[materia :=
      MateriaTrasAltas(old(db.materias)[materia], old(db.usuarios).Keys, maestro, alumnos)]
  {
    ok := InscribirMaestro(db, materia, nombreEmpleado, maestro);
    if !ok {
      return;
    }
    ghost var conMaestro := db.usuarios;
    ghost var m := old(db.materias)[materia];
    assert conMaestro.Keys == old(db.usuarios).Keys + {maestro};
    ok := CrearAlumnos(db, materia, nombres, alumnos);
    MateriaFinal(old(db.materias), materia, m, maestro,
      Inscritos(alumnos, Creados(old(db.usuarios).Keys + {maestro}, alumnos)));
  }

  /**
   * `parsear_listas`: gets or creates the materia, creates the teacher
   * (username and password the employee number) and enrols them, then
   * for each (name, student number) pair of `zip` creates a borrower
   * (username and password the number) and enrols them. The first
   * `IntegrityError` stops the command; what was created before it stays.
   */
  method ParsearListas(db: BaseDatos.BaseDatos, nombreMateria: string, anno: int, semestre: int,
                       noEmpleado: int, nombreEmpleado: string, nombres: seq<string>, matriculas: seq<int>)
    returns (r: Result<(), ErrorImportacion>)
    requires db.Valid()
    modifies db`materias, db`usuarios
    ensures db.Valid()
    ensures forall u :: u in old(db.usuarios) ==> u in db.usuarios && db.usuarios[u] == old(db.usuarios)[u]
    ensures !MateriaCompatible(old(db.materias), nombreMateria, anno, semestre) ==>
      r == Err(Integridad(BaseDatos.MateriaDuplicada))
      && db.materias == old(db.materias) && db.usuarios == old(db.usuarios)
    ensures var n := if |nombres| < |matriculas| then |nombres| else |matriculas|;
      var maestro := Texto.Texto(noEmpleado);
      var alumnos := Usernames(matriculas[..n]);
      MateriaCompatible(old(db.materias), nombreMateria, anno, semestre) ==>
        && (r.Ok? || r == Err(Integridad(BaseDatos.UsuarioDuplicado)))
        && db.materias == old(db.materias)[nombreMateria :=
             MateriaTrasAltas(MateriaInicial(old(db.materias), nombreMateria, anno, semestre),
                              old(db.usuarios).Keys, maestro, alumnos)]
        && db.usuarios == UsuariosTrasAltas(old(db.usuarios), nombreEmpleado, maestro, nombres, alumnos)
    ensures var n := if |nombres| < |matriculas| then |nombres| else |matriculas|;
      var maestro := Texto.Texto(noEmpleado);
      var alumnos := Usernames(matriculas[..n]);
      && (r.Ok? <==> MateriaCompatible(old(db.materias), nombreMateria, anno, semestre)
                     && AltasPosibles(old(db.usuarios).Keys, maestro, alumnos))
      && (r.Ok? ==>
            var m := MateriaInicial(old(db.materias), nombreMateria, anno, semestre);
            && db.materias == old(db.materias)[nombreMateria :=
                 m.(maestros := m.maestros + {maestro}, alumnos := m.alumnos + Inscritos(alumnos, |alumnos|))]
            && db.usuarios == old(db.usuarios)[maestro := Cuenta(nombreEmpleado, maestro, {Maestros})]
                              + Cuentas(nombres, alumnos, |alumnos|))
  {
    var n := if |nombres| < |matriculas| then |nombres| else |matriculas|;
    var creada := db.ObtenerOCrearMateria(nombreMateria, anno, semestre);
    if creada.Err? {
      db.ValidTrasMaterias();
      return Err(Integridad(creada.error));
    }
    ghost var m := MateriaInicial(old(db.materias), nombreMateria, anno, semestre);
    assert db.materias == old(db.materias)[nombreMateria := m];
    var maestro := Texto.Texto(noEmpleado);
    var alumnos := Usernames(matriculas[..n]);
    var ok := Altas(db, nombreMateria, nombreEmpleado, maestro, nombres, alumnos);
    db.ValidTrasMaterias();
    ActualizarDosVeces(old(db.materias), nombreMateria, m, MateriaTrasAltas(m, old(db.usuarios).Keys, maestro, alumnos));
    AltasNoPisan(old(db.usuarios), nombreEmpleado, maestro, nombres, alumnos);
    if !ok {
      return Err(Integridad(BaseDatos.UsuarioDuplicado));
    }
    AltasCompletas(old(db.usuarios), nombreEmpleado, maestro, nombres, alumnos, m);
    return Ok(());
  }

  /**
   * `importar_listas` on the cells it reads: the date cell gives year and
   * semester, the student rows give names and numbers, and `parsear_listas`
   * runs on them. Nothing is written when the date or a row fails.
   */
  method Importar(db: BaseDatos.BaseDatos, nombreMateria: string, fecha: string,
                  noEmpleado: int, nombreEmpleado: string, filas: seq<Fila>)
    returns (r: Result<(), ErrorImportacion>)
    requires db.Valid()
    modifies db`materias, db`usuarios
    ensures db.Valid()
    ensures FechaASemestre(fecha).Err? ==>
      r == Err(FechaASemestre(fecha).error) && db.materias == old(db.materias) && db.usuarios == old(db.usuarios)
    ensures FechaASemestre(fecha).Ok? && Recoleccion(filas).Err? ==>
      r == Err(Recoleccion(filas).error) && db.materias == old(db.materias) && db.usuarios == old(db.usuarios)
    ensures FechaASemestre(fecha).Ok? && Recoleccion(filas).Ok? ==>
      var (anno, semestre) := FechaASemestre(fecha).value;
      var (nombres, matriculas) := Recoleccion(filas).value;
      r.Ok? <==> MateriaCompatible(old(db.materias), nombreMateria, anno, semestre)
                 && AltasPosibles(old(db.usuarios).Keys, Texto.Texto(noEmpleado), Usernames(matriculas))
    ensures FechaASemestre(fecha).Ok? && Recoleccion(filas).Ok? ==>
      var (anno, semestre) := FechaASemestre(fecha).value;
      var (nombres, matriculas) := Recoleccion(filas).value;
      var maestro := Texto.Texto(noEmpleado);
      var alumnos := Usernames(matriculas);
      if MateriaCompatible(old(db.materias), nombreMateria, anno, semestre) then
        && db.materias == old(db.materias)[nombreMateria :=
             MateriaTrasAltas(MateriaInicial(old(db.materias), nombreMateria, anno, semestre),
                              old(db.usuarios).Keys, maestro, alumnos)]
        && db.usuarios == UsuariosTrasAltas(old(db.usuarios), nombreEmpleado, maestro, nombres, alumnos)
      else
        r == Err(Integridad(BaseDatos.MateriaDuplicada))
        && db.materias == old(db.materias) && db.usuarios == old(db.usuarios)
    ensures FechaASemestre(fecha).Ok? && Recoleccion(filas).Ok? && r.Ok? ==>
      var (anno, semestre) := FechaASemestre(fecha).value;
      var (nombres, matriculas) := Recoleccion(filas).value;
      var maestro := Texto.Texto(noEmpleado);
      var alumnos := Usernames(matriculas);
      var m := MateriaInicial(old(db.materias), nombreMateria, anno, semestre);
      && db.materias == old(db.materias)[nombreMateria :=
           m.(maestros := m.maestros + {maestro}, alumnos := m.alumnos + Inscritos(alumnos, |alumnos|))]
      && db.usuarios == old(db.usuarios)[maestro := Cuenta(nombreEmpleado, maestro, {Maestros})]
                        + Cuentas(nombres, alumnos, |alumnos|)
  {
    var periodo := FechaASemestre(fecha);
    if periodo.Err? {
      return Err(periodo.error);
    }
    var filasLeidas := RecolectarFilas(filas);
    if filasLeidas.Err? {
      return Err(filasLeidas.error);
    }
    var (nombres, matriculas) := filasLeidas.value;
    ConvertidasSii(ConNombre(filas), PrimeraCentinela(ConNombre(filas)).value);
    assert matriculas[..|matriculas|] == matriculas;
    r := ParsearListas(db, nombreMateria, periodo.value.0, periodo.value.1, noEmpleado, nombreEmpleado,
                       nombres, matriculas);
  }
}
