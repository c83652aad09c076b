# PEMA loan rules in Dafny

PEMA is a Django application for lending audiovisual equipment at a
university. Students (*prestatarios*) fill a cart (*carrito*) and check it
out as an order (*orden*). The order's co-signers (*corresponsables*)
accept or reject it. Teachers or coordinators then authorize it, and the
warehouse (*almacén*) hands it out and may report it.

This project models the domain rules of that system and proves properties
about them:

- which units are free in a time window (`Articulo.disponible`);
- the co-signers' verdict and the order state machine driven by the
  post-save signal handlers;
- the cart upsert and the checkout;
- reports and suspension;
- the loan-window validation of the catalogue filter form;
- the string logic and account creation of the `importar_listas`
  management command.

The ORM is modelled as in-memory tables: the fields of the class
`BaseDatos.BaseDatos`, each a `map` keyed as the model's primary key or
`unique_together` constraint keys it. On these tables:

- a relation's `add` is a set union;
- `get_or_create` is lookup-or-insert;
- `create` on a key that is already taken is an `IntegrityError`, modelled
  as an `Err` result or a `false` flag.

Times in the models are integers. The form works on (day number, minute of
day) with 1970-01-01 as day 0. "Today" is a parameter.

Modules, one per file:

| file | module | models |
|---|---|---|
| wrappers.dfy | `Wrappers` | `Option` and `Result` |
| texto.dfy | `Texto` | `str.split`, `int(s)` and `str(n)` |
| entidades.dfy | `Entidades` | the records of PEMA/models.py as values |
| disponibilidad.dfy | `Disponibilidad` | the booking-conflict rule as a specification |
| corresponsables.dfy | `Corresponsables` | `Autorizacion` (a class) and `estado_corresponsables` |
| carrito.dfy | `CarritoTabla` | the cart's per-article quantity table |
| reportes.dfy | `Reportes` | `reportar`, `reportes` and `suspendido` |
| base_datos.dfy | `BaseDatos` | the tables and the model methods that change them |
| senales.dfy | `Senales` | the post-save handlers of PEMA/signals.py |
| formularios.dfy | `Formularios` | `FiltrosForm` |
| listas_texto.dfy | `ListasTexto` | the date split and the name-cleaning regex |
| importar_listas.dfy | `ImportarListas` | row collection and account creation |

## Model

| member | source | states |
|---|---|---|
| Texto.Dividir | PEMA/management/commands/importar_listas.py:34 | `split('/')` yields one piece more than there are separators, and no piece holds a separator |
| Texto.UnirDividir | PEMA/management/commands/importar_listas.py:34 | joining the pieces of a split with the separator gives back the string |
| Texto.DividirUnir | PEMA/management/commands/importar_listas.py:34 | splitting a join of separator-free pieces gives back the pieces |
| Texto.AEntero | PEMA/management/commands/importar_listas.py:36-37 | `int(s)` succeeds exactly on a non-empty run of decimal digits, optionally after a sign |
| Texto.AEnteroTexto | PEMA/management/commands/importar_listas.py:82-83 | `int(str(n)) == n` for every integer |
| Texto.TextoInyectivo | PEMA/management/commands/importar_listas.py:82-83 | distinct numbers have distinct `str` texts, so a student number is a usable username |
| Entidades.TipoExclusivo | PEMA/models.py:624-628 | an order is exactly one of ordinary and extraordinary |
| Disponibilidad.LibreSii | PEMA/models.py:483-506 | a unit is returned iff no approved, conflicting order holds a unit with its control number |
| Disponibilidad.ConflictoSiiTraslape | PEMA/models.py:498-499 | for proper intervals, the five conflict clauses mean exactly that the open intervals overlap |
| Disponibilidad.TerminaAlInicioSinConflicto | PEMA/models.py:498-499 | an order ending exactly at the requested start does not conflict |
| Disponibilidad.SoloAprobadasBloquean | PEMA/models.py:493 | a unit whose control number occurs only in orders that are not approved is free, whatever the window |
| Disponibilidad.OrdenNoAprobadaIndiferente | PEMA/models.py:493 | adding or changing an order that is not approved leaves the free units as they were |
| Disponibilidad.NuevaOrdenSoloReduce | PEMA/models.py:493-506 | adding an order can only shrink the free set |
| Disponibilidad.UnidadesLibresDeArticulo | PEMA/models.py:483-506 | a unit is returned iff it is one of the article's own units and no approved conflicting order holds it. The tests additionally treat pending orders as blocking, which contradicts models.py:493 |
| Disponibilidad.FixtureQs1 | PEMA/tests/models/test_articulo.py:177-178 | on the test fixture, article 1 over [0, 5] keeps units 1, 2 and 4, where the test expects none: pending orders hold them |
| Disponibilidad.FixtureQs2 | PEMA/tests/models/test_articulo.py:180-181 | article 2 over [0, 5] keeps units 5, 7 and 8, where the test expects 7 and 8 only: a pending order holds unit 5 |
| Disponibilidad.FixtureQs3 | PEMA/tests/models/test_articulo.py:183-184 | article 1 over [-1, 2] keeps all four units, where the test expects 3 and 4 only: pending orders hold units 1 and 2 |
| Disponibilidad.FixtureQs4 | PEMA/tests/models/test_articulo.py:186-187 | article 2 over [-1, 1] keeps units 5, 7 and 8, as the test expects |
| Disponibilidad.FixtureQs5 | PEMA/tests/models/test_articulo.py:189-190 | article 1 over [2, 4] keeps units 1, 2 and 4, as the test expects |
| Disponibilidad.FixtureQs6 | PEMA/tests/models/test_articulo.py:192-193 | article 2 over [1, 4] keeps units 5, 7 and 8, where the test expects 7 and 8 only: a pending order holds unit 5 |
| Disponibilidad.FixtureAprobadas | PEMA/tests/models/test_articulo.py:91-141 | orders 3 and 6 are the fixture's only approved orders, over [3, 5] and [-1, 6] |
| Disponibilidad.LibresDeArticuloCoincide | PEMA/models.py:502-506 | where control numbers are unique in the table, the per-article rule is the code's rule restricted to the article |
| Disponibilidad.DisponibleIncluyeOtrosArticulos | PEMA/models.py:506 | the code returns units of other articles too |
| Disponibilidad.BloqueoCruzaArticulos | PEMA/models.py:502-506 | booking a unit blocks another article's unit that has the same control number |
| Corresponsables.Autorizacion.constructor | PEMA/models.py:883 | a new authorization is pending |
| Corresponsables.Autorizacion.Aceptar | PEMA/models.py:894-895 | after `aceptar`, only `aceptada` holds |
| Corresponsables.Autorizacion.Rechazar | PEMA/models.py:897-898 | after `rechazar`, only `rechazada` holds |
| Corresponsables.Autorizacion.EstaPendiente | PEMA/models.py:885-886 | holds iff the estado is PENDIENTE |
| Corresponsables.Autorizacion.EstaAceptada | PEMA/models.py:888-889 | holds iff the estado is ACEPTADA |
| Corresponsables.Autorizacion.EstaRechazada | PEMA/models.py:891-892 | holds iff the estado is RECHAZADA |
| Corresponsables.ExactamenteUnEstado | PEMA/models.py:885-892 | exactly one of `esta_pendiente`, `aceptada` and `rechazada` holds |
| Corresponsables.Veredicto | PEMA/models.py:654-670 | rejected iff a co-signer rejected; otherwise pending iff one is pending; accepted iff every state is accepted; none iff there are no co-signers |
| Corresponsables.VeredictoListaCoincide | PEMA/models.py:655-656 | a left-to-right fold over the answers gives the set-based verdict |
| Corresponsables.VeredictoSoloDependeDelConjunto | PEMA/models.py:656 | the verdict depends only on which states occur, not on their order or multiplicity |
| Corresponsables.VeredictoLocal | PEMA/models.py:655 | rows of another order do not change an order's verdict |
| CarritoTabla.Posicion | PEMA/models.py:736-741 | the lookup finds the first row for the article, or reports that there is none |
| CarritoTabla.AgregarAusente | PEMA/models.py:736-740 | on an absent article, `agregar` appends exactly one row with the given quantity |
| CarritoTabla.AgregarPresente | PEMA/models.py:742-743 | on a present article, the number of rows and their articles are unchanged, that row's quantity is overwritten, and every other row is left exactly as it was |
| CarritoTabla.AgregarSinRepetidos | PEMA/models.py:728-743 | the upsert never creates a second row for an article |
| CarritoTabla.CantidadTrasAgregar | PEMA/models.py:728-743 | read as a map, the cart sends the article to the new quantity and keeps every other article |
| CarritoTabla.AgregarIdempotente | PEMA/models.py:728-743 | repeating the same `agregar` changes nothing more |
| CarritoTabla.EscenarioAgregar | PEMA/tests/models/test_carrito.py:20-31 | one row, still one after re-adding the article, two after another article |
| Reportes.ReportarNuevo | PEMA/models.py:692-704 | a first report on (almacén, orden) creates one active row and keeps the others |
| Reportes.ReportarIdempotente | PEMA/models.py:692-704 | repeating `reportar` with the same arguments creates nothing |
| Reportes.ReportarOtraDescripcion | PEMA/models.py:794 | a second report on the pair with another description fails |
| Reportes.ReporteSuspende | PEMA/models.py:116-123 | once an order is reported, with any description, each of its co-signers is suspended |
| Reportes.SinReporteActivoNoSuspendido | PEMA/models.py:116-123 | without an active report on a co-signed order there is no suspension |
| Reportes.Suspendido | PEMA/models.py:79-123 | `suspendido()`: some report on an order the borrower co-signs is active |
| Reportes.SuspendidoSii | PEMA/models.py:79-123 | suspended iff an active report exists on an order the borrower co-signs |
| BaseDatos.Solicitudes | PEMA/models.py:204-208 | one pending request per authorizer, carrying the order's type, and nothing else |
| BaseDatos.EscenarioArticulos | PEMA/models.py:636-652 | adding a unit twice keeps one copy; `articulos()` lists each of two articles once |
| BaseDatos.ArticulosDe | PEMA/models.py:636-640 | an article is among the order's articles iff the join yields at least one row for it |
| BaseDatos.ArticuloRepetido | PEMA/models.py:636-640 | two units of one article make `articulos()` yield that article twice |
| BaseDatos.BaseDatos.Destinatarios | PEMA/signals.py:55-60 | an ordinary order's requests go to exactly the users listed as teachers of its materia that are still in the teachers' group (`materia.maestros()` reads through `Maestro`'s group-filtered manager, models.py:186-190 and 396-400), an extraordinary order's to exactly the users in the coordinators' group |
| BaseDatos.BaseDatos.Disponible | PEMA/models.py:483-506 | the loops compute exactly `UnidadesLibres` on the current tables |
| BaseDatos.BaseDatos.DisponibleDeArticulo | PEMA/models.py:483-506 | the scan restricted to the article's own units, blocking the units the approved conflicting orders hold, computes exactly `UnidadesLibresDeArticulo` on the current tables |
| BaseDatos.BaseDatos.UnidadesEnConflicto | PEMA/models.py:493-501 | the collected unit sets together are the units of the approved conflicting orders |
| BaseDatos.BaseDatos.AnadirControles | PEMA/models.py:502-504 | the appended list holds the old control numbers plus those of the given units |
| BaseDatos.BaseDatos.AgregarUnidad | PEMA/models.py:648-652 | the unit is added to the order's units, with set semantics |
| BaseDatos.BaseDatos.AgregarPrestatario | PEMA/models.py:621-622 | the borrower is added to the order's co-signers |
| BaseDatos.BaseDatos.FijarEstado | PEMA/signals.py:66 | only that order's estado changes |
| BaseDatos.BaseDatos.Agregar | PEMA/models.py:728-743 | the borrower's cart becomes `CarritoTabla.Agregar` of its rows, and the table invariant holds |
| BaseDatos.BaseDatos.Ordenar | PEMA/models.py:753-777 | one fresh order (ordinary, pending co-signers, copied fields, borrower as co-signer), one pending co-signer row, cart deleted, nothing else |
| BaseDatos.BaseDatos.Reportar | PEMA/models.py:692-704 | the table and the result are those of `Reportes.Reportar`; on the error the table is unchanged |
| BaseDatos.BaseDatos.CrearAutorizaciones | PEMA/models.py:144-148 | succeeds iff no (orden, authorizer) pair exists; the rows created before a failure stay |
| BaseDatos.BaseDatos.SolicitarAutorizacionMaestros | PEMA/models.py:204-208 | requests go to exactly the listed teachers of the order's materia that are still in the teachers' group (models.py:186-190, 396-400); a listed user outside that group gets none; `ok` iff none of them already had one |
| BaseDatos.BaseDatos.SolicitarAutorizacionCoordinadores | PEMA/models.py:144-148 | requests go to every coordinator |
| BaseDatos.BaseDatos.ObtenerOCrearMateria | PEMA/management/commands/importar_listas.py:73 | found with the same year and semester, created when absent, `IntegrityError` on the key otherwise |
| BaseDatos.BaseDatos.AgregarMaestro | PEMA/models.py:415-420 | adds the teacher to the materia |
| BaseDatos.BaseDatos.AgregarAlumno | PEMA/models.py:422-427 | adds the student to the materia |
| BaseDatos.BaseDatos.AgregarArticulo | PEMA/models.py:408-413 | adds the article to the materia |
| BaseDatos.BaseDatos.CrearUsuario | PEMA/models.py:227-235 | fails iff the username exists; otherwise adds one account in the role's group |
| Senales.EstadoTrasCorresponsables | PEMA/signals.py:49-63 | accepted gives PENDIENTE_AP, rejected gives RECHAZADA, pending or none keeps the estado |
| Senales.EstadoTrasAutorizacion | PEMA/signals.py:81-85 | accepted gives APROBADA, rejected gives RECHAZADA, pending keeps the estado |
| Senales.UltimaDecisionPrevalece | PEMA/signals.py:46 | an order's estado is whatever the last decisive save wrote; no decision is final |
| Senales.AprobadaNoEsDefinitiva | PEMA/signals.py:79-87 | an approved order can be rejected later, and the reverse; a cancelled order is overwritten by a later decisive save too, since nothing guards its estado |
| Senales.CanceladaSoloSiInicial | PEMA/signals.py:49-87 | the handlers never write CANCELADA: an order ends cancelled iff it started cancelled and no save was decisive, so a later decisive save overwrites a cancelled order |
| Senales.CorresponsableOrdenGuardado | PEMA/signals.py:25-66 | nothing on creation; otherwise the verdict's estado is saved; on acceptance the requests go out first, to the `Destinatarios` of the order (listed teachers still in the teachers' group, or every coordinator), and a duplicate request aborts the save |
| Senales.ResponderCorresponsable | PEMA/signals.py:38-66 | the co-signer's row takes the answer and the handler runs on the updated rows: the whole new state as `CorresponsableOrdenGuardado` gives it (on acceptance by all, PENDIENTE_AP and the requests to the `Destinatarios`, or nothing saved when a request already exists; otherwise the verdict's estado and no request), and a rejection always gives RECHAZADA with no request |
| Senales.AutorizacionOrdenGuardada | PEMA/signals.py:69-87 | nothing on creation; otherwise the order of the saved row `(orden, autorizador)` takes `EstadoTrasAutorizacion` of that row's estado, and nothing else changes |
| Senales.ResponderAutorizacion | PEMA/models.py:894-898 | the authorizer's row takes the answer, every other row is unchanged, and the handler then gives its order `EstadoTrasAutorizacion` of the answer |
| Formularios.DiaSemanaCalendario | PEMA/forms.py:123 | day 0 is a Thursday and weekdays cycle every seven days |
| Formularios.ParseFormatoHora | PEMA/forms.py:94 | parsing `HH:MM:00` gives back the minute of the day |
| Formularios.OpcionesManana | PEMA/forms.py:64-69 | the 09:00 to 11:30 choices are minutes 540 + 30i |
| Formularios.OpcionesMediodia | PEMA/forms.py:70-75 | the 12:00 to 14:30 choices are minutes 540 + 30i |
| Formularios.OpcionesTarde | PEMA/forms.py:76-81 | the 15:00 to 17:30 choices are minutes 540 + 30i |
| Formularios.OpcionesNoche | PEMA/forms.py:82-86 | the 18:00 to 20:00 choices are minutes 540 + 30i |
| Formularios.ParseOpcion | PEMA/forms.py:63-87 | the start hours run from 09:00 to 20:00 in 30-minute steps |
| Formularios.Devolucion | PEMA/forms.py:94-98 | the return moment is the start date at the chosen hour plus the duration in hours |
| Formularios.CleanInicio | PEMA/forms.py:113-129 | accepted iff a weekday at least three days from today, and returned unchanged; otherwise the matching error, weekend first |
| Formularios.ComprobarDevolucion | PEMA/forms.py:100-109 | passes iff the return's hour is in 7..20 and its day is a weekday |
| Formularios.CleanHoraInicio | PEMA/forms.py:89-111 | raises when `duracion` or `inicio` is missing from `cleaned_data`; otherwise returns the hour, or the return check's error |
| Formularios.CleanHoraInicioCorregido | PEMA/forms.py:89-111 | never raises; without both inputs it adds no error; otherwise it gives the return check's result |
| Formularios.ValidarFiltros | PEMA/forms.py:45-129 | the form raises iff `duracion` is missing or `clean_inicio` failed |
| Formularios.ValidarFiltrosCorregido | PEMA/forms.py:89-129 | the corrected form never raises |
| Formularios.ValidarFiltrosCorregidoSii | PEMA/forms.py:89-129 | the corrected form is valid iff the start is a weekday three days ahead and the return is a weekday in office hours |
| Formularios.CorregidoCoincide | PEMA/forms.py:89-129 | when the start is valid, the form as written and the corrected form agree |
| Formularios.InicioSabadoLanzaExcepcion | PEMA/forms.py:92-97 | a Saturday start makes the form raise instead of reporting the weekend error |
| Formularios.DuracionEnDias | PEMA/forms.py:96-98 | a duration of whole days returns at the start hour that many days later |
| Formularios.DuracionCortaEnHorario | PEMA/forms.py:100-105 | for a duration under a day, the hour check passes iff the return is before 21:00 |
| Formularios.DevolucionVeinteYMedia | PEMA/forms.py:103 | a 20:30 return passes the hour check |
| ListasTexto.FechaASemestre | PEMA/management/commands/importar_listas.py:33-40 | `IndexError` iff fewer than three fields; the semester is 1 or 2 |
| ListasTexto.FechaASemestreCampos | PEMA/management/commands/importar_listas.py:33-40 | for any fields `m` and `y` that `int()` accepts, `d/m/y` gives year `int(y)`, and semester 1 iff `int(m) < 7` |
| ListasTexto.FechaASemestreDigitos | PEMA/management/commands/importar_listas.py:33-40 | a date with digit-only month and year, zero-padded or not (`16/08/2023`), gives the year's decimal value, and semester 1 iff the month's value is below 7 |
| ListasTexto.FechaASemestreTexto | PEMA/management/commands/importar_listas.py:33-40 | a date whose month and year are written by `str` gives back that year, and semester 1 iff the month is below 7 |
| ListasTexto.DiaIndiferente | PEMA/management/commands/importar_listas.py:34-40 | the day field never affects the result |
| ListasTexto.LimpiarNombre | PEMA/management/commands/importar_listas.py:65 | the substitution never lengthens the name |
| ListasTexto.LimpiarNombreIntactoSii | PEMA/management/commands/importar_listas.py:51-65 | a name is left unchanged iff "digits + two blanks" occurs nowhere in it |
| ListasTexto.SinDigitosIntacto | PEMA/management/commands/importar_listas.py:65 | a name without digits is unchanged |
| ListasTexto.LimpiarPrefijo | PEMA/management/commands/importar_listas.py:65 | a leading number and two blanks are removed |
| ListasTexto.LimpiarNombreConNumero | PEMA/management/commands/importar_listas.py:65 | "number + two blanks + name" cleans to the name |
| ListasTexto.LimpiarNoIdempotente | PEMA/management/commands/importar_listas.py:65 | one pass can leave a new occurrence behind |
| ImportarListas.ConNombreFiltra | PEMA/management/commands/importar_listas.py:48 | `dropna` keeps exactly the rows that have a name |
| ImportarListas.PrimeraCentinela | PEMA/management/commands/importar_listas.py:54 | finds the first row named `Fecha/Hora`, or reports that there is none |
| ImportarListas.ConvertidasSii | PEMA/management/commands/importar_listas.py:60-67 | the rows convert iff every student number does; row j gives entry j of both lists |
| ImportarListas.RecoleccionSii | PEMA/management/commands/importar_listas.py:45-67 | no sentinel raises; otherwise success iff every number before it converts, giving equal-length lists of cleaned names and numbers |
| ImportarListas.RecolectarFilas | PEMA/management/commands/importar_listas.py:56-67 | the row loop computes `Recoleccion` |
| ImportarListas.Usernames | PEMA/management/commands/importar_listas.py:82 | one username per number, its `str` text |
| ImportarListas.UsernamesDistintos | PEMA/management/commands/importar_listas.py:82 | usernames are equal iff the numbers are equal |
| ImportarListas.InscribirMaestro | PEMA/management/commands/importar_listas.py:76-78 | the teacher's account and enrolment, or nothing when the username exists |
| ImportarListas.InscribirAlumno | PEMA/management/commands/importar_listas.py:82-85 | one student's account and enrolment, or nothing when the username exists |
| ImportarListas.CreablesSii | PEMA/management/commands/importar_listas.py:81-85 | the student loop stops after a prefix of new, distinct usernames, at the end of the list or at a username already taken |
| ImportarListas.CreadosSii | PEMA/management/commands/importar_listas.py:81-85 | the loop creates the first `Creados` students, all new; it creates every student iff all usernames are new and distinct; otherwise the next username is taken before the import or repeats an earlier one |
| ImportarListas.PasoAlumno | PEMA/management/commands/importar_listas.py:82-85 | at each step the username is taken exactly where the loop stops; otherwise the step creates and enrols the next student |
| ImportarListas.CrearAlumnos | PEMA/management/commands/importar_listas.py:81-85 | succeeds iff every username is new and distinct; in every case the accounts and enrolments are exactly those of the first `Creados` students |
| ImportarListas.CuentasDeAlumnos | PEMA/management/commands/importar_listas.py:81-83 | one account per username, named after the matching name, with the username as password |
| ImportarListas.CuentasNoPisan | PEMA/management/commands/importar_listas.py:81-83 | the new accounts leave the existing ones as they were |
| ImportarListas.UsuariosTrasAltas | PEMA/management/commands/importar_listas.py:76-85 | the accounts after the import's account part keep every existing username |
| ImportarListas.AltasCompletas | PEMA/management/commands/importar_listas.py:76-85 | when every account is new, the import creates the teacher and every student and enrols them all |
| ImportarListas.AltasNoPisan | PEMA/management/commands/importar_listas.py:76-85 | the import never alters an account that existed before it, whatever the outcome |
| ImportarListas.ReimportarFalla | PEMA/management/commands/importar_listas.py:76-78 | whatever the outcome, the teacher's username exists afterwards, so importing again fails at the teacher |
| ImportarListas.Altas | PEMA/management/commands/importar_listas.py:76-85 | succeeds iff every account is new; in every case the tables are exactly `UsuariosTrasAltas` and `MateriaTrasAltas`: nothing when the teacher's username is taken, otherwise the teacher and the first `Creados` students |
| ImportarListas.ParsearListas | PEMA/management/commands/importar_listas.py:71-85 | an incompatible materia fails with nothing written; otherwise the materia from `get_or_create` and the accounts are exactly `MateriaTrasAltas` and `UsuariosTrasAltas`, and the run succeeds iff every account is new, with the full materia and accounts; old accounts are never altered |
| ImportarListas.Importar | PEMA/management/commands/importar_listas.py:19-85 | a bad date or bad rows write nothing; otherwise the tables are exactly those `parsear_listas` leaves on the collected values, success iff it succeeds, and on success the materia and accounts hold the teacher and every student |

## Left out

- `Orden.entregar`, `Orden.recibir` and `Orden.reporte`: single `get_or_create` or `first()` calls on tables no modelled rule reads.
- The order fields `nombre`, `lugar`, `descripcion_lugar`, `descripcion` and `emision`: no modelled rule reads them. `Ordenar` does not model the order's name string.
- Passwords are stored as given: hashing by `create_user` is not modelled.
- `Perfil`, `crear_grupo`, the permission tables, and the `user_post_save` handler that creates a profile.
- `send_mail` and the `autorizacion_orden_created` handler: network I/O.
- Views, URLs, admin, templates and the static script: UI and routing.
- `pd.read_excel`: the cells are given as strings, and the employee number as an integer.
- Queryset ordering: orders, units, teachers and coordinators are scanned as sets, in an unspecified order. The contracts hold for every order. When a creation fails part-way, which rows were created first depends on that order, and the contracts say only that they are a subset.
- The `transaction.atomic` block of `ordenar` is a single method; concurrency is not modelled.
- Texto.AEntero: Python's `int` also accepts surrounding whitespace, underscores between digits and non-ASCII decimal digits. The model accepts only an optional sign followed by ASCII digits.
- ListasTexto.LimpiarNombre: `\d` also matches non-ASCII decimal digits in Python. The model matches ASCII digits only.
- Formularios.ParseHora: `strptime` also accepts one-digit hours and minutes. Only the two-digit form of the choices is modelled. The seconds are checked and dropped, since every choice has zero seconds.
- Formularios.CleanHoraInicio: requires `hora` to be one of the choices. Django's `_clean_fields` calls `clean_hora_inicio` only after the `ChoiceField` of `hora_inicio` accepted the value, so no other value reaches it.
- Framework field validation (required fields, `ChoiceField` membership, the `materia` field) is not modelled beyond `duracion` being present or absent.
- Disponibilidad.UnidadesLibres: the code returns every unit of the table. The article's own units are `UnidadesLibresDeArticulo`, and the gap is listed under Findings. The tests of `test_disponible` also expect pending orders to block, which contradicts PEMA/models.py:493; `FixtureQs1` to `FixtureQs6` record which of its assertions the approved-only rule meets.

## Findings

| source | as written | input that shows it | evidently intended | confidence | as-written member | corrected member |
|---|---|---|---|---|---|---|
| PEMA/models.py:506 | `disponible` returns the free units of every article, not only of `self` | article 1 with unit 1 and article 2 with unit 7, no orders: the result holds unit 7 | only the article's own units, as the method's name and docstring say (the tests additionally treat pending orders as blocking, which contradicts PEMA/models.py:493) | high, not executed | Disponibilidad.DisponibleIncluyeOtrosArticulos | Disponibilidad.UnidadesLibresDeArticulo |
| PEMA/models.py:502-506 | units are blocked by `num_control`, which is unique only per article | unit 1 of article 1 and unit 2 of article 2, both with control number "7", and an approved order holding unit 1 over the window: unit 2 is blocked | block the units the conflicting orders hold | medium, not executed | Disponibilidad.BloqueoCruzaArticulos | Disponibilidad.UnidadesLibresDeArticulo |
| PEMA/forms.py:92-97 | `clean_hora_inicio` reads `inicio` from `cleaned_data`, which lacks it after `clean_inicio` failed, so `datetime.combine(None, …)` raises `TypeError` | start on Saturday 1970-01-03 (day 2), today day 0, duration 1 hour, 09:00 | report the weekend error and leave the hour check out | high, not executed | Formularios.InicioSabadoLanzaExcepcion | Formularios.ValidarFiltrosCorregido |
