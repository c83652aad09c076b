/**
 * The records of PEMA/models.py as values. The database tables that hold
 * them are the fields of `BaseDatos.BaseDatos`; here are only the rows.
 */
module Entidades {

  /** A user is identified by its username: a student's matrícula or an employee number. */
  type Usuario = string
  type OrdenId = nat
  type UnidadId = nat
  type ArticuloId = nat
  /** A point in time; the models only compare and copy them. */
  type Instante = int

  datatype TipoOrden = Ordinaria | Extraordinaria

  /** `EstadoOrden`: "PC", "PA", "RE", "AP", "CN". */
  datatype EstadoOrden = PendienteCr | PendienteAp | Rechazada | Aprobada | Cancelada

  /** `Autorizacion.Estado`: "PN", "RE", "AC". */
  datatype EstadoAutorizacion = Pendiente | Rechazada | Aceptada

  /** `Reporte.Estado` and `Unidad.Estado`: "AC", "IN". */
  datatype EstadoRegistro = Activo | Inactivo

  /** The permission groups the user classes filter on. */
  datatype Grupo = Prestatarios | Maestros | Coordinadores | Almacenes

  datatype Unidad = Unidad(articulo: ArticuloId, numControl: string, numSerie: string, estado: EstadoRegistro)

  /**
   * An `Orden` row with its two many-to-many relations: the co-signers
   * (`_corresponsables`) and the units it was supplied with (`_unidades`).
   */
  datatype Orden = Orden(
    prestatario: Usuario,
    materia: string,
    tipo: TipoOrden,
    estado: EstadoOrden,
    inicio: Instante,
    final: Instante,
    corresponsables: set<Usuario>,
    unidades: set<UnidadId>)

  predicate EsOrdinaria(o: Orden) {
    o.tipo == Ordinaria
  }

  predicate EsExtraordinaria(o: Orden) {
    o.tipo == Extraordinaria
  }

  lemma TipoExclusivo(o: Orden)
    ensures EsOrdinaria(o) != EsExtraordinaria(o)
  {
  }

  /** `ArticuloCarrito`: how many units of an article a cart asks for. */
  datatype ArticuloCarrito = ArticuloCarrito(articulo: ArticuloId, unidades: int)

  /** A `Carrito` row; `articulos` is its `_articulos` relation, in insertion order. */
  datatype Carrito = Carrito(materia: string, inicio: Instante, final: Instante, articulos: seq<ArticuloCarrito>)

  datatype Reporte = Reporte(estado: EstadoRegistro, descripcion: string)

  datatype AutorizacionOrden = AutorizacionOrden(estado: EstadoAutorizacion, tipo: TipoOrden)

  /** A `Materia` row (its key, `nombre`, is the table's key) with its three relations. */
  datatype Materia = Materia(
    year: int,
    semestre: int,
    activa: bool,
    articulos: set<ArticuloId>,
    alumnos: set<Usuario>,
    maestros: set<Usuario>)

  /** A `User` row: first name, password and permission groups. */
  datatype Cuenta = Cuenta(nombre: string, password: string, grupos: set<Grupo>)
}
