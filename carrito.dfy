/**
 * The per-article quantity table of a cart (`Carrito._articulos`, rows of
 * `ArticuloCarrito`) and the upsert `Carrito.agregar` performs on it
 * (PEMA/models.py:728-743).
 */
module CarritoTabla {
  import opened Wrappers
  import opened Entidades

  /** No two rows of the cart name the same article (so `_articulos.get(articulo=…)` finds one row). */
  predicate SinRepetidos(filas: seq<ArticuloCarrito>) {
    forall i, j :: 0 <= i < j < |filas| ==> filas[i].articulo != filas[j].articulo
  }

  /** The first row for `articulo`, as `_articulos.filter(articulo=articulo)` finds it. */
  function Posicion(filas: seq<ArticuloCarrito>, articulo: ArticuloId): (r: Option<nat>)
    ensures r.Some? ==> r.value < |filas| && filas[r.value].articulo == articulo
    ensures r.Some? ==> forall i :: 0 <= i < r.value ==> filas[i].articulo != articulo
    ensures r.None? <==> forall i :: 0 <= i < |filas| ==> filas[i].articulo != articulo
  {
    if filas == [] then None
    else if filas[0].articulo == articulo then Some(0)
    else match Posicion(filas[1..], articulo)
      case None => None
      case Some(i) => Some(i + 1)
  }

  /** The quantity the cart asks for of `articulo`, if it has a row for it. */
  function Cantidad(filas: seq<ArticuloCarrito>, articulo: ArticuloId): Option<int> {
    match Posicion(filas, articulo)
    case None => None
    case Some(i) => Some(filas[i].unidades)
  }

  /**
   * `agregar(articulo, unidades)`: a new row at the end when the article is
   * absent, otherwise that row's `unidades` overwritten in place.
   */
  function Agregar(filas: seq<ArticuloCarrito>, articulo: ArticuloId, unidades: int): seq<ArticuloCarrito> {
    match Posicion(filas, articulo)
    case None => filas + [ArticuloCarrito(articulo, unidades)]
    case Some(i) => filas[i := filas[i].(unidades := unidades)]
  }

  /** On an absent article: exactly one row more, holding the given quantity. */
  lemma AgregarAusente(filas: seq<ArticuloCarrito>, articulo: ArticuloId, unidades: int)
    requires Cantidad(filas, articulo).None?
    ensures |Agregar(filas, articulo, unidades)| == |filas| + 1
    ensures Agregar(filas, articulo, unidades)[..|filas|] == filas
    ensures Agregar(filas, articulo, unidades)[|filas|] == ArticuloCarrito(articulo, unidades)
  {
  }

  /** On a present article: the same number of rows, only that row's quantity changed. */
  lemma AgregarPresente(filas: seq<ArticuloCarrito>, articulo: ArticuloId, unidades: int)
    requires SinRepetidos(filas)
    requires Cantidad(filas, articulo).Some?
    ensures |Agregar(filas, articulo, unidades)| == |filas|
    ensures forall i :: 0 <= i < |filas| ==>
      Agregar(filas, articulo, unidades)[i].articulo == filas[i].articulo &&
      (filas[i].articulo != articulo || Agregar(filas, articulo, unidades)[i].unidades == unidades)
    ensures forall i :: 0 <= i < |filas| && filas[i].articulo != articulo ==>
      Agregar(filas, articulo, unidades)[i] == filas[i]
  {
  }

  /** The upsert keeps the cart free of repeated articles. */
  lemma AgregarSinRepetidos(filas: seq<ArticuloCarrito>, articulo: ArticuloId, unidades: int)
    requires SinRepetidos(filas)
    ensures SinRepetidos(Agregar(filas, articulo, unidades))
  {
    var r := Agregar(filas, articulo, unidades);
    if Posicion(filas, articulo).None? {
      forall i, j | 0 <= i < j < |r| ensures r[i].articulo != r[j].articulo {
        if j == |filas| {
          assert r[i] == filas[i];
        } else {
          assert r[i] == filas[i] && r[j] == filas[j];
        }
      }
    }
  }

  /** Looking `b` up in a cart that was extended by a row for another article finds what it found before. */
  lemma {:induction false} PosicionTrasAnadir(filas: seq<ArticuloCarrito>, fila: ArticuloCarrito, b: ArticuloId)
    requires fila.articulo != b
    ensures Posicion(filas + [fila], b) == Posicion(filas, b)
  {
    if filas != [] {
      assert (filas + [fila])[1..] == filas[1..] + [fila];
      PosicionTrasAnadir(filas[1..], fila, b);
    }
  }

  /**
   * Read as a table from article to quantity, the cart after `agregar` maps
   * `articulo` to `unidades` and every other article to what it had.
   */
  lemma CantidadTrasAgregar(filas: seq<ArticuloCarrito>, articulo: ArticuloId, unidades: int, b: ArticuloId)
    ensures Cantidad(Agregar(filas, articulo, unidades), b) == if b == articulo then Some(unidades) else Cantidad(filas, b)
  {
    var r := Agregar(filas, articulo, unidades);
    match Posicion(filas, articulo)
    case None =>
      if b == articulo {
        assert r[|filas|].articulo == b;
        assert Posicion(r, b).Some?;
        assert Posicion(r, b).value == |filas|;
      } else {
        PosicionTrasAnadir(filas, ArticuloCarrito(articulo, unidades), b);
      }
    case Some(i) =>
      assert forall k :: 0 <= k < |r| ==> r[k].articulo == filas[k].articulo;
      PosicionMismosArticulos(filas, r, b);
  }

  /** Two carts listing the same articles in the same order find each article at the same row. */
  lemma {:induction false} PosicionMismosArticulos(f: seq<ArticuloCarrito>, g: seq<ArticuloCarrito>, b: ArticuloId)
    requires |f| == |g| && forall k :: 0 <= k < |f| ==> f[k].articulo == g[k].articulo
    ensures Posicion(f, b) == Posicion(g, b)
  {
    if f != [] {
      PosicionMismosArticulos(f[1..], g[1..], b);
    }
  }

  /** Repeating the same `agregar` changes nothing more. */
  lemma AgregarIdempotente(filas: seq<ArticuloCarrito>, articulo: ArticuloId, unidades: int)
    ensures Agregar(Agregar(filas, articulo, unidades), articulo, unidades) == Agregar(filas, articulo, unidades)
  {
    var r := Agregar(filas, articulo, unidades);
    CantidadTrasAgregar(filas, articulo, unidades, articulo);
    var i := Posicion(r, articulo).value;
    assert r[i].unidades == unidades;
    assert r[i := r[i].(unidades := unidades)] == r;
  }

  /**
   * The sequence of PEMA/tests/models/test_carrito.py:20-31: one row, still
   * one after re-adding the same article, two after another article.
   */
  lemma EscenarioAgregar(a: ArticuloId, b: ArticuloId)
    requires a != b
    ensures |Agregar([], a, 1)| == 1
    ensures |Agregar(Agregar([], a, 1), a, 2)| == 1
    ensures |Agregar(Agregar(Agregar([], a, 1), a, 2), b, 3)| == 2
  {
    var uno := Agregar([], a, 1);
    var dos := Agregar(uno, a, 2);
    assert Posicion(uno, a) == Some(0);
    assert Posicion(dos, b).None?;
  }
}
