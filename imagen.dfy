/** The live image record (`ImagenInfo`: `ancho`, `alto`, `canales`, `pixeles[alto][ancho][canales]`)
    and the value-level views of a pixel buffer that the transforms are specified with. */
module Imagen {

  /** One channel value, stored as `unsigned char`. */
  type byte = x: int | 0 <= x < 256

  /** A pixel grid as a value: rows, then the pixels of a row, then the channel values of a pixel. */
  type Pixeles = seq<seq<seq<int>>>

  /** `p` holds `alto` rows of `ancho` pixels of `canales` values each. */
  predicate Forma(p: Pixeles, alto: int, ancho: int, canales: int)
  {
    |p| == alto &&
    (forall y :: 0 <= y < |p| ==> |p[y]| == ancho) &&
    (forall y, x :: 0 <= y < |p| && 0 <= x < |p[y]| ==> |p[y][x]| == canales)
  }

  /** Every channel value of `p` fits in a byte. */
  predicate EnBytes(p: Pixeles)
  {
    forall y, x, c :: 0 <= y < |p| && 0 <= x < |p[y]| && 0 <= c < |p[y][x]| ==> 0 <= p[y][x][c] <= 255
  }

  /** An image as a value: what an `ImagenInfo` with non-null `pixeles` denotes. */
  datatype Imagen = Imagen(ancho: int, alto: int, canales: int, px: Pixeles)

  predicate Bien(img: Imagen)
  {
    img.ancho >= 0 && img.alto >= 0 && img.canales >= 0 &&
    Forma(img.px, img.alto, img.ancho, img.canales) && EnBytes(img.px)
  }

  /** The all-black grid that a zero-filled allocation holds. */
  function Ceros(alto: nat, ancho: nat, canales: nat): (p: Pixeles)
    ensures Forma(p, alto, ancho, canales) && EnBytes(p)
    ensures forall y, x, c :: 0 <= y < alto && 0 <= x < ancho && 0 <= c < canales ==> p[y][x][c] == 0
  {
    seq(alto, y => seq(ancho, x => seq(canales, c => 0)))
  }

  /** The contents of a pixel buffer, read as a value. */
  ghost function Vista(a: array3<byte>): (p: Pixeles)
    reads a
    ensures Forma(p, a.Length0, a.Length1, a.Length2) && EnBytes(p)
    ensures forall y, x, c :: 0 <= y < a.Length0 && 0 <= x < a.Length1 && 0 <= c < a.Length2 ==>
      p[y][x][c] == a[y, x, c]
  {
    seq(a.Length0, y requires 0 <= y < a.Length0 reads a =>
      seq(a.Length1, x requires 0 <= x < a.Length1 reads a =>
        seq(a.Length2, c requires 0 <= c < a.Length2 reads a => a[y, x, c] as int)))
  }

  /** The buffer `a` holds the grid `p`: same shape, same value in every cell. */
  ghost predicate Contiene(a: array3<byte>, p: Pixeles)
    reads a
  {
    Forma(p, a.Length0, a.Length1, a.Length2) &&
    forall y, x, c :: 0 <= y < a.Length0 && 0 <= x < a.Length1 && 0 <= c < a.Length2 ==> a[y, x, c] == p[y][x][c]
  }

  /** A buffer holds exactly one grid, its view, and that grid is made of bytes. */
  lemma ContieneVista(a: array3<byte>, p: Pixeles)
    requires Contiene(a, p)
    ensures Vista(a) == p && EnBytes(p)
  {
    var v := Vista(a);
    forall y | 0 <= y < a.Length0
      ensures v[y] == p[y]
    {
      forall x | 0 <= x < a.Length1
        ensures v[y][x] == p[y][x]
      {
        assert |v[y][x]| == |p[y][x]|;
      }
    }
  }

  /** Two grids of the same shape that agree cell by cell are equal. */
  lemma PixelesExt(p: Pixeles, q: Pixeles, alto: int, ancho: int, canales: int)
    requires Forma(p, alto, ancho, canales) && Forma(q, alto, ancho, canales)
    requires forall y, x, c :: 0 <= y < alto && 0 <= x < ancho && 0 <= c < canales ==> p[y][x][c] == q[y][x][c]
    ensures p == q
  {
    forall y | 0 <= y < alto
      ensures p[y] == q[y]
    {
      forall x | 0 <= x < ancho
        ensures p[y][x] == q[y][x]
      {
        assert |p[y][x]| == |q[y][x]|;
      }
    }
  }

  /** The grid `antes` with its rows `[ini, fin)` replaced by those of `T`: what a worker
      that owns the destination rows `[ini, fin)` leaves behind. */
  function Filas(antes: Pixeles, T: Pixeles, ini: int, fin: int): Pixeles
    requires |antes| == |T|
  {
    seq(|antes|, y requires 0 <= y < |antes| => if ini <= y < fin then T[y] else antes[y])
  }

  /** Running a worker on `[ini, fin)` after rows `[0, hecho)` are done leaves rows
      `[0, max(hecho, fin))` done, provided the new range starts inside or ends inside the done part. */
  lemma FilasExtiende(A: Pixeles, T: Pixeles, hecho: int, ini: int, fin: int)
    requires |A| == |T| && 0 <= ini && (ini <= hecho || fin <= hecho)
    ensures Filas(Filas(A, T, 0, hecho), T, ini, fin) == Filas(A, T, 0, if hecho < fin then fin else hecho)
  {
  }

  /** Once every row is done the grid is the target. */
  lemma FilasTodas(A: Pixeles, T: Pixeles, h: int)
    requires |A| == |T| && h >= |T|
    ensures Filas(A, T, 0, h) == T
  {
  }

  /** Lexicographic progress of a row-major (row, pixel, channel) loop nest that started at row `ini`
      and is now at `(y, x, c)`: the cell `(yy, xx, cc)` has already been written. */
  predicate Escrita(ini: int, y: int, x: int, c: int, yy: int, xx: int, cc: int)
  {
    ini <= yy < y || (yy == y && (xx < x || (xx == x && cc < c)))
  }

  /** The buffer holds `T` on the cells already written and `antes` on all others. */
  ghost predicate Progreso(a: array3<byte>, T: Pixeles, antes: Pixeles, ini: int, y: int, x: int, c: int)
    reads a
    requires Forma(T, a.Length0, a.Length1, a.Length2) && Forma(antes, a.Length0, a.Length1, a.Length2)
  {
    forall yy, xx, cc :: 0 <= yy < a.Length0 && 0 <= xx < a.Length1 && 0 <= cc < a.Length2 ==>
      a[yy, xx, cc] == if Escrita(ini, y, x, c, yy, xx, cc) then T[yy][xx][cc] else antes[yy][xx][cc]
  }

  /** The worker's store `a[y, x, c] := v` of the target value moves the progress one cell forward. */
  method Escribir(a: array3<byte>, ghost T: Pixeles, ghost antes: Pixeles, ghost ini: int, y: int, x: int, c: int, v: byte)
    requires Forma(T, a.Length0, a.Length1, a.Length2) && Forma(antes, a.Length0, a.Length1, a.Length2)
    requires 0 <= ini <= y < a.Length0 && 0 <= x < a.Length1 && 0 <= c < a.Length2 && v == T[y][x][c]
    requires Progreso(a, T, antes, ini, y, x, c)
    modifies a
    ensures Progreso(a, T, antes, ini, y, x, c + 1)
  {
    a[y, x, c] := v;
  }

  /** Past the last channel of a pixel is the start of the next pixel. */
  lemma ProgresoPixel(a: array3<byte>, T: Pixeles, antes: Pixeles, ini: int, y: int, x: int)
    requires Forma(T, a.Length0, a.Length1, a.Length2) && Forma(antes, a.Length0, a.Length1, a.Length2)
    requires Progreso(a, T, antes, ini, y, x, a.Length2)
    ensures Progreso(a, T, antes, ini, y, x + 1, 0)
  {
  }

  /** A pixel whose target already is what the buffer holds needs no store: the progress moves past it. */
  lemma ProgresoSinEscribir(a: array3<byte>, T: Pixeles, antes: Pixeles, ini: int, y: int, x: int)
    requires Forma(T, a.Length0, a.Length1, a.Length2) && Forma(antes, a.Length0, a.Length1, a.Length2)
    requires 0 <= y < a.Length0 && 0 <= x < a.Length1
    requires forall c :: 0 <= c < a.Length2 ==> T[y][x][c] == antes[y][x][c]
    requires Progreso(a, T, antes, ini, y, x, 0)
    ensures Progreso(a, T, antes, ini, y, x + 1, 0)
  {
  }

  /** Past the last pixel of a row is the start of the next row. */
  lemma ProgresoFila(a: array3<byte>, T: Pixeles, antes: Pixeles, ini: int, y: int)
    requires Forma(T, a.Length0, a.Length1, a.Length2) && Forma(antes, a.Length0, a.Length1, a.Length2)
    requires ini <= y && Progreso(a, T, antes, ini, y, a.Length1, 0)
    ensures Progreso(a, T, antes, ini, y + 1, 0, 0)
  {
  }

  /** A worker loop nest that has passed the last row of its range `[ini, fin)` has produced `Filas`. */
  lemma ProgresoFinal(a: array3<byte>, T: Pixeles, antes: Pixeles, ini: int, fin: int, y: int)
    requires Forma(T, a.Length0, a.Length1, a.Length2) && Forma(antes, a.Length0, a.Length1, a.Length2)
    requires ini <= y && (ini <= fin ==> y == fin) && (fin < ini ==> y == ini)
    requires Progreso(a, T, antes, ini, y, 0, 0)
    ensures Contiene(a, Filas(antes, T, ini, fin))
  {
  }

  /** The live image. `pixeles == null` means that no image is loaded. */
  class ImagenInfo {
    var ancho: int
    var alto: int
    var canales: int
    var pixeles: array3?<byte>

    /** `ImagenInfo x = {0};` */
    constructor Vacia()
      ensures ancho == 0 && alto == 0 && canales == 0 && pixeles == null
    {
      ancho, alto, canales, pixeles := 0, 0, 0, null;
    }

    /** A loaded image has exactly `alto` rows of `ancho` pixels of `canales` bytes. */
    ghost predicate Valid()
      reads this
    {
      pixeles != null ==>
        pixeles.Length0 == alto && pixeles.Length1 == ancho && pixeles.Length2 == canales
    }

    /** The loaded image as a value. */
    ghost function Modelo(): (m: Imagen)
      reads this, pixeles
      requires Valid() && pixeles != null
      ensures Bien(m) && m.ancho == ancho && m.alto == alto && m.canales == canales
    {
      Imagen(ancho, alto, canales, Vista(pixeles))
    }
  }

  /** A fresh buffer with every byte 0 (the black fill of an allocation that zero-initialises). */
  method NuevaMatrizCeros(alto: nat, ancho: nat, canales: nat) returns (m: array3<byte>)
    ensures fresh(m) && m.Length0 == alto && m.Length1 == ancho && m.Length2 == canales
    ensures Contiene(m, Ceros(alto, ancho, canales))
  {
    m := new byte[alto, ancho, canales];
    var y := 0;
    while y < alto
      invariant 0 <= y <= alto
      invariant forall yy, xx, cc :: 0 <= yy < y && 0 <= xx < ancho && 0 <= cc < canales ==> m[yy, xx, cc] == 0
    {
      var x := 0;
      while x < ancho
        invariant 0 <= x <= ancho
        invariant forall yy, xx, cc :: (0 <= yy < alto && 0 <= xx < ancho && 0 <= cc < canales &&
          (yy < y || (yy == y && xx < x))) ==> m[yy, xx, cc] == 0
      {
        var c := 0;
        while c < canales
          invariant 0 <= c <= canales
          invariant forall yy, xx, cc :: (0 <= yy < alto && 0 <= xx < ancho && 0 <= cc < canales &&
            (yy < y || (yy == y && (xx < x || (xx == x && cc < c))))) ==> m[yy, xx, cc] == 0
        {
          m[y, x, c] := 0;
          c := c + 1;
        }
        x := x + 1;
      }
      y := y + 1;
    }
  }
}

/** What the transforms ask of the C library and the operating system, reduced to whether it succeeds. */
module Plataforma {

  /** `malloc`: the request may fail (the result is NULL); nothing else about the outcome is known. */
  method Malloc() returns (ok: bool)
  {
    ok :| true;
  }

  /** `pthread_create`: starting a worker may fail. */
  method PthreadCreate() returns (ok: bool)
  {
    ok :| true;
  }
}
