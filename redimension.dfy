/** Bilinear resizing (functions/resize.c): every destination pixel samples the source at the position
    given by the ratio of the two extents minus one, blends the four neighbouring source pixels, rounds
    and clamps to a byte; a worker per destination row range. */
module Redimension {
  import opened Imagen
  import opened Numerico
  import opened Particion
  import Plataforma

  // ---------- Pure per-pixel logic ----------

  /** The source step per destination step along one axis, `(src - 1) / (dst - 1)`, or 0 when either
      side has a single row (or column). */
  function Escala(src: int, dst: int): (e: real)
    ensures e >= 0.0
    ensures src <= 1 || dst <= 1 ==> e == 0.0
    ensures src > 1 && dst > 1 ==> e * (dst - 1) as real == (src - 1) as real
  {
    if src > 1 && dst > 1 then (src - 1) as real / (dst - 1) as real else 0.0
  }

  /** Where destination index `d` samples a source axis of `n` entries: the entry below, `i0`,
      the entry after it, `i1` (the last entry at the far edge), and the weight `w` of `i1`. */
  datatype Muestreo = Muestreo(i0: int, i1: int, w: real)

  /** The sampling of destination index `d` with step `e`: `i0` is the floor of `e * d`,
      `i1 = min(i0 + 1, n - 1)` and `w` the fractional part. */
  function Muestra(e: real, n: int, d: int): (s: Muestreo)
    requires e >= 0.0 && d >= 0
    ensures 0 <= s.i0 && s.i0 as real <= e * d as real < s.i0 as real + 1.0
    ensures s.i1 == if s.i0 + 1 < n then s.i0 + 1 else n - 1
    ensures s.w == e * d as real - s.i0 as real && 0.0 <= s.w < 1.0
  {
    var pos := e * d as real;
    assert pos >= 0.0;
    var i0 := pos.Floor;
    Muestreo(i0, if i0 + 1 >= n then n - 1 else i0 + 1, pos - i0 as real)
  }

  /** The sampling of destination index `d` on an axis resized from `n` to `m` entries. */
  function MuestraEje(n: int, m: int, d: int): (s: Muestreo)
    requires d >= 0
  {
    Muestra(Escala(n, m), n, d)
  }

  /** The same sampling in integers: `i0 = d * (n - 1) div (m - 1)` and the weight is the remainder
      over `m - 1`. */
  lemma MuestraEntera(n: int, m: int, d: int)
    requires n > 1 && m > 1 && d >= 0
    ensures MuestraEje(n, m, d).i0 == d * (n - 1) / (m - 1)
    ensures MuestraEje(n, m, d).w == ((d * (n - 1)) % (m - 1)) as real / (m - 1) as real
  {
    var e := Escala(n, m);
    var a := d * (n - 1);
    var b := m - 1;
    var f := (a % b) as real / b as real;
    PosicionPorPaso(n, m, d);
    RestoFraccion(a, b);
    Cancelar(e * d as real, (a / b) as real + f, b as real);
    MuestraPosicion(e, n, d, a / b, f);
  }

  /** A sampling position that is an integer `q` plus a fraction `f` samples entry `q` with weight `f`. */
  lemma MuestraPosicion(e: real, n: int, d: int, q: int, f: real)
    requires e >= 0.0 && d >= 0 && 0.0 <= f < 1.0 && e * d as real == q as real + f
    ensures Muestra(e, n, d).i0 == q && Muestra(e, n, d).w == f
  {
  }

  /** The sampling position times `m - 1` is the integer `d * (n - 1)`. */
  lemma PosicionPorPaso(n: int, m: int, d: int)
    requires n > 1 && m > 1
    ensures (Escala(n, m) * d as real) * (m - 1) as real == (d * (n - 1)) as real
  {
    var e := Escala(n, m);
    EscalaPorEntero(e, (m - 1) as real, d as real, (n - 1) as real);
    ProductoReal(d, n - 1);
  }

  lemma ProductoReal(x: int, y: int)
    ensures (x * y) as real == x as real * y as real
  {
  }

  lemma EscalaPorEntero(e: real, b: real, d: real, n1: real)
    requires e * b == n1
    ensures (e * d) * b == n1 * d
  {
  }

  /** `a / b == q + (a % b) / b` over the reals, with the fraction in `[0, 1)`. */
  lemma RestoFraccion(a: int, b: int)
    requires b > 0
    ensures var f := (a % b) as real / b as real;
      0.0 <= f < 1.0 && ((a / b) as real + f) * b as real == a as real
  {
    var q, r := a / b, a % b;
    var f := r as real / b as real;
    assert f * b as real == r as real;
    ProductoReal(q, b);
    assert a == q * b + r;
    if f >= 1.0 {
      MulNoNeg(f - 1.0, b as real);
    }
  }

  /** For a destination index inside an axis of `m >= 1` entries, both sampled source entries lie
      inside the source axis of `n >= 1` entries, and `i1` is `i0` or the entry after it. */
  lemma MuestraAcotada(n: int, m: int, d: int)
    requires n >= 1 && m >= 1 && 0 <= d < m
    ensures 0 <= MuestraEje(n, m, d).i0 <= MuestraEje(n, m, d).i1 <= n - 1
    ensures MuestraEje(n, m, d).i1 <= MuestraEje(n, m, d).i0 + 1
  {
    if n > 1 && m > 1 {
      MuestraEntera(n, m, d);
      ProductoMonotono(d, m - 1, n - 1);
      assert (m - 1) * (n - 1) == (n - 1) * (m - 1);
      DivAcotada(d * (n - 1), m - 1, n - 1);
    }
  }

  /** Resizing an axis to its own length samples every entry exactly, with weight 0. */
  lemma MuestraIdentidad(n: int, d: int)
    requires n >= 1 && 0 <= d < n
    ensures MuestraEje(n, n, d).i0 == d && MuestraEje(n, n, d).w == 0.0
  {
    if n > 1 {
      var k := (n - 1) as real;
      assert Escala(n, n) == k / k;
      assert (k / k) * k == 1.0 * k;
      Cancelar(k / k, 1.0, k);
      MuestraPosicion(1.0, n, d, d, 0.0);
    } else {
      MuestraPosicion(0.0, n, d, d, 0.0);
    }
  }

  /** The channel value written for one destination pixel: `clampToByte((int)round(...))` of the blend.
      It is a byte, and when the four neighbours are bytes it lies between the least and the greatest
      of them, so the clamp never changes it. */
  function ValorBilineal(p00: int, p10: int, p01: int, p11: int, wx: real, wy: real): (v: int)
    requires 0.0 <= wx <= 1.0 && 0.0 <= wy <= 1.0
    ensures 0 <= v <= 255
    ensures 0 <= p00 <= 255 && 0 <= p10 <= 255 && 0 <= p01 <= 255 && 0 <= p11 <= 255 ==>
      Menor4(p00, p10, p01, p11) <= v <= Mayor4(p00, p10, p01, p11) &&
      v == Redondear(Bilineal(p00, p10, p01, p11, wx, wy))
  {
    var r := Redondear(Bilineal(p00, p10, p01, p11, wx, wy));
    BilinealEntre(p00, p10, p01, p11, wx, wy);
    ClampToByte(r)
  }

  /** A blend of four equal values is that value. */
  lemma BilinealUniforme(v: int, wx: real, wy: real)
    requires 0 <= v <= 255 && 0.0 <= wx <= 1.0 && 0.0 <= wy <= 1.0
    ensures ValorBilineal(v, v, v, v, wx, wy) == v
  {
    RedondearEntero(v);
  }

  /** Channel `c` of destination pixel `(y, x)` when the `srcAlto x srcAncho` grid `P` is resized to
      `dstAlto x dstAncho`. */
  function ResizePixel(P: Pixeles, canales: int, srcAlto: int, srcAncho: int, dstAlto: int, dstAncho: int,
                       y: int, x: int, c: int): (v: int)
    requires srcAlto >= 1 && srcAncho >= 1 && Forma(P, srcAlto, srcAncho, canales)
    requires 0 <= y < dstAlto && 0 <= x < dstAncho && 0 <= c < canales
    ensures 0 <= v <= 255
  {
    var my := MuestraEje(srcAlto, dstAlto, y);
    var mx := MuestraEje(srcAncho, dstAncho, x);
    MuestraAcotada(srcAlto, dstAlto, y);
    MuestraAcotada(srcAncho, dstAncho, x);
    ValorBilineal(P[my.i0][mx.i0][c], P[my.i0][mx.i1][c], P[my.i1][mx.i0][c], P[my.i1][mx.i1][c], mx.w, my.w)
  }

  /** The resized grid. */
  function Redimensionar(P: Pixeles, canales: nat, srcAlto: int, srcAncho: int, dstAlto: nat, dstAncho: nat): (R: Pixeles)
    requires srcAlto >= 1 && srcAncho >= 1 && Forma(P, srcAlto, srcAncho, canales)
    ensures Forma(R, dstAlto, dstAncho, canales) && EnBytes(R)
  {
    seq(dstAlto, y requires 0 <= y < dstAlto =>
      seq(dstAncho, x requires 0 <= x < dstAncho =>
        seq(canales, c requires 0 <= c < canales => ResizePixel(P, canales, srcAlto, srcAncho, dstAlto, dstAncho, y, x, c))))
  }

  /** Resizing a byte grid to its own extents gives it back unchanged. */
  lemma RedimensionarIdentidad(P: Pixeles, canales: nat, alto: nat, ancho: nat)
    requires alto >= 1 && ancho >= 1 && Forma(P, alto, ancho, canales) && EnBytes(P)
    ensures Redimensionar(P, canales, alto, ancho, alto, ancho) == P
  {
    var R := Redimensionar(P, canales, alto, ancho, alto, ancho);
    forall y, x, c | 0 <= y < alto && 0 <= x < ancho && 0 <= c < canales
      ensures R[y][x][c] == P[y][x][c]
    {
      MuestraIdentidad(alto, y);
      MuestraIdentidad(ancho, x);
      RedondearEntero(P[y][x][c]);
    }
    PixelesExt(R, P, alto, ancho, canales);
  }

  /** Every pixel of the resized grid is a blend of the source pixels it samples: each channel lies between
      the least and the greatest value of that channel among the (at most four) sampled pixels. */
  lemma RedimensionarEntreVecinos(P: Pixeles, canales: nat, srcAlto: int, srcAncho: int, dstAlto: nat, dstAncho: nat,
                                  y: int, x: int, c: int)
    requires srcAlto >= 1 && srcAncho >= 1 && Forma(P, srcAlto, srcAncho, canales) && EnBytes(P)
    requires 0 <= y < dstAlto && 0 <= x < dstAncho && 0 <= c < canales
    ensures var my, mx := MuestraEje(srcAlto, dstAlto, y), MuestraEje(srcAncho, dstAncho, x);
      0 <= my.i0 <= my.i1 < srcAlto && 0 <= mx.i0 <= mx.i1 < srcAncho &&
      Menor4(P[my.i0][mx.i0][c], P[my.i0][mx.i1][c], P[my.i1][mx.i0][c], P[my.i1][mx.i1][c])
        <= Redimensionar(P, canales, srcAlto, srcAncho, dstAlto, dstAncho)[y][x][c] <=
      Mayor4(P[my.i0][mx.i0][c], P[my.i0][mx.i1][c], P[my.i1][mx.i0][c], P[my.i1][mx.i1][c])
  {
    MuestraAcotada(srcAlto, dstAlto, y);
    MuestraAcotada(srcAncho, dstAncho, x);
  }

  /** A grid whose pixels are all equal stays so, at any size. */
  lemma RedimensionarUniforme(P: Pixeles, canales: nat, srcAlto: int, srcAncho: int, dstAlto: nat, dstAncho: nat)
    requires srcAlto >= 1 && srcAncho >= 1 && Forma(P, srcAlto, srcAncho, canales) && EnBytes(P)
    requires forall y, x :: 0 <= y < srcAlto && 0 <= x < srcAncho ==> P[y][x] == P[0][0]
    ensures forall y, x :: 0 <= y < dstAlto && 0 <= x < dstAncho ==>
      Redimensionar(P, canales, srcAlto, srcAncho, dstAlto, dstAncho)[y][x] == P[0][0]
  {
    var R := Redimensionar(P, canales, srcAlto, srcAncho, dstAlto, dstAncho);
    forall y, x | 0 <= y < dstAlto && 0 <= x < dstAncho
      ensures R[y][x] == P[0][0]
    {
      forall c | 0 <= c < canales
        ensures R[y][x][c] == P[0][0][c]
      {
        var my, mx := MuestraEje(srcAlto, dstAlto, y), MuestraEje(srcAncho, dstAncho, x);
        MuestraAcotada(srcAlto, dstAlto, y);
        MuestraAcotada(srcAncho, dstAncho, x);
        assert P[my.i0][mx.i0] == P[my.i0][mx.i1] == P[my.i1][mx.i0] == P[my.i1][mx.i1] == P[0][0];
        BilinealUniforme(P[0][0][c], mx.w, my.w);
      }
    }
  }

  /** The whole transform on values: the extents become the requested ones and the channel count
      is kept. */
  function Redimensionada(img: Imagen, nuevoAncho: nat, nuevoAlto: nat): (r: Imagen)
    requires Bien(img) && img.alto >= 1 && img.ancho >= 1
    ensures Bien(r) && r.ancho == nuevoAncho && r.alto == nuevoAlto && r.canales == img.canales
  {
    Imagen(nuevoAncho, nuevoAlto, img.canales,
           Redimensionar(img.px, img.canales, img.alto, img.ancho, nuevoAlto, nuevoAncho))
  }

  /** Resizing an image to its own extents leaves it as it was. */
  lemma RedimensionadaIdentidad(img: Imagen)
    requires Bien(img) && img.alto >= 1 && img.ancho >= 1
    ensures Redimensionada(img, img.ancho, img.alto) == img
  {
    RedimensionarIdentidad(img.px, img.canales, img.alto, img.ancho);
  }

  /** `T` is the resized grid, stated cell by cell; the quantifier is instantiated only where the value of
      a particular channel is at hand. */
  ghost predicate EsRedimension(T: Pixeles, P: Pixeles, canales: int, srcAlto: int, srcAncho: int,
                                dstAlto: int, dstAncho: int)
    requires srcAlto >= 1 && srcAncho >= 1 && Forma(P, srcAlto, srcAncho, canales)
  {
    Forma(T, dstAlto, dstAncho, canales) &&
    forall y, x, c {:trigger ResizePixel(P, canales, srcAlto, srcAncho, dstAlto, dstAncho, y, x, c)} ::
      0 <= y < dstAlto && 0 <= x < dstAncho && 0 <= c < canales ==>
        T[y][x][c] == ResizePixel(P, canales, srcAlto, srcAncho, dstAlto, dstAncho, y, x, c)
  }

  /** The resized grid is the one grid that `EsRedimension` describes. */
  lemma EsRedimensionUnico(T: Pixeles, P: Pixeles, canales: nat, srcAlto: int, srcAncho: int,
                           dstAlto: nat, dstAncho: nat)
    requires srcAlto >= 1 && srcAncho >= 1 && Forma(P, srcAlto, srcAncho, canales)
    ensures EsRedimension(T, P, canales, srcAlto, srcAncho, dstAlto, dstAncho) <==>
            T == Redimensionar(P, canales, srcAlto, srcAncho, dstAlto, dstAncho)
  {
    var R := Redimensionar(P, canales, srcAlto, srcAncho, dstAlto, dstAncho);
    if EsRedimension(T, P, canales, srcAlto, srcAncho, dstAlto, dstAncho) {
      forall y, x, c | 0 <= y < dstAlto && 0 <= x < dstAncho && 0 <= c < canales
        ensures T[y][x][c] == R[y][x][c]
      {
        assert T[y][x][c] == ResizePixel(P, canales, srcAlto, srcAncho, dstAlto, dstAncho, y, x, c);
      }
      PixelesExt(T, R, dstAlto, dstAncho, canales);
    }
    if T == R {
      forall y, x, c | 0 <= y < dstAlto && 0 <= x < dstAncho && 0 <= c < canales
        ensures T[y][x][c] == ResizePixel(P, canales, srcAlto, srcAncho, dstAlto, dstAncho, y, x, c)
      {
      }
    }
  }

  // ---------- Buffers and workers ----------

  /** `ResizeArgs`: both grids with their extents and the worker's destination rows `[filaInicio, filaFin)`. */
  datatype ArgumentosResize = ArgumentosResize(srcPixeles: array3<byte>, dstPixeles: array3<byte>,
                                               srcAncho: int, srcAlto: int, canales: int,
                                               dstAncho: int, dstAlto: int, filaInicio: int, filaFin: int)

  /** The inner `c` loop body of `resizeBilinealHilo`: the four reads, the blend, the rounding and the clamp. */
  method InterpolarCanal(src: array3<byte>, ghost P: Pixeles, my: Muestreo, mx: Muestreo, c: int)
    returns (v: byte)
    requires 0 <= my.i0 < src.Length0 && 0 <= my.i1 < src.Length0
    requires 0 <= mx.i0 < src.Length1 && 0 <= mx.i1 < src.Length1 && 0 <= c < src.Length2
    requires 0.0 <= mx.w <= 1.0 && 0.0 <= my.w <= 1.0
    requires Contiene(src, P)
    ensures v == ValorBilineal(P[my.i0][mx.i0][c], P[my.i0][mx.i1][c], P[my.i1][mx.i0][c], P[my.i1][mx.i1][c],
                               mx.w, my.w)
  {
    var p00: int := src[my.i0, mx.i0, c];
    var p10: int := src[my.i0, mx.i1, c];
    var p01: int := src[my.i1, mx.i0, c];
    var p11: int := src[my.i1, mx.i1, c];
    var top := p00 as real + mx.w * (p10 as real - p00 as real);
    var bottom := p01 as real + mx.w * (p11 as real - p01 as real);
    assert top + my.w * (bottom - top) == Bilineal(p00, p10, p01, p11, mx.w, my.w);
    var value := Redondear(top + my.w * (bottom - top));
    v := ClampToByte(value);
    assert p00 == P[my.i0][mx.i0][c] && p10 == P[my.i0][mx.i1][c] && p01 == P[my.i1][mx.i0][c] && p11 == P[my.i1][mx.i1][c];
  }

  /** `resizeBilinealHilo`: where `A.srcPixeles` holds `P` and `A.dstPixeles` holds `antes`, writes the
      resized grid `T` into the destination rows `[filaInicio, filaFin)` and leaves every other row as it was. */
  method ResizeBilinealHilo(A: ArgumentosResize, ghost P: Pixeles, ghost T: Pixeles, ghost antes: Pixeles)
    requires A.srcPixeles != A.dstPixeles && A.srcAlto >= 1 && A.srcAncho >= 1 && A.canales >= 0
    requires A.srcPixeles.Length0 == A.srcAlto && A.srcPixeles.Length1 == A.srcAncho && A.srcPixeles.Length2 == A.canales
    requires A.dstPixeles.Length0 == A.dstAlto && A.dstPixeles.Length1 == A.dstAncho && A.dstPixeles.Length2 == A.canales
    requires 0 <= A.filaInicio && A.filaFin <= A.dstAlto
    requires Contiene(A.srcPixeles, P) && Contiene(A.dstPixeles, antes)
    requires EsRedimension(T, P, A.canales, A.srcAlto, A.srcAncho, A.dstAlto, A.dstAncho)
    modifies A.dstPixeles
    ensures Contiene(A.dstPixeles, Filas(antes, T, A.filaInicio, A.filaFin))
  {
    var D := A.dstPixeles;
    var scaleX := Escala(A.srcAncho, A.dstAncho);
    var scaleY := Escala(A.srcAlto, A.dstAlto);
    var y := A.filaInicio;
    while y < A.filaFin
      invariant A.filaInicio <= y && (A.filaInicio <= A.filaFin ==> y <= A.filaFin)
      invariant A.filaFin < A.filaInicio ==> y == A.filaInicio
      invariant Progreso(D, T, antes, A.filaInicio, y, 0, 0)
    {
      var my := Muestra(scaleY, A.srcAlto, y);
      MuestraAcotada(A.srcAlto, A.dstAlto, y);
      var x := 0;
      while x < A.dstAncho
        invariant 0 <= x <= A.dstAncho
        invariant Progreso(D, T, antes, A.filaInicio, y, x, 0)
      {
        var mx := Muestra(scaleX, A.srcAncho, x);
        MuestraAcotada(A.srcAncho, A.dstAncho, x);
        var c := 0;
        while c < A.canales
          invariant 0 <= c <= A.canales
          invariant Progreso(D, T, antes, A.filaInicio, y, x, c)
        {
          var v := InterpolarCanal(A.srcPixeles, P, my, mx, c);
          assert v == ResizePixel(P, A.canales, A.srcAlto, A.srcAncho, A.dstAlto, A.dstAncho, y, x, c);
          Escribir(D, T, antes, A.filaInicio, y, x, c, v);
          c := c + 1;
        }
        ProgresoPixel(D, T, antes, A.filaInicio, y, x);
        x := x + 1;
      }
      ProgresoFila(D, T, antes, A.filaInicio, y);
      y := y + 1;
    }
    ProgresoFinal(D, T, antes, A.filaInicio, A.filaFin, y);
  }

  // ---------- The transform ----------

  /** The state of the worker loop once the destination rows `[0, hecho)` are finished: `S` holds the
      source grid `P`, `T` is the resized grid, and `D` holds `T` on the finished rows and its initial
      contents `inicial` elsewhere. */
  ghost predicate EstadoResize(S: array3<byte>, D: array3<byte>, P: Pixeles, T: Pixeles, inicial: Pixeles,
                               srcAncho: int, srcAlto: int, canales: int, dstAncho: int, dstAlto: int, hecho: int)
    reads S, D
  {
    S != D && srcAlto >= 1 && srcAncho >= 1 && canales >= 0 &&
    S.Length0 == srcAlto && S.Length1 == srcAncho && S.Length2 == canales &&
    D.Length0 == dstAlto && D.Length1 == dstAncho && D.Length2 == canales &&
    Contiene(S, P) && EsRedimension(T, P, canales, srcAlto, srcAncho, dstAlto, dstAncho) &&
    |inicial| == dstAlto && Contiene(D, Filas(inicial, T, 0, hecho))
  }

  /** Starting worker `i` of the loop: its rows are `RangoHiloAcotado(i, k, dstAlto)`. When the start
      succeeds the worker runs to completion, which extends the finished rows from
      `[0, min(i * k, dstAlto))` to `[0, min((i + 1) * k, dstAlto))`. */
  method LanzarHiloResize(S: array3<byte>, D: array3<byte>, ghost P: Pixeles, ghost T: Pixeles, ghost inicial: Pixeles,
                          srcAncho: int, srcAlto: int, canales: int, dstAncho: int, dstAlto: int, i: int, k: int)
    returns (creado: bool)
    requires i >= 0 && k >= 0 && dstAlto >= 0
    requires EstadoResize(S, D, P, T, inicial, srcAncho, srcAlto, canales, dstAncho, dstAlto, Hechas(i, k, dstAlto))
    modifies D
    ensures creado ==> EstadoResize(S, D, P, T, inicial, srcAncho, srcAlto, canales, dstAncho, dstAlto,
                                    Hechas(i + 1, k, dstAlto))
  {
    var r := RangoHiloAcotado(i, k, dstAlto);
    var args := ArgumentosResize(S, D, srcAncho, srcAlto, canales, dstAncho, dstAlto, r.ini, r.fin);
    creado := Plataforma.PthreadCreate();
    if creado {
      assert 0 <= i * k by { ProductoNoNegativo(i, k); }
      HechasEs(i, k, dstAlto);
      HechasEs(i + 1, k, dstAlto);
      ghost var hecho := Hechas(i, k, dstAlto);
      FilasExtiende(inicial, T, hecho, r.ini, r.fin);
      ResizeBilinealHilo(args, P, T, Filas(inicial, T, 0, hecho));
    }
  }

  /** The thread tables and one worker per destination row range, from the source `S` into `D`.
      False when the tables cannot be allocated or a worker cannot be started; otherwise `D` holds `T`. */
  method EjecutarHilosResize(S: array3<byte>, D: array3<byte>, ghost P: Pixeles, ghost T: Pixeles, ghost inicial: Pixeles,
                             srcAncho: int, srcAlto: int, canales: int, dstAncho: int, dstAlto: int, n: int)
    returns (ok: bool)
    requires 1 <= n && dstAlto >= 0
    requires EstadoResize(S, D, P, T, inicial, srcAncho, srcAlto, canales, dstAncho, dstAlto, 0)
    modifies D
    ensures ok ==> Contiene(D, T)
  {
    ok := Plataforma.Malloc();
    if !ok {
      return;
    }
    var k := FilasPorHilo(dstAlto, n);
    var i := 0;
    while i < n
      invariant 0 <= i <= n
      invariant EstadoResize(S, D, P, T, inicial, srcAncho, srcAlto, canales, dstAncho, dstAlto, Hechas(i, k, dstAlto))
      modifies D
    {
      var creado := LanzarHiloResize(S, D, P, T, inicial, srcAncho, srcAlto, canales, dstAncho, dstAlto, i, k);
      if !creado {
        return false;
      }
      i := i + 1;
    }
    HechasTodas(dstAlto, n);
    FilasTodas(inicial, T, dstAlto);
  }

  /** The allocation and the workers of `resizeBilinealConcurrente` for a source buffer `S` holding `P`:
      the new buffer holding the resized grid, or null when an allocation or a worker start failed. */
  method RedimensionEnHilos(S: array3<byte>, ghost P: Pixeles, srcAncho: int, srcAlto: int, canales: nat,
                            nuevoAncho: nat, nuevoAlto: nat, numHilos: int) returns (D: array3?<byte>)
    requires srcAlto >= 1 && srcAncho >= 1 && 1 <= numHilos
    requires S.Length0 == srcAlto && S.Length1 == srcAncho && S.Length2 == canales && Contiene(S, P)
    ensures D != null ==> fresh(D) && D.Length0 == nuevoAlto && D.Length1 == nuevoAncho && D.Length2 == canales
    ensures D != null ==> Contiene(D, Redimensionar(P, canales, srcAlto, srcAncho, nuevoAlto, nuevoAncho))
  {
    var okFilas := Plataforma.Malloc();
    if !okFilas {
      return null;
    }
    var dst := new byte[nuevoAlto, nuevoAncho, canales];
    ghost var inicial := Vista(dst);
    ghost var T := Redimensionar(P, canales, srcAlto, srcAncho, nuevoAlto, nuevoAncho);
    EsRedimensionUnico(T, P, canales, srcAlto, srcAncho, nuevoAlto, nuevoAncho);
    assert Filas(inicial, T, 0, 0) == inicial;
    var okHilos := EjecutarHilosResize(S, dst, P, T, inicial, srcAncho, srcAlto, canales, nuevoAncho, nuevoAlto, numHilos);
    if !okHilos {
      return null;
    }
    return dst;
  }

  /** `resizeBilinealConcurrente`: replaces the loaded image by its bilinear resize to
      `nuevoAncho x nuevoAlto`, computed by `numHilos` workers; the channel count is kept. No image, a
      non-positive target or a worker count outside `[1, 4]` is rejected before anything is allocated;
      every failure returns false and leaves `info` as it was. */
  method ResizeBilinealConcurrente(info: ImagenInfo?, nuevoAncho: int, nuevoAlto: int, numHilos: int)
    returns (ok: bool)
    requires info != null ==> info.Valid()
    requires info != null && info.pixeles != null ==> info.ancho >= 1 && info.alto >= 1
    modifies info
    ensures (info == null || old(info.pixeles) == null || nuevoAncho <= 0 || nuevoAlto <= 0 ||
             numHilos < 1 || numHilos > 4) ==> !ok
    ensures !ok ==> info == null || unchanged(info)
    ensures ok ==> info != null && old(info.pixeles) != null && nuevoAncho >= 1 && nuevoAlto >= 1 &&
                   info.Valid() && info.pixeles != null && fresh(info.pixeles) &&
                   info.Modelo() == Redimensionada(old(info.Modelo()), nuevoAncho, nuevoAlto)
  {
    if info == null || info.pixeles == null {
      return false;
    }
    if nuevoAncho <= 0 || nuevoAlto <= 0 {
      return false;
    }
    if numHilos < 1 || numHilos > 4 {
      return false;
    }
    ghost var original := info.Modelo();
    var dst := RedimensionEnHilos(info.pixeles, original.px, info.ancho, info.alto, info.canales,
                                  nuevoAncho, nuevoAlto, numHilos);
    if dst == null {
      return false;
    }
    ContieneVista(dst, Redimensionada(original, nuevoAncho, nuevoAlto).px);
    info.pixeles := dst;
    info.ancho := nuevoAncho;
    info.alto := nuevoAlto;
    return true;
  }
}
