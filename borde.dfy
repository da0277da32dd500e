/** Sobel edge detection (functions/border.c): a grayscale pass, a clamp-to-edge 3x3 gradient with the
    fixed Gx/Gy stencils, and the gradient magnitude clamped to a byte, computed by a worker per row range. */
module Borde {
  import opened Imagen
  import opened Numerico
  import opened Particion
  import Plataforma

  // ---------- Pure per-pixel logic ----------

  /** `clampi`: `v` moved into `[lo, hi]`. */
  function Clampi(v: int, lo: int, hi: int): (r: int)
    ensures lo <= hi ==> lo <= r <= hi
    ensures lo <= v <= hi ==> r == v
    ensures lo <= hi ==> forall u :: lo <= u <= hi ==> Distancia(r, v) <= Distancia(u, v)
  {
    if v < lo then lo else if v > hi then hi else v
  }

  /** `sample`: channel 0 of the pixel at `(y, x)`, with both coordinates clamped to the grid, so that
      the neighbourhood of a border pixel repeats the border. */
  function Sample(A: Pixeles, y: int, x: int, alto: int, ancho: int): (p: int)
    requires alto >= 1 && ancho >= 1 && Forma(A, alto, ancho, 1)
    ensures 0 <= y < alto && 0 <= x < ancho ==> p == A[y][x][0]
    ensures exists yy, xx :: 0 <= yy < alto && 0 <= xx < ancho && p == A[yy][xx][0]
    ensures EnBytes(A) ==> 0 <= p <= 255
  {
    var yy := Clampi(y, 0, alto - 1);
    var xx := Clampi(x, 0, ancho - 1);
    A[yy][xx][0]
  }

  /** The gray level of one source pixel: channel 0 of a one-channel pixel, otherwise the integer mean
      of its first three channels, clamped to `[0, 255]`. */
  function GrisPixel(p: seq<int>): (g: int)
    requires |p| == 1 || |p| >= 3
    requires forall c :: 0 <= c < |p| ==> 0 <= p[c] <= 255
    ensures 0 <= g <= 255
    ensures |p| == 1 ==> g == p[0]
    ensures |p| >= 3 ==> g == (p[0] + p[1] + p[2]) / 3
    ensures |p| >= 3 && p[0] == p[1] == p[2] ==> g == p[0]
  {
    if |p| == 1 then p[0]
    else
      var gray := (p[0] + p[1] + p[2]) / 3;
      if gray < 0 then 0 else if gray > 255 then 255 else gray
  }

  /** The one-channel grayscale grid of `p`. */
  function Gris(p: Pixeles, alto: nat, ancho: nat, canales: nat): (g: Pixeles)
    requires Forma(p, alto, ancho, canales) && EnBytes(p) && (canales == 1 || canales >= 3)
    ensures Forma(g, alto, ancho, 1) && EnBytes(g)
  {
    seq(alto, y requires 0 <= y < alto =>
      seq(ancho, x requires 0 <= x < ancho => [GrisPixel(p[y][x])]))
  }

  /** A one-channel source is copied unchanged. */
  lemma GrisUnCanal(p: Pixeles, alto: nat, ancho: nat)
    requires Forma(p, alto, ancho, 1) && EnBytes(p)
    ensures Gris(p, alto, ancho, 1) == p
  {
    PixelesExt(Gris(p, alto, ancho, 1), p, alto, ancho, 1);
  }

  /** A grid whose pixels all have channel 0 equal to `v`. */
  predicate Uniforme(G: Pixeles, alto: int, ancho: int, v: int)
    requires Forma(G, alto, ancho, 1)
  {
    forall y, x :: 0 <= y < alto && 0 <= x < ancho ==> G[y][x][0] == v
  }

  /** A 3x3 weight matrix. */
  predicate Pesos3x3(K: seq<seq<int>>)
  {
    |K| == 3 && forall i :: 0 <= i < 3 ==> |K[i]| == 3
  }

  /** The horizontal Sobel stencil `Gx`. */
  const GX: seq<seq<int>> := [[-1, 0, 1], [-2, 0, 2], [-1, 0, 1]]

  /** The vertical Sobel stencil `Gy`. */
  const GY: seq<seq<int>> := [[-1, -2, -1], [0, 0, 0], [1, 2, 1]]

  /** Row `ky` of the stencil `K` applied to the clamped neighbourhood of `(y, x)`, over its first `m`
      columns: the sum of `K[ky + 1][kx + 1] * sample(y + ky, x + kx)` for `kx = -1 .. m - 2`. */
  function SumaFila(K: seq<seq<int>>, G: Pixeles, alto: int, ancho: int, y: int, x: int, ky: int, m: nat): int
    requires Pesos3x3(K) && -1 <= ky <= 1 && m <= 3
    requires alto >= 1 && ancho >= 1 && Forma(G, alto, ancho, 1)
  {
    if m == 0 then 0
    else SumaFila(K, G, alto, ancho, y, x, ky, m - 1) + K[ky + 1][m - 1] * Sample(G, y + ky, x + m - 2, alto, ancho)
  }

  /** The first `n` rows (`ky = -1 .. n - 2`) of the stencil `K` applied to the clamped neighbourhood of
      `(y, x)`, in the worker's `ky`-then-`kx` order. */
  function SumaVentana(K: seq<seq<int>>, G: Pixeles, alto: int, ancho: int, y: int, x: int, n: nat): int
    requires Pesos3x3(K) && n <= 3
    requires alto >= 1 && ancho >= 1 && Forma(G, alto, ancho, 1)
  {
    if n == 0 then 0
    else SumaVentana(K, G, alto, ancho, y, x, n - 1) + SumaFila(K, G, alto, ancho, y, x, n - 2, 3)
  }

  /** The sum of the first `m` weights of a stencil row. */
  function SumaPesosFila(w: seq<int>, m: nat): int
    requires m <= |w|
  {
    if m == 0 then 0 else SumaPesosFila(w, m - 1) + w[m - 1]
  }

  /** The sum of the positive ones among the first `m` weights of a stencil row. */
  function PositivosFila(w: seq<int>, m: nat): int
    requires m <= |w|
  {
    if m == 0 then 0 else PositivosFila(w, m - 1) + (if w[m - 1] > 0 then w[m - 1] else 0)
  }

  /** The sum of the negative ones among the first `m` weights of a stencil row. */
  function NegativosFila(w: seq<int>, m: nat): int
    requires m <= |w|
  {
    if m == 0 then 0 else NegativosFila(w, m - 1) + (if w[m - 1] < 0 then w[m - 1] else 0)
  }

  /** The sum of the weights of the first `n` stencil rows. */
  function SumaPesos(K: seq<seq<int>>, n: nat): int
    requires Pesos3x3(K) && n <= 3
  {
    if n == 0 then 0 else SumaPesos(K, n - 1) + SumaPesosFila(K[n - 1], 3)
  }

  /** The sum of the positive weights of the first `n` stencil rows. */
  function Positivos(K: seq<seq<int>>, n: nat): int
    requires Pesos3x3(K) && n <= 3
  {
    if n == 0 then 0 else Positivos(K, n - 1) + PositivosFila(K[n - 1], 3)
  }

  /** The sum of the negative weights of the first `n` stencil rows. */
  function Negativos(K: seq<seq<int>>, n: nat): int
    requires Pesos3x3(K) && n <= 3
  {
    if n == 0 then 0 else Negativos(K, n - 1) + NegativosFila(K[n - 1], 3)
  }

  /** On a uniform grid a stencil row sums to its weights times the common value. */
  lemma {:induction false} FilaUniforme(K: seq<seq<int>>, G: Pixeles, alto: int, ancho: int, y: int, x: int,
                                        ky: int, m: nat, v: int)
    requires Pesos3x3(K) && -1 <= ky <= 1 && m <= 3
    requires alto >= 1 && ancho >= 1 && Forma(G, alto, ancho, 1) && Uniforme(G, alto, ancho, v)
    ensures SumaFila(K, G, alto, ancho, y, x, ky, m) == SumaPesosFila(K[ky + 1], m) * v
  {
    if m > 0 {
      FilaUniforme(K, G, alto, ancho, y, x, ky, m - 1, v);
      var w := K[ky + 1][m - 1];
      assert Sample(G, y + ky, x + m - 2, alto, ancho) == v;
      assert (SumaPesosFila(K[ky + 1], m - 1) + w) * v == SumaPesosFila(K[ky + 1], m - 1) * v + w * v;
    }
  }

  /** On a uniform grid the stencil sum is the weight sum times the common value. */
  lemma {:induction false} VentanaUniforme(K: seq<seq<int>>, G: Pixeles, alto: int, ancho: int, y: int, x: int,
                                           n: nat, v: int)
    requires Pesos3x3(K) && n <= 3
    requires alto >= 1 && ancho >= 1 && Forma(G, alto, ancho, 1) && Uniforme(G, alto, ancho, v)
    ensures SumaVentana(K, G, alto, ancho, y, x, n) == SumaPesos(K, n) * v
  {
    if n > 0 {
      VentanaUniforme(K, G, alto, ancho, y, x, n - 1, v);
      FilaUniforme(K, G, alto, ancho, y, x, n - 2, 3, v);
      var f := SumaPesosFila(K[n - 1], 3);
      assert (SumaPesos(K, n - 1) + f) * v == SumaPesos(K, n - 1) * v + f * v;
    }
  }

  /** On bytes a stencil row lies between 255 times its negative weights and 255 times its positive ones. */
  lemma {:induction false} FilaAcotada(K: seq<seq<int>>, G: Pixeles, alto: int, ancho: int, y: int, x: int,
                                       ky: int, m: nat)
    requires Pesos3x3(K) && -1 <= ky <= 1 && m <= 3
    requires alto >= 1 && ancho >= 1 && Forma(G, alto, ancho, 1) && EnBytes(G)
    ensures 255 * NegativosFila(K[ky + 1], m) <= SumaFila(K, G, alto, ancho, y, x, ky, m)
    ensures SumaFila(K, G, alto, ancho, y, x, ky, m) <= 255 * PositivosFila(K[ky + 1], m)
  {
    if m > 0 {
      FilaAcotada(K, G, alto, ancho, y, x, ky, m - 1);
      TerminoAcotado(K[ky + 1][m - 1], Sample(G, y + ky, x + m - 2, alto, ancho));
    }
  }

  /** On bytes the stencil sum lies between 255 times the negative weights and 255 times the positive ones. */
  lemma {:induction false} VentanaAcotada(K: seq<seq<int>>, G: Pixeles, alto: int, ancho: int, y: int, x: int,
                                          n: nat)
    requires Pesos3x3(K) && n <= 3
    requires alto >= 1 && ancho >= 1 && Forma(G, alto, ancho, 1) && EnBytes(G)
    ensures 255 * Negativos(K, n) <= SumaVentana(K, G, alto, ancho, y, x, n) <= 255 * Positivos(K, n)
  {
    if n > 0 {
      VentanaAcotada(K, G, alto, ancho, y, x, n - 1);
      FilaAcotada(K, G, alto, ancho, y, x, n - 2, 3);
    }
  }

  /** A stencil weight times a byte lies between `255 * min(w, 0)` and `255 * max(w, 0)`. */
  lemma TerminoAcotado(w: int, p: int)
    requires 0 <= p <= 255
    ensures 255 * (if w < 0 then w else 0) <= w * p <= 255 * (if w > 0 then w else 0)
  {
    if w >= 0 {
      assert w * p <= w * 255;
    } else {
      assert (-w) * p <= (-w) * 255;
    }
  }

  /** Both gradients stay within `[-1020, 1020]`: each stencil has positive weights summing to 4 and
      negative weights summing to -4. */
  lemma GradienteAcotado(G: Pixeles, alto: int, ancho: int, y: int, x: int)
    requires alto >= 1 && ancho >= 1 && Forma(G, alto, ancho, 1) && EnBytes(G)
    ensures -1020 <= SumaVentana(GX, G, alto, ancho, y, x, 3) <= 1020
    ensures -1020 <= SumaVentana(GY, G, alto, ancho, y, x, 3) <= 1020
  {
    VentanaAcotada(GX, G, alto, ancho, y, x, 3);
    VentanaAcotada(GY, G, alto, ancho, y, x, 3);
    assert Positivos(GX, 3) == 4 && Negativos(GX, 3) == -4;
    assert Positivos(GY, 3) == 4 && Negativos(GY, 3) == -4;
  }

  /** The clamped gradient magnitude `min(lround(sqrt(sx^2 + sy^2)), 255)`. */
  function Magnitud(sx: int, sy: int): (m: int)
    ensures 0 <= m <= 255
    ensures m == 0 <==> sx == 0 && sy == 0
    ensures m < 255 ==> (m == 0 && sx * sx + sy * sy == 0) ||
                        m * m - m < sx * sx + sy * sy <= m * m + m
    ensures m == 255 <==> sx * sx + sy * sy > 255 * 255 - 255
  {
    var n := sx * sx + sy * sy;
    assert n == 0 <==> sx == 0 && sy == 0 by { CuadradosNulos(sx, sy); }
    var r := RaizRedondeada(n);
    RaizRedondeadaAlMenos(n, 255);
    if r > 255 then 255 else r
  }

  /** A sum of two squares is never negative, and it is zero only when both are zero. */
  lemma CuadradosNulos(a: int, b: int)
    ensures a * a + b * b >= 0
    ensures a * a + b * b == 0 <==> a == 0 && b == 0
  {
    if a != 0 {
      assert a * a > 0;
    }
    if b != 0 {
      assert b * b > 0;
    }
  }

  /** The Sobel output at `(y, x)`. */
  function SobelPixel(G: Pixeles, alto: int, ancho: int, y: int, x: int): (m: int)
    requires alto >= 1 && ancho >= 1 && Forma(G, alto, ancho, 1)
    ensures 0 <= m <= 255
  {
    Magnitud(SumaVentana(GX, G, alto, ancho, y, x, 3), SumaVentana(GY, G, alto, ancho, y, x, 3))
  }

  /** The edge map of a one-channel grid. */
  function SobelImagen(G: Pixeles, alto: int, ancho: int): (s: Pixeles)
    requires alto >= 1 && ancho >= 1 && Forma(G, alto, ancho, 1)
    ensures Forma(s, alto, ancho, 1) && EnBytes(s)
  {
    seq(alto, y requires 0 <= y < alto => seq(ancho, x requires 0 <= x < ancho => [SobelPixel(G, alto, ancho, y, x)]))
  }

  /** `T` is the edge map of `G`, stated cell by cell. The quantifier is instantiated only where the
      magnitude of a particular pixel is at hand, so that code which merely moves whole rows of `T`
      around does not unfold the per-pixel arithmetic. */
  ghost predicate EsSobel(T: Pixeles, G: Pixeles, alto: int, ancho: int)
    requires alto >= 1 && ancho >= 1 && Forma(G, alto, ancho, 1)
  {
    Forma(T, alto, ancho, 1) &&
    forall y, x {:trigger SobelPixel(G, alto, ancho, y, x)} :: 0 <= y < alto && 0 <= x < ancho ==>
      T[y][x][0] == SobelPixel(G, alto, ancho, y, x)
  }

  /** The edge map is the one grid that `EsSobel` describes. */
  lemma EsSobelUnico(T: Pixeles, G: Pixeles, alto: int, ancho: int)
    requires alto >= 1 && ancho >= 1 && Forma(G, alto, ancho, 1)
    ensures EsSobel(T, G, alto, ancho) <==> T == SobelImagen(G, alto, ancho)
  {
    var S := SobelImagen(G, alto, ancho);
    if EsSobel(T, G, alto, ancho) {
      forall y, x, c | 0 <= y < alto && 0 <= x < ancho && 0 <= c < 1
        ensures T[y][x][c] == S[y][x][c]
      {
        assert T[y][x][0] == SobelPixel(G, alto, ancho, y, x);
      }
      PixelesExt(T, S, alto, ancho, 1);
    }
    if T == S {
      forall y, x | 0 <= y < alto && 0 <= x < ancho
        ensures T[y][x][0] == SobelPixel(G, alto, ancho, y, x)
      {
      }
    }
  }

  /** The whole transform on values: grayscale, then the edge map; the extents are kept and the result
      has one channel. */
  function Bordes(img: Imagen): (r: Imagen)
    requires Bien(img) && img.alto >= 1 && img.ancho >= 1 && (img.canales == 1 || img.canales >= 3)
    ensures Bien(r) && r.ancho == img.ancho && r.alto == img.alto && r.canales == 1
  {
    Imagen(img.ancho, img.alto, 1,
           SobelImagen(Gris(img.px, img.alto, img.ancho, img.canales), img.alto, img.ancho))
  }

  /** A pixel of a uniform grid has no gradient, border pixels included: both stencils' weights sum to 0
      and the clamped neighbourhoods are uniform too. */
  lemma SobelPixelUniforme(G: Pixeles, alto: int, ancho: int, v: int, y: int, x: int)
    requires alto >= 1 && ancho >= 1 && Forma(G, alto, ancho, 1) && Uniforme(G, alto, ancho, v)
    ensures SobelPixel(G, alto, ancho, y, x) == 0
  {
    assert SumaPesos(GX, 3) == 0;
    assert SumaPesos(GY, 3) == 0;
    VentanaUniforme(GX, G, alto, ancho, y, x, 3, v);
    VentanaUniforme(GY, G, alto, ancho, y, x, 3, v);
  }

  /** A uniform grid has an all-zero edge map. */
  lemma SobelUniforme(G: Pixeles, alto: int, ancho: int, v: int)
    requires alto >= 1 && ancho >= 1 && Forma(G, alto, ancho, 1) && Uniforme(G, alto, ancho, v)
    ensures SobelImagen(G, alto, ancho) == Ceros(alto, ancho, 1)
  {
    forall y, x | 0 <= y < alto && 0 <= x < ancho
      ensures SobelPixel(G, alto, ancho, y, x) == 0
    {
      SobelPixelUniforme(G, alto, ancho, v, y, x);
    }
    PixelesExt(SobelImagen(G, alto, ancho), Ceros(alto, ancho, 1), alto, ancho, 1);
  }

  /** An image whose pixels are all equal gives an all-zero edge map. */
  lemma BordesUniforme(img: Imagen)
    requires Bien(img) && img.alto >= 1 && img.ancho >= 1 && (img.canales == 1 || img.canales >= 3)
    requires forall y, x :: 0 <= y < img.alto && 0 <= x < img.ancho ==> img.px[y][x] == img.px[0][0]
    ensures Bordes(img).px == Ceros(img.alto, img.ancho, 1)
  {
    var g := Gris(img.px, img.alto, img.ancho, img.canales);
    SobelUniforme(g, img.alto, img.ancho, GrisPixel(img.px[0][0]));
  }

  /** The worker count: 2 when none is asked for, and never more than the number of rows. */
  function NormalizarHilos(nHilos: int, alto: int): (n: int)
    requires alto >= 1
    ensures 1 <= n <= alto
    ensures 1 <= nHilos <= alto ==> n == nHilos
    ensures nHilos > alto ==> n == alto
    ensures nHilos <= 0 ==> n == (if alto < 2 then alto else 2)
  {
    var m := if nHilos <= 0 then 2 else nHilos;
    if m > alto then alto else m
  }

  // ---------- Buffers and workers ----------

  /** `AgrumentosSobel`: the gray source, the destination and the worker's rows `[filaIni, filaFin)`. */
  datatype ArgumentosSobel = ArgumentosSobel(src: array3<byte>, dst: array3<byte>, ancho: int, alto: int,
                                             filaIni: int, filaFin: int)

  /** `crearimagenagenVaciaLocal`: sets the extents, then allocates a zero-filled grid. If the first
      allocation fails the extents stay set and `pixeles` is null; if a later one fails `pixeles` is null
      and the extents are reset to 0. */
  method CrearImagenVaciaLocal(out: ImagenInfo, ancho: nat, alto: nat, canales: nat) returns (ok: bool)
    modifies out
    ensures ok ==> out.pixeles != null && fresh(out.pixeles) && out.Valid()
    ensures ok ==> out.ancho == ancho && out.alto == alto && out.canales == canales
    ensures ok ==> Contiene(out.pixeles, Ceros(alto, ancho, canales))
    ensures !ok ==> out.pixeles == null
    ensures !ok ==> (out.ancho == ancho && out.alto == alto && out.canales == canales) ||
                    (out.ancho == 0 && out.alto == 0 && out.canales == 0)
  {
    out.ancho, out.alto, out.canales := ancho, alto, canales;
    var filas := Plataforma.Malloc();
    if !filas {
      out.pixeles := null;
      return false;
    }
    if alto > 0 {
      var resto := Plataforma.Malloc();
      if !resto {
        out.pixeles := null;
        out.ancho, out.alto, out.canales := 0, 0, 0;
        return false;
      }
    }
    var m := NuevaMatrizCeros(alto, ancho, canales);
    out.pixeles := m;
    return true;
  }

  /** `escalaDeGrises`: `dst` becomes the one-channel grayscale of the grid `P` that `src` holds. */
  method EscalaDeGrises(src: ImagenInfo, dst: ImagenInfo, ghost P: Pixeles) returns (ok: bool)
    requires src != dst && src.Valid() && src.pixeles != null && (src.canales == 1 || src.canales >= 3)
    requires Contiene(src.pixeles, P) && EnBytes(P)
    modifies dst
    ensures ok ==> dst.pixeles != null && fresh(dst.pixeles) && dst.Valid()
    ensures ok ==> dst.ancho == src.ancho && dst.alto == src.alto && dst.canales == 1
    ensures ok ==> Contiene(dst.pixeles, Gris(P, src.alto, src.ancho, src.canales))
    ensures !ok ==> dst.pixeles == null
  {
    var creada := CrearImagenVaciaLocal(dst, src.pixeles.Length1, src.pixeles.Length0, 1);
    if !creada {
      return false;
    }
    ConvertirGris(src.pixeles, dst.pixeles, P, Ceros(src.alto, src.ancho, 1));
    ok := true;
  }

  /** The gray level of the source pixel `(y, x)`, read from the buffer. */
  method GrisDe(S: array3<byte>, ghost P: Pixeles, y: int, x: int) returns (gray: int)
    requires S.Length2 == 1 || S.Length2 >= 3
    requires 0 <= y < S.Length0 && 0 <= x < S.Length1
    requires Contiene(S, P) && EnBytes(P)
    ensures gray == GrisPixel(P[y][x])
  {
    if S.Length2 == 1 {
      gray := S[y, x, 0];
    } else {
      var r: int := S[y, x, 0];
      var g: int := S[y, x, 1];
      var b: int := S[y, x, 2];
      var media := (r + g + b) / 3;
      if media < 0 {
        gray := 0;
      } else if media > 255 {
        gray := 255;
      } else {
        gray := media;
      }
    }
  }

  /** The loop nest of `escalaDeGrises`: every pixel of the one-channel `D` gets the gray level of the
      same pixel of `S`. */
  method ConvertirGris(S: array3<byte>, D: array3<byte>, ghost P: Pixeles, ghost antes: Pixeles)
    requires S != D && (S.Length2 == 1 || S.Length2 >= 3)
    requires D.Length0 == S.Length0 && D.Length1 == S.Length1 && D.Length2 == 1
    requires Contiene(S, P) && EnBytes(P) && Contiene(D, antes)
    modifies D
    ensures Contiene(D, Gris(P, S.Length0, S.Length1, S.Length2))
  {
    ghost var T := Gris(P, S.Length0, S.Length1, S.Length2);
    var y := 0;
    while y < S.Length0
      invariant 0 <= y <= S.Length0
      invariant Progreso(D, T, antes, 0, y, 0, 0)
    {
      var x := 0;
      while x < S.Length1
        invariant 0 <= x <= S.Length1
        invariant Progreso(D, T, antes, 0, y, x, 0)
      {
        var gray := GrisDe(S, P, y, x);
        Escribir(D, T, antes, 0, y, x, 0, gray);
        ProgresoPixel(D, T, antes, 0, y, x);
        x := x + 1;
      }
      ProgresoFila(D, T, antes, 0, y);
      y := y + 1;
    }
    ProgresoFinal(D, T, antes, 0, S.Length0, y);
    FilasTodas(antes, T, S.Length0);
  }

  /** `sample` on the buffer: channel 0 of the clamped pixel, which is `Sample` of the grid it holds. */
  method SampleBuffer(A: array3<byte>, ghost G: Pixeles, y: int, x: int, alto: int, ancho: int) returns (p: int)
    requires alto >= 1 && ancho >= 1 && A.Length0 == alto && A.Length1 == ancho && A.Length2 == 1
    requires Contiene(A, G)
    ensures p == Sample(G, y, x, alto, ancho)
  {
    var yy := Clampi(y, 0, alto - 1);
    var xx := Clampi(x, 0, ancho - 1);
    p := A[yy, xx, 0];
  }

  /** The inner `kx` loop of `sobelWorker` for stencil row `ky`: the contributions of that row to
      both gradients. */
  method FilaGradiente(src: array3<byte>, ghost G: Pixeles, alto: int, ancho: int, y: int, x: int, ky: int)
    returns (fx: int, fy: int)
    requires alto >= 1 && ancho >= 1 && src.Length0 == alto && src.Length1 == ancho && src.Length2 == 1
    requires Contiene(src, G) && -1 <= ky <= 1
    ensures fx == SumaFila(GX, G, alto, ancho, y, x, ky, 3)
    ensures fy == SumaFila(GY, G, alto, ancho, y, x, ky, 3)
  {
    fx, fy := 0, 0;
    var kx := -1;
    while kx <= 1
      invariant -1 <= kx <= 2
      invariant fx == SumaFila(GX, G, alto, ancho, y, x, ky, kx + 1)
      invariant fy == SumaFila(GY, G, alto, ancho, y, x, ky, kx + 1)
    {
      var p := SampleBuffer(src, G, y + ky, x + kx, alto, ancho);
      fx := fx + GX[ky + 1][kx + 1] * p;
      fy := fy + GY[ky + 1][kx + 1] * p;
      kx := kx + 1;
    }
  }

  /** The `ky`/`kx` loops of `sobelWorker` at `(y, x)` and the magnitude of the two sums,
      `lround(sqrt(sx * sx + sy * sy))` clamped to `[0, 255]`. */
  method GradientePixel(src: array3<byte>, ghost G: Pixeles, alto: int, ancho: int, y: int, x: int)
    returns (mag: byte)
    requires alto >= 1 && ancho >= 1 && src.Length0 == alto && src.Length1 == ancho && src.Length2 == 1
    requires Contiene(src, G)
    ensures mag == SobelPixel(G, alto, ancho, y, x)
  {
    var sx, sy := 0, 0;
    var ky := -1;
    while ky <= 1
      invariant -1 <= ky <= 2
      invariant sx == SumaVentana(GX, G, alto, ancho, y, x, ky + 1)
      invariant sy == SumaVentana(GY, G, alto, ancho, y, x, ky + 1)
    {
      var fx, fy := FilaGradiente(src, G, alto, ancho, y, x, ky);
      sx, sy := sx + fx, sy + fy;
      ky := ky + 1;
    }
    var m: int := RaizRedondeada(sx * sx + sy * sy);
    if m > 255 {
      m := 255;
    }
    if m < 0 {
      m := 0;
    }
    mag := m;
  }

  /** `sobelWorker`: where `S.src` holds the gray grid `G` and `S.dst` holds `antes`, writes the edge map
      `T` of `G` into the rows `[filaIni, filaFin)` of `S.dst` and leaves every other row as it was. */
  method SobelWorker(S: ArgumentosSobel, ghost G: Pixeles, ghost T: Pixeles, ghost antes: Pixeles)
    requires S.src != S.dst && S.alto >= 1 && S.ancho >= 1
    requires S.src.Length0 == S.alto && S.src.Length1 == S.ancho && S.src.Length2 == 1
    requires S.dst.Length0 == S.alto && S.dst.Length1 == S.ancho && S.dst.Length2 == 1
    requires 0 <= S.filaIni && S.filaFin <= S.alto
    requires Contiene(S.src, G) && EsSobel(T, G, S.alto, S.ancho) && Contiene(S.dst, antes)
    modifies S.dst
    ensures Contiene(S.dst, Filas(antes, T, S.filaIni, S.filaFin))
  {
    var y := S.filaIni;
    while y < S.filaFin
      invariant S.filaIni <= y && (S.filaIni <= S.filaFin ==> y <= S.filaFin)
      invariant S.filaFin < S.filaIni ==> y == S.filaIni
      invariant Progreso(S.dst, T, antes, S.filaIni, y, 0, 0)
    {
      var x := 0;
      while x < S.ancho
        invariant 0 <= x <= S.ancho
        invariant Progreso(S.dst, T, antes, S.filaIni, y, x, 0)
      {
        var mag := GradientePixel(S.src, G, S.alto, S.ancho, y, x);
        Escribir(S.dst, T, antes, S.filaIni, y, x, 0, mag);
        ProgresoPixel(S.dst, T, antes, S.filaIni, y, x);
        x := x + 1;
      }
      ProgresoFila(S.dst, T, antes, S.filaIni, y);
      y := y + 1;
    }
    ProgresoFinal(S.dst, T, antes, S.filaIni, S.filaFin, y);
  }

  /** `liberarImagenBorder`: no image is loaded afterwards and the extents are 0. */
  method LiberarImagenBorder(info: ImagenInfo)
    modifies info
    ensures info.pixeles == null && info.ancho == 0 && info.alto == 0 && info.canales == 0
  {
    info.pixeles := null;
    info.ancho, info.alto, info.canales := 0, 0, 0;
  }

  // ---------- The transform ----------

  /** The state of step 3 once the rows `[0, hecho)` are finished: the worker source `G` holds the gray
      grid `gv`, `T` is its edge map, and the output `D` holds `T` on the finished rows and its initial
      contents `inicial` elsewhere. */
  ghost predicate EstadoSobel(G: array3<byte>, D: array3<byte>, gv: Pixeles, T: Pixeles, inicial: Pixeles,
                              ancho: int, alto: int, hecho: int)
    reads G, D
  {
    G != D && alto >= 1 && ancho >= 1 &&
    G.Length0 == alto && G.Length1 == ancho && G.Length2 == 1 &&
    D.Length0 == alto && D.Length1 == ancho && D.Length2 == 1 &&
    Contiene(G, gv) && EsSobel(T, gv, alto, ancho) && |inicial| == alto &&
    Contiene(D, Filas(inicial, T, 0, hecho))
  }

  /** Starting worker `i` of the loop in step 3: its arguments cover `RangoHilo(i, k, alto)`. When the
      start succeeds the worker runs to completion, which extends the finished rows from
      `[0, min(i * k, alto))` to `[0, min((i + 1) * k, alto))`. */
  method LanzarHiloSobel(G: array3<byte>, D: array3<byte>, ghost gv: Pixeles, ghost T: Pixeles,
                         ghost inicial: Pixeles, ancho: int, alto: int, i: int, k: int) returns (creado: bool)
    requires i >= 0 && k >= 0
    requires EstadoSobel(G, D, gv, T, inicial, ancho, alto, Hechas(i, k, alto))
    modifies D
    ensures creado ==> EstadoSobel(G, D, gv, T, inicial, ancho, alto, Hechas(i + 1, k, alto))
  {
    var r := RangoHilo(i, k, alto);
    var args := ArgumentosSobel(G, D, ancho, alto, r.ini, r.fin);
    creado := Plataforma.PthreadCreate();
    if creado {
      assert 0 <= i * k by { ProductoNoNegativo(i, k); }
      HechasEs(i, k, alto);
      HechasEs(i + 1, k, alto);
      ghost var hecho := Hechas(i, k, alto);
      FilasExtiende(inicial, T, hecho, r.ini, r.fin);
      SobelWorker(args, gv, T, Filas(inicial, T, 0, hecho));
    }
  }

  /** Step 3 of `detectarBordesSobel`: the thread tables, then one worker per row range
      `RangoHilo(i, ceil(alto / n), alto)` from the grayscale `G` into the output `D`. False when the
      tables cannot be allocated or a worker cannot be started; otherwise `D` holds the edge map `T`. */
  method EjecutarHilosSobel(G: array3<byte>, D: array3<byte>, ghost gv: Pixeles, ghost T: Pixeles,
                            ghost inicial: Pixeles, ancho: int, alto: int, n: int) returns (ok: bool)
    requires 1 <= n <= alto
    requires EstadoSobel(G, D, gv, T, inicial, ancho, alto, 0)
    modifies D
    ensures ok ==> Contiene(D, T)
  {
    ok := Plataforma.Malloc();
    if !ok {
      return;
    }
    var k := FilasPorHilo(alto, n);
    var i := 0;
    while i < n
      invariant 0 <= i <= n
      invariant EstadoSobel(G, D, gv, T, inicial, ancho, alto, Hechas(i, k, alto))
      modifies D
    {
      var creado := LanzarHiloSobel(G, D, gv, T, inicial, ancho, alto, i, k);
      if !creado {
        return false;
      }
      i := i + 1;
    }
    HechasTodas(alto, n);
    FilasTodas(inicial, T, alto);
  }

  /** Steps 1 to 3 of `detectarBordesSobel` for a valid image holding `P`: the grayscale copy, the
      zero-filled output and `n` workers over the row ranges of `RangoHilo`. The result is the output
      image, or null when an allocation or a worker start failed. */
  method BordesEnHilos(info: ImagenInfo, n: int, ghost P: Pixeles) returns (res: ImagenInfo?)
    requires info.Valid() && info.pixeles != null && info.ancho >= 1 && info.alto >= 1
    requires info.canales == 1 || info.canales >= 3
    requires Contiene(info.pixeles, P) && EnBytes(P) && 1 <= n <= info.alto
    ensures res != null ==> fresh(res) && res.pixeles != null && fresh(res.pixeles) && res.Valid()
    ensures res != null ==> res.ancho == info.ancho && res.alto == info.alto && res.canales == 1
    ensures res != null ==> Contiene(res.pixeles, SobelImagen(Gris(P, info.alto, info.ancho, info.canales), info.alto, info.ancho))
  {
    var gris := new ImagenInfo.Vacia();
    var okGris := EscalaDeGrises(info, gris, P);
    if !okGris {
      return null;
    }

    var dst := new ImagenInfo.Vacia();
    var okDst := CrearImagenVaciaLocal(dst, gris.pixeles.Length1, gris.pixeles.Length0, 1);
    if !okDst {
      LiberarImagenBorder(gris);
      return null;
    }

    ghost var gv := Gris(P, info.alto, info.ancho, info.canales);
    ghost var T := SobelImagen(gv, info.alto, info.ancho);
    EsSobelUnico(T, gv, info.alto, info.ancho);
    ghost var inicial := Ceros(gris.alto, gris.ancho, 1);
    assert Filas(inicial, T, 0, 0) == inicial;
    var okHilos := EjecutarHilosSobel(gris.pixeles, dst.pixeles, gv, T, inicial, gris.ancho, gris.alto, n);
    if !okHilos {
      LiberarImagenBorder(gris);
      LiberarImagenBorder(dst);
      return null;
    }
    LiberarImagenBorder(gris);
    return dst;
  }

  /** `detectarBordesSobel`: replaces the loaded image by its one-channel edge map, computed by
      `NormalizarHilos(nHilos, alto)` workers. An invalid image, or a failed allocation or worker start,
      returns false and leaves `info` as it was. */
  method DetectarBordesSobel(info: ImagenInfo?, nHilos: int) returns (ok: bool)
    requires info != null ==> info.Valid()
    requires info != null && info.pixeles != null ==> info.canales == 1 || info.canales >= 3
    modifies info
    ensures info == null || old(info.pixeles) == null || old(info.ancho) <= 0 || old(info.alto) <= 0 ==> !ok
    ensures !ok ==> info == null || unchanged(info)
    ensures ok ==> info != null && old(info.pixeles) != null && old(info.alto) >= 1 && old(info.ancho) >= 1 &&
                   info.Valid() && info.pixeles != null && fresh(info.pixeles) &&
                   info.Modelo() == Bordes(old(info.Modelo()))
  {
    if info == null || info.pixeles == null || info.ancho <= 0 || info.alto <= 0 {
      return false;
    }
    ghost var original := info.Modelo();
    var n := NormalizarHilos(nHilos, info.alto);
    var dst := BordesEnHilos(info, n, original.px);
    if dst == null {
      return false;
    }
    ContieneVista(dst.pixeles, Bordes(original).px);
    LiberarImagenBorder(info);
    info.ancho, info.alto, info.canales, info.pixeles := dst.ancho, dst.alto, dst.canales, dst.pixeles;
    info.canales := 1;
    return true;
  }
}
