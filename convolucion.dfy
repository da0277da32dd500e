/** Gaussian blur (functions/convolution.c): a normalised `tamKernel x tamKernel` Gaussian kernel, a
    replicate-border convolution of every channel, and the sum rounded and clamped to a byte; a worker per
    row range. Weights are reals, and `exp` enters as a parameter that is only known to be positive. */
module Convolucion {
  import opened Imagen
  import opened Numerico
  import opened Particion
  import Plataforma

  /** A kernel as a value: `tam` rows of `tam` weights. */
  type Kernel = seq<seq<real>>

  predicate Cuadrada(K: Kernel, tam: int)
  {
    |K| == tam && forall i :: 0 <= i < |K| ==> |K[i]| == tam
  }

  // ---------- Sums of weights ----------

  /** The first `m` weights of a row. */
  function SumaPesosFila(w: seq<real>, m: nat): real
    requires m <= |w|
  {
    if m == 0 then 0.0 else SumaPesosFila(w, m - 1) + w[m - 1]
  }

  /** The first `n` rows. */
  function SumaFilas(K: Kernel, n: nat): real
    requires n <= |K|
  {
    if n == 0 then 0.0 else SumaFilas(K, n - 1) + SumaPesosFila(K[n - 1], |K[n - 1]|)
  }

  /** The sum of every weight of the kernel, row by row. */
  function Total(K: Kernel): real
  {
    SumaFilas(K, |K|)
  }

  /** Every weight divided by `s`. */
  function Escalado(K: Kernel, s: real): (E: Kernel)
    requires s != 0.0
    ensures |E| == |K| && forall i :: 0 <= i < |K| ==> |E[i]| == |K[i]|
  {
    seq(|K|, i requires 0 <= i < |K| => seq(|K[i]|, j requires 0 <= j < |K[i]| => K[i][j] / s))
  }

  lemma {:induction false} SumaFilaEscalada(w: seq<real>, e: seq<real>, s: real, m: nat)
    requires s != 0.0 && m <= |w| == |e| && forall j :: 0 <= j < |w| ==> e[j] == w[j] / s
    ensures SumaPesosFila(e, m) == SumaPesosFila(w, m) / s
  {
    if m > 0 {
      SumaFilaEscalada(w, e, s, m - 1);
    }
  }

  /** Dividing every weight by `s` divides the sum by `s`. */
  lemma {:induction false} SumaEscalada(K: Kernel, s: real, n: nat)
    requires s != 0.0 && n <= |K|
    ensures SumaFilas(Escalado(K, s), n) == SumaFilas(K, n) / s
  {
    if n > 0 {
      SumaEscalada(K, s, n - 1);
      SumaFilaEscalada(K[n - 1], Escalado(K, s)[n - 1], s, |K[n - 1]|);
    }
  }

  lemma {:induction false} SumaFilaPositiva(w: seq<real>, m: nat)
    requires m <= |w| && forall j :: 0 <= j < |w| ==> w[j] > 0.0
    ensures m >= 1 ==> SumaPesosFila(w, m) > 0.0
    ensures SumaPesosFila(w, m) >= 0.0
  {
    if m > 0 {
      SumaFilaPositiva(w, m - 1);
    }
  }

  /** A non-empty square of positive weights has a positive sum. */
  lemma {:induction false} SumaPositiva(K: Kernel, tam: int, n: nat)
    requires tam >= 1 && Cuadrada(K, tam) && n <= tam
    requires forall i, j :: 0 <= i < tam && 0 <= j < tam ==> K[i][j] > 0.0
    ensures n >= 1 ==> SumaFilas(K, n) > 0.0
    ensures SumaFilas(K, n) >= 0.0
  {
    if n > 0 {
      SumaPositiva(K, tam, n - 1);
      SumaFilaPositiva(K[n - 1], tam);
    }
  }

  // ---------- The Gaussian kernel ----------

  /** The unnormalised weight at `(y, x)`:
      `exp(-(dx * dx + dy * dy) / (2 * sigma * sigma)) / (2 * PI * sigma * sigma)` with `dx`, `dy` the
      offsets from the centre `tam / 2`. It depends only on the squared distance to the centre. */
  function Peso(tam: int, sigma: real, exp: real -> real, y: int, x: int): (p: real)
    requires sigma != 0.0 && forall r :: exp(r) > 0.0
    ensures p > 0.0
  {
    var centro := tam / 2;
    var dx := x - centro;
    var dy := y - centro;
    var exponente := -((dx * dx + dy * dy) as real) / (2.0 * sigma * sigma);
    var den := 2.0 * PI * sigma;
    MulMismoSigno(den, sigma);
    DivPos(exp(exponente), den * sigma);
    exp(exponente) / (den * sigma)
  }

  /** The weights before normalisation. */
  function Pesos(tam: nat, sigma: real, exp: real -> real): (W: Kernel)
    requires sigma != 0.0 && forall r :: exp(r) > 0.0
    ensures Cuadrada(W, tam)
  {
    seq(tam, y requires 0 <= y < tam => seq(tam, x requires 0 <= x < tam => Peso(tam, sigma, exp, y, x)))
  }

  /** The kernel of `generarKernelGaussiano`: the weights divided by their sum. */
  function KernelGaussiano(tam: nat, sigma: real, exp: real -> real): (K: Kernel)
    requires tam >= 1 && sigma != 0.0 && forall r :: exp(r) > 0.0
    ensures Cuadrada(K, tam)
  {
    var W := Pesos(tam, sigma, exp);
    SumaPositiva(W, tam, tam);
    Escalado(W, Total(W))
  }

  /** The normalised weights sum to 1. */
  lemma KernelSumaUno(tam: nat, sigma: real, exp: real -> real)
    requires tam >= 1 && sigma != 0.0 && forall r :: exp(r) > 0.0
    ensures Total(KernelGaussiano(tam, sigma, exp)) == 1.0
  {
    var W := Pesos(tam, sigma, exp);
    SumaPositiva(W, tam, tam);
    SumaEscalada(W, Total(W), tam);
  }

  /** Every normalised weight is positive. */
  lemma KernelPositivo(tam: nat, sigma: real, exp: real -> real)
    requires tam >= 1 && sigma != 0.0 && forall r :: exp(r) > 0.0
    ensures forall y, x :: 0 <= y < tam && 0 <= x < tam ==> KernelGaussiano(tam, sigma, exp)[y][x] > 0.0
  {
    var W := Pesos(tam, sigma, exp);
    SumaPositiva(W, tam, tam);
    forall y, x | 0 <= y < tam && 0 <= x < tam
      ensures KernelGaussiano(tam, sigma, exp)[y][x] > 0.0
    {
      DivPos(W[y][x], Total(W));
    }
  }

  lemma CuadradoEspejo(tam: int, v: int)
    requires tam % 2 == 1
    ensures (tam - 1 - v - tam / 2) * (tam - 1 - v - tam / 2) == (v - tam / 2) * (v - tam / 2)
  {
    assert tam - 1 - v - tam / 2 == -(v - tam / 2);
  }

  /** For an odd size the kernel is symmetric about both diagonals and both axes through the centre. */
  lemma KernelSimetrico(tam: nat, sigma: real, exp: real -> real, y: int, x: int)
    requires tam >= 1 && tam % 2 == 1 && sigma != 0.0 && forall r :: exp(r) > 0.0
    requires 0 <= y < tam && 0 <= x < tam
    ensures var K := KernelGaussiano(tam, sigma, exp);
      K[y][x] == K[x][y] && K[tam - 1 - y][x] == K[y][x] && K[y][tam - 1 - x] == K[y][x]
  {
    CuadradoEspejo(tam, y);
    CuadradoEspejo(tam, x);
    var c := tam / 2;
    assert (x - c) * (x - c) + (y - c) * (y - c) == (y - c) * (y - c) + (x - c) * (x - c);
  }

  /** The 1 x 1 kernel is the single weight 1. */
  lemma KernelUnitario(sigma: real, exp: real -> real)
    requires sigma != 0.0 && forall r :: exp(r) > 0.0
    ensures KernelGaussiano(1, sigma, exp) == [[1.0]]
  {
    var W := Pesos(1, sigma, exp);
    assert SumaPesosFila(W[0], 1) == W[0][0];
    assert |W| == 1 && |W[0]| == 1 && SumaFilas(W, 0) == 0.0;
    assert Total(W) == SumaPesosFila(W[0], 1);
    var K := KernelGaussiano(1, sigma, exp);
    assert K[0][0] == W[0][0] / W[0][0] == 1.0;
    assert K[0] == [1.0];
  }

  // ---------- The convolution on values ----------

  /** The replicate-border correction of a neighbour coordinate: below 0 it becomes 0, then at or past
      `n` it becomes `n - 1`; the result is the index of `[0, n)` nearest to `v`. */
  function ReplicarBorde(v: int, n: int): (r: int)
    ensures n >= 1 ==> 0 <= r < n
    ensures 0 <= v < n ==> r == v
    ensures n >= 1 ==> forall u :: 0 <= u < n ==> Distancia(r, v) <= Distancia(u, v)
  {
    var a := if v < 0 then 0 else v;
    if a >= n then n - 1 else a
  }

  /** Channel `c` of the neighbour `(y, x)`, its coordinates corrected at the border. */
  function Vecino(P: Pixeles, canales: int, alto: int, ancho: int, y: int, x: int, c: int): int
    requires alto >= 1 && ancho >= 1 && Forma(P, alto, ancho, canales) && 0 <= c < canales
  {
    P[ReplicarBorde(y, alto)][ReplicarBorde(x, ancho)][c]
  }

  /** The term of kernel cell `(ky, kx)` in the window sum at `(y, x, c)`: the neighbour under that
      cell times its weight. */
  function Termino(P: Pixeles, canales: int, alto: int, ancho: int, K: Kernel, tam: int,
                   y: int, x: int, c: int, ky: int, kx: int): real
    requires alto >= 1 && ancho >= 1 && Forma(P, alto, ancho, canales) && 0 <= c < canales
    requires Cuadrada(K, tam) && 0 <= ky < tam && 0 <= kx < tam
  {
    Vecino(P, canales, alto, ancho, y + ky - tam / 2, x + kx - tam / 2, c) as real * K[ky][kx]
  }

  /** The first `m` terms `pixel * weight` of kernel row `ky` at `(y, x, c)`. */
  function SumaFilaConv(P: Pixeles, canales: int, alto: int, ancho: int, K: Kernel, tam: int,
                        y: int, x: int, c: int, ky: int, m: nat): real
    requires alto >= 1 && ancho >= 1 && Forma(P, alto, ancho, canales) && 0 <= c < canales
    requires Cuadrada(K, tam) && 0 <= ky < tam && m <= tam
  {
    if m == 0 then 0.0
    else
      SumaFilaConv(P, canales, alto, ancho, K, tam, y, x, c, ky, m - 1) +
      Termino(P, canales, alto, ancho, K, tam, y, x, c, ky, m - 1)
  }

  /** The first `n` kernel rows. */
  function SumaConv(P: Pixeles, canales: int, alto: int, ancho: int, K: Kernel, tam: int,
                    y: int, x: int, c: int, n: nat): real
    requires alto >= 1 && ancho >= 1 && Forma(P, alto, ancho, canales) && 0 <= c < canales
    requires Cuadrada(K, tam) && n <= tam
  {
    if n == 0 then 0.0
    else SumaConv(P, canales, alto, ancho, K, tam, y, x, c, n - 1) +
         SumaFilaConv(P, canales, alto, ancho, K, tam, y, x, c, n - 1, tam)
  }

  /** Channel `c` of output pixel `(y, x)`: the window sum rounded and clamped to a byte. */
  function ConvPixel(P: Pixeles, canales: int, alto: int, ancho: int, K: Kernel, tam: int, y: int, x: int, c: int): (v: int)
    requires alto >= 1 && ancho >= 1 && Forma(P, alto, ancho, canales) && 0 <= c < canales
    requires Cuadrada(K, tam)
    ensures 0 <= v <= 255
  {
    ClampToByte(Redondear(SumaConv(P, canales, alto, ancho, K, tam, y, x, c, tam)))
  }

  /** The convolved grid. */
  function Convolucionar(P: Pixeles, canales: nat, alto: nat, ancho: nat, K: Kernel, tam: int): (R: Pixeles)
    requires Forma(P, alto, ancho, canales) && Cuadrada(K, tam)
    ensures Forma(R, alto, ancho, canales) && EnBytes(R)
  {
    seq(alto, y requires 0 <= y < alto =>
      seq(ancho, x requires 0 <= x < ancho =>
        seq(canales, c requires 0 <= c < canales => ConvPixel(P, canales, alto, ancho, K, tam, y, x, c))))
  }

  lemma {:induction false} FilaConvUniforme(P: Pixeles, canales: int, alto: int, ancho: int, K: Kernel, tam: int,
                                            y: int, x: int, c: int, ky: int, m: nat)
    requires alto >= 1 && ancho >= 1 && Forma(P, alto, ancho, canales) && 0 <= c < canales
    requires Cuadrada(K, tam) && 0 <= ky < tam && m <= tam
    requires forall yy, xx :: 0 <= yy < alto && 0 <= xx < ancho ==> P[yy][xx] == P[0][0]
    ensures SumaFilaConv(P, canales, alto, ancho, K, tam, y, x, c, ky, m) == P[0][0][c] as real * SumaPesosFila(K[ky], m)
  {
    if m > 0 {
      FilaConvUniforme(P, canales, alto, ancho, K, tam, y, x, c, ky, m - 1);
    }
  }

  lemma {:induction false} ConvUniforme(P: Pixeles, canales: int, alto: int, ancho: int, K: Kernel, tam: int,
                                        y: int, x: int, c: int, n: nat)
    requires alto >= 1 && ancho >= 1 && Forma(P, alto, ancho, canales) && 0 <= c < canales
    requires Cuadrada(K, tam) && n <= tam
    requires forall yy, xx :: 0 <= yy < alto && 0 <= xx < ancho ==> P[yy][xx] == P[0][0]
    ensures SumaConv(P, canales, alto, ancho, K, tam, y, x, c, n) == P[0][0][c] as real * SumaFilas(K, n)
  {
    if n > 0 {
      ConvUniforme(P, canales, alto, ancho, K, tam, y, x, c, n - 1);
      FilaConvUniforme(P, canales, alto, ancho, K, tam, y, x, c, n - 1, tam);
    }
  }

  /** With weights summing to 1, a grid whose pixels are all equal is left as it is, border included. */
  lemma ConvolucionarUniforme(P: Pixeles, canales: nat, alto: nat, ancho: nat, K: Kernel, tam: int)
    requires alto >= 1 && ancho >= 1 && Forma(P, alto, ancho, canales) && EnBytes(P)
    requires Cuadrada(K, tam) && Total(K) == 1.0
    requires forall yy, xx :: 0 <= yy < alto && 0 <= xx < ancho ==> P[yy][xx] == P[0][0]
    ensures Convolucionar(P, canales, alto, ancho, K, tam) == P
  {
    var R := Convolucionar(P, canales, alto, ancho, K, tam);
    forall y, x, c | 0 <= y < alto && 0 <= x < ancho && 0 <= c < canales
      ensures R[y][x][c] == P[y][x][c]
    {
      ConvUniforme(P, canales, alto, ancho, K, tam, y, x, c, tam);
      RedondearEntero(P[0][0][c]);
    }
    PixelesExt(R, P, alto, ancho, canales);
  }

  /** The 1 x 1 kernel of weight 1 leaves every grid as it is. */
  lemma ConvolucionarIdentidad(P: Pixeles, canales: nat, alto: nat, ancho: nat)
    requires Forma(P, alto, ancho, canales) && EnBytes(P)
    ensures Convolucionar(P, canales, alto, ancho, [[1.0]], 1) == P
  {
    var R := Convolucionar(P, canales, alto, ancho, [[1.0]], 1);
    forall y, x, c | 0 <= y < alto && 0 <= x < ancho && 0 <= c < canales
      ensures R[y][x][c] == P[y][x][c]
    {
      var K: Kernel := [[1.0]];
      assert Vecino(P, canales, alto, ancho, y + 0 - 1 / 2, x + 0 - 1 / 2, c) == P[y][x][c];
      assert SumaFilaConv(P, canales, alto, ancho, K, 1, y, x, c, 0, 1) == P[y][x][c] as real;
      assert SumaConv(P, canales, alto, ancho, K, 1, y, x, c, 1) == P[y][x][c] as real;
      RedondearEntero(P[y][x][c]);
    }
    PixelesExt(R, P, alto, ancho, canales);
  }

  /** A byte under a non-negative weight contributes between 0 and 255 times the weight. */
  lemma TerminoConvAcotado(P: Pixeles, canales: int, alto: int, ancho: int, K: Kernel, tam: int,
                       y: int, x: int, c: int, ky: int, kx: int)
    requires alto >= 1 && ancho >= 1 && Forma(P, alto, ancho, canales) && EnBytes(P) && 0 <= c < canales
    requires Cuadrada(K, tam) && 0 <= ky < tam && 0 <= kx < tam && K[ky][kx] >= 0.0
    ensures 0.0 <= Termino(P, canales, alto, ancho, K, tam, y, x, c, ky, kx) <= 255.0 * K[ky][kx]
  {
    var v := Vecino(P, canales, alto, ancho, y + ky - tam / 2, x + kx - tam / 2, c) as real;
    MulNoNeg(v, K[ky][kx]);
    MulNoNeg(255.0 - v, K[ky][kx]);
  }

  lemma {:induction false} FilaConvAcotada(P: Pixeles, canales: int, alto: int, ancho: int, K: Kernel, tam: int,
                                           y: int, x: int, c: int, ky: int, m: nat)
    requires alto >= 1 && ancho >= 1 && Forma(P, alto, ancho, canales) && EnBytes(P) && 0 <= c < canales
    requires Cuadrada(K, tam) && 0 <= ky < tam && m <= tam
    requires forall j :: 0 <= j < tam ==> K[ky][j] >= 0.0
    ensures 0.0 <= SumaFilaConv(P, canales, alto, ancho, K, tam, y, x, c, ky, m) <= 255.0 * SumaPesosFila(K[ky], m)
  {
    if m > 0 {
      FilaConvAcotada(P, canales, alto, ancho, K, tam, y, x, c, ky, m - 1);
      TerminoConvAcotado(P, canales, alto, ancho, K, tam, y, x, c, ky, m - 1);
    }
  }

  lemma {:induction false} ConvAcotada(P: Pixeles, canales: int, alto: int, ancho: int, K: Kernel, tam: int,
                                       y: int, x: int, c: int, n: nat)
    requires alto >= 1 && ancho >= 1 && Forma(P, alto, ancho, canales) && EnBytes(P) && 0 <= c < canales
    requires Cuadrada(K, tam) && n <= tam
    requires forall i, j :: 0 <= i < tam && 0 <= j < tam ==> K[i][j] >= 0.0
    ensures 0.0 <= SumaConv(P, canales, alto, ancho, K, tam, y, x, c, n) <= 255.0 * SumaFilas(K, n)
  {
    if n > 0 {
      ConvAcotada(P, canales, alto, ancho, K, tam, y, x, c, n - 1);
      FilaConvAcotada(P, canales, alto, ancho, K, tam, y, x, c, n - 1, tam);
    }
  }

  /** With non-negative weights summing to 1 the window sum of a byte grid already lies in `[0, 255]`,
      so the final clamp never changes the rounded value. */
  lemma ConvSinSaturacion(P: Pixeles, canales: int, alto: int, ancho: int, K: Kernel, tam: int, y: int, x: int, c: int)
    requires alto >= 1 && ancho >= 1 && Forma(P, alto, ancho, canales) && EnBytes(P) && 0 <= c < canales
    requires Cuadrada(K, tam) && Total(K) == 1.0
    requires forall i, j :: 0 <= i < tam && 0 <= j < tam ==> K[i][j] >= 0.0
    ensures 0.0 <= SumaConv(P, canales, alto, ancho, K, tam, y, x, c, tam) <= 255.0
    ensures ConvPixel(P, canales, alto, ancho, K, tam, y, x, c) == Redondear(SumaConv(P, canales, alto, ancho, K, tam, y, x, c, tam))
  {
    ConvAcotada(P, canales, alto, ancho, K, tam, y, x, c, tam);
    RedondearAcotado(SumaConv(P, canales, alto, ancho, K, tam, y, x, c, tam), 0, 255);
  }

  /** The Gaussian kernel never saturates: every blurred value is the rounded window sum. */
  lemma GaussianaSinSaturacion(P: Pixeles, canales: int, alto: int, ancho: int, tam: nat, sigma: real,
                               exp: real -> real, y: int, x: int, c: int)
    requires alto >= 1 && ancho >= 1 && Forma(P, alto, ancho, canales) && EnBytes(P) && 0 <= c < canales
    requires tam >= 1 && sigma != 0.0 && forall r :: exp(r) > 0.0
    ensures var K := KernelGaussiano(tam, sigma, exp);
      ConvPixel(P, canales, alto, ancho, K, tam, y, x, c) == Redondear(SumaConv(P, canales, alto, ancho, K, tam, y, x, c, tam))
  {
    KernelSumaUno(tam, sigma, exp);
    KernelPositivo(tam, sigma, exp);
    ConvSinSaturacion(P, canales, alto, ancho, KernelGaussiano(tam, sigma, exp), tam, y, x, c);
  }

  /** The whole transform on values: extents and channel count kept, every channel blurred. */
  function Convolucionada(img: Imagen, tam: nat, sigma: real, exp: real -> real): (r: Imagen)
    requires Bien(img) && tam >= 1 && sigma != 0.0 && forall r :: exp(r) > 0.0
    ensures Bien(r) && r.ancho == img.ancho && r.alto == img.alto && r.canales == img.canales
  {
    Imagen(img.ancho, img.alto, img.canales,
           Convolucionar(img.px, img.canales, img.alto, img.ancho, KernelGaussiano(tam, sigma, exp), tam))
  }

  /** A 1 x 1 Gaussian blur leaves the image as it is. */
  lemma ConvolucionadaUnitaria(img: Imagen, sigma: real, exp: real -> real)
    requires Bien(img) && sigma != 0.0 && forall r :: exp(r) > 0.0
    ensures Convolucionada(img, 1, sigma, exp) == img
  {
    KernelUnitario(sigma, exp);
    ConvolucionarIdentidad(img.px, img.canales, img.alto, img.ancho);
  }

  /** A Gaussian blur of any size leaves an image whose pixels are all equal as it is. */
  lemma ConvolucionadaUniforme(img: Imagen, tam: nat, sigma: real, exp: real -> real)
    requires Bien(img) && img.alto >= 1 && img.ancho >= 1 && tam >= 1 && sigma != 0.0 && forall r :: exp(r) > 0.0
    requires forall y, x :: 0 <= y < img.alto && 0 <= x < img.ancho ==> img.px[y][x] == img.px[0][0]
    ensures Convolucionada(img, tam, sigma, exp) == img
  {
    KernelSumaUno(tam, sigma, exp);
    ConvolucionarUniforme(img.px, img.canales, img.alto, img.ancho, KernelGaussiano(tam, sigma, exp), tam);
  }

  // ---------- Kernel buffer ----------

  /** The kernel buffer `k` holds the kernel `K`. */
  ghost predicate ContieneKernel(k: array2<real>, K: Kernel)
    reads k
  {
    |K| == k.Length0 && (forall i :: 0 <= i < |K| ==> |K[i]| == k.Length1) &&
    forall i, j :: 0 <= i < k.Length0 && 0 <= j < k.Length1 ==> k[i, j] == K[i][j]
  }

  /** One row `y` of the fill loop of `generarKernelGaussiano`: its weights written and added to `suma`. */
  method EscribirFilaPesos(k: array2<real>, tamKernel: nat, sigma: real, exp: real -> real, y: int, suma0: real)
    returns (suma: real)
    requires sigma != 0.0 && forall r :: exp(r) > 0.0
    requires k.Length0 == tamKernel && k.Length1 == tamKernel && 0 <= y < tamKernel
    modifies k
    ensures suma == suma0 + SumaPesosFila(Pesos(tamKernel, sigma, exp)[y], tamKernel)
    ensures forall yy, xx :: 0 <= yy < tamKernel && 0 <= xx < tamKernel ==>
      k[yy, xx] == if yy == y then Pesos(tamKernel, sigma, exp)[yy][xx] else old(k[yy, xx])
  {
    ghost var W := Pesos(tamKernel, sigma, exp);
    suma := suma0;
    var x := 0;
    while x < tamKernel
      invariant 0 <= x <= tamKernel
      invariant suma == suma0 + SumaPesosFila(W[y], x)
      invariant forall yy, xx :: 0 <= yy < tamKernel && 0 <= xx < tamKernel ==>
        k[yy, xx] == if yy == y && xx < x then W[yy][xx] else old(k[yy, xx])
    {
      k[y, x] := Peso(tamKernel, sigma, exp, y, x);
      suma := suma + k[y, x];
      x := x + 1;
    }
  }

  /** The fill loop of `generarKernelGaussiano`: every weight written, and their running sum. */
  method EscribirPesos(k: array2<real>, tamKernel: nat, sigma: real, exp: real -> real) returns (suma: real)
    requires sigma != 0.0 && forall r :: exp(r) > 0.0
    requires k.Length0 == tamKernel && k.Length1 == tamKernel
    modifies k
    ensures ContieneKernel(k, Pesos(tamKernel, sigma, exp)) && suma == Total(Pesos(tamKernel, sigma, exp))
  {
    ghost var W := Pesos(tamKernel, sigma, exp);
    suma := 0.0;
    var y := 0;
    while y < tamKernel
      invariant 0 <= y <= tamKernel
      invariant suma == SumaFilas(W, y)
      invariant forall yy, xx :: 0 <= yy < y && 0 <= xx < tamKernel ==> k[yy, xx] == W[yy][xx]
    {
      suma := EscribirFilaPesos(k, tamKernel, sigma, exp, y, suma);
      y := y + 1;
    }
  }

  /** The normalisation loop of `generarKernelGaussiano`: every weight divided in place by `suma`. */
  method DividirPesos(k: array2<real>, ghost W: Kernel, suma: real)
    requires suma != 0.0 && ContieneKernel(k, W)
    modifies k
    ensures ContieneKernel(k, Escalado(W, suma))
  {
    var y := 0;
    while y < k.Length0
      invariant 0 <= y <= k.Length0
      invariant forall yy, xx :: 0 <= yy < k.Length0 && 0 <= xx < k.Length1 ==>
        k[yy, xx] == if yy < y then W[yy][xx] / suma else W[yy][xx]
    {
      var x := 0;
      while x < k.Length1
        invariant 0 <= x <= k.Length1
        invariant forall yy, xx :: 0 <= yy < k.Length0 && 0 <= xx < k.Length1 ==>
          k[yy, xx] == if yy < y || (yy == y && xx < x) then W[yy][xx] / suma else W[yy][xx]
      {
        k[y, x] := k[y, x] / suma;
        x := x + 1;
      }
      y := y + 1;
    }
  }

  /** `generarKernelGaussiano`: the `tamKernel x tamKernel` Gaussian kernel, or null when an allocation
      fails. A size of 0 gives an empty kernel. The weights are written with their running sum, then
      divided by it. */
  method GenerarKernelGaussiano(tamKernel: int, sigma: real, exp: real -> real) returns (kernel: array2?<real>)
    requires tamKernel >= 0 && (tamKernel >= 1 ==> sigma != 0.0)
    requires forall r :: exp(r) > 0.0
    ensures kernel != null ==> fresh(kernel) && kernel.Length0 == tamKernel && kernel.Length1 == tamKernel
    ensures kernel != null && tamKernel >= 1 ==> ContieneKernel(kernel, KernelGaussiano(tamKernel, sigma, exp))
  {
    var okMemoria := Plataforma.Malloc();
    if !okMemoria {
      return null;
    }
    var k := new real[tamKernel, tamKernel];
    if tamKernel == 0 {
      return k;
    }
    var suma := EscribirPesos(k, tamKernel, sigma, exp);
    SumaPositiva(Pesos(tamKernel, sigma, exp), tamKernel, tamKernel);
    DividirPesos(k, Pesos(tamKernel, sigma, exp), suma);
    return k;
  }

  // ---------- Workers ----------

  /** The grid `T` is the blur of `P`, cell by cell. */
  ghost predicate EsConvolucion(T: Pixeles, P: Pixeles, canales: int, alto: int, ancho: int, K: Kernel, tam: int)
    requires Forma(P, alto, ancho, canales) && Cuadrada(K, tam)
  {
    Forma(T, alto, ancho, canales) &&
    forall y, x, c {:trigger ConvPixel(P, canales, alto, ancho, K, tam, y, x, c)} ::
      0 <= y < alto && 0 <= x < ancho && 0 <= c < canales ==>
        T[y][x][c] == ConvPixel(P, canales, alto, ancho, K, tam, y, x, c)
  }

  /** The convolved grid is the one grid that `EsConvolucion` describes. */
  lemma EsConvolucionUnico(T: Pixeles, P: Pixeles, canales: nat, alto: nat, ancho: nat, K: Kernel, tam: int)
    requires Forma(P, alto, ancho, canales) && Cuadrada(K, tam)
    ensures EsConvolucion(T, P, canales, alto, ancho, K, tam) <==> T == Convolucionar(P, canales, alto, ancho, K, tam)
  {
    var R := Convolucionar(P, canales, alto, ancho, K, tam);
    if EsConvolucion(T, P, canales, alto, ancho, K, tam) {
      forall y, x, c | 0 <= y < alto && 0 <= x < ancho && 0 <= c < canales
        ensures T[y][x][c] == R[y][x][c]
      {
        assert T[y][x][c] == ConvPixel(P, canales, alto, ancho, K, tam, y, x, c);
      }
      PixelesExt(T, R, alto, ancho, canales);
    }
    if T == R {
      forall y, x, c | 0 <= y < alto && 0 <= x < ancho && 0 <= c < canales
        ensures T[y][x][c] == ConvPixel(P, canales, alto, ancho, K, tam, y, x, c)
      {
      }
    }
  }

  /** `ConvolucionArgs`: source and result grids, the worker's rows `[inicio, fin)`, the extents and the kernel. */
  datatype ArgumentosConvolucion = ArgumentosConvolucion(pixeles: array3<byte>, pixelesResultado: array3<byte>,
                                                         inicio: int, fin: int, ancho: int, alto: int, canales: int,
                                                         kernel: array2<real>, tamKernel: int)

  /** The shape facts every worker relies on: both grids `alto x ancho x canales`, a square kernel buffer
      `tamKernel x tamKernel` holding `K`, and the source holding `P`. */
  ghost predicate ArgumentosBien(A: ArgumentosConvolucion, P: Pixeles, K: Kernel)
    reads A.pixeles, A.kernel
  {
    A.pixeles != A.pixelesResultado && A.canales >= 0 && A.tamKernel >= 0 &&
    A.pixeles.Length0 == A.alto && A.pixeles.Length1 == A.ancho && A.pixeles.Length2 == A.canales &&
    A.pixelesResultado.Length0 == A.alto && A.pixelesResultado.Length1 == A.ancho &&
    A.pixelesResultado.Length2 == A.canales &&
    A.kernel.Length0 == A.tamKernel && A.kernel.Length1 == A.tamKernel &&
    Contiene(A.pixeles, P) && ContieneKernel(A.kernel, K)
  }

  /** One term of the window sum: the neighbour `(y + ky - centro, x + kx - centro)` with both
      coordinates clamped to the image, times the weight `kernel[ky][kx]`. */
  method TerminoVentana(A: ArgumentosConvolucion, ghost P: Pixeles, ghost K: Kernel, y: int, x: int, c: int,
                        ky: int, kx: int) returns (t: real)
    requires ArgumentosBien(A, P, K)
    requires 0 <= y < A.alto && 0 <= x < A.ancho && 0 <= c < A.canales
    requires 0 <= ky < A.tamKernel && 0 <= kx < A.tamKernel
    ensures t == Termino(P, A.canales, A.alto, A.ancho, K, A.tamKernel, y, x, c, ky, kx)
  {
    var centro := A.tamKernel / 2;
    var px := x + kx - centro;
    var py := y + ky - centro;
    if px < 0 { px := 0; }
    if px >= A.ancho { px := A.ancho - 1; }
    if py < 0 { py := 0; }
    if py >= A.alto { py := A.alto - 1; }
    assert px == ReplicarBorde(x + kx - centro, A.ancho) && py == ReplicarBorde(y + ky - centro, A.alto);
    t := A.pixeles[py, px, c] as real * A.kernel[ky, kx];
  }

  /** The window loop nest of `convolucionHilo` for one channel of one pixel: the neighbour coordinates
      clamped to the image, the weighted sum, the rounding and the clamp to a byte. */
  method PixelConvolucion(A: ArgumentosConvolucion, ghost P: Pixeles, ghost K: Kernel, y: int, x: int, c: int)
    returns (v: byte)
    requires ArgumentosBien(A, P, K)
    requires 0 <= y < A.alto && 0 <= x < A.ancho && 0 <= c < A.canales
    ensures v == ConvPixel(P, A.canales, A.alto, A.ancho, K, A.tamKernel, y, x, c)
  {
    var suma := 0.0;
    var ky := 0;
    while ky < A.tamKernel
      invariant 0 <= ky <= A.tamKernel
      invariant suma == SumaConv(P, A.canales, A.alto, A.ancho, K, A.tamKernel, y, x, c, ky)
    {
      var kx := 0;
      while kx < A.tamKernel
        invariant 0 <= kx <= A.tamKernel
        invariant suma == SumaConv(P, A.canales, A.alto, A.ancho, K, A.tamKernel, y, x, c, ky) +
                          SumaFilaConv(P, A.canales, A.alto, A.ancho, K, A.tamKernel, y, x, c, ky, kx)
      {
        var t := TerminoVentana(A, P, K, y, x, c, ky, kx);
        suma := suma + t;
        kx := kx + 1;
      }
      ky := ky + 1;
    }
    var resultado := Redondear(suma);
    if resultado < 0 { resultado := 0; }
    if resultado > 255 { resultado := 255; }
    v := resultado;
  }

  /** `convolucionHilo`: where the source holds `P`, the kernel buffer holds `K` and the result holds
      `antes`, writes the blurred grid `T` into the rows `[inicio, fin)` and leaves every other row as it
      was. A start past the end gives an empty range. */
  method ConvolucionHilo(A: ArgumentosConvolucion, ghost P: Pixeles, ghost K: Kernel, ghost T: Pixeles,
                         ghost antes: Pixeles)
    requires ArgumentosBien(A, P, K) && 0 <= A.inicio && A.fin <= A.alto
    requires Contiene(A.pixelesResultado, antes)
    requires EsConvolucion(T, P, A.canales, A.alto, A.ancho, K, A.tamKernel)
    modifies A.pixelesResultado
    ensures Contiene(A.pixelesResultado, Filas(antes, T, A.inicio, A.fin))
  {
    var D := A.pixelesResultado;
    var y := A.inicio;
    while y < A.fin
      invariant A.inicio <= y && (A.inicio <= A.fin ==> y <= A.fin)
      invariant A.fin < A.inicio ==> y == A.inicio
      invariant Progreso(D, T, antes, A.inicio, y, 0, 0)
      invariant ArgumentosBien(A, P, K)
    {
      var x := 0;
      while x < A.ancho
        invariant 0 <= x <= A.ancho
        invariant Progreso(D, T, antes, A.inicio, y, x, 0)
        invariant ArgumentosBien(A, P, K)
      {
        var c := 0;
        while c < A.canales
          invariant 0 <= c <= A.canales
          invariant Progreso(D, T, antes, A.inicio, y, x, c)
          invariant ArgumentosBien(A, P, K)
        {
          var v := PixelConvolucion(A, P, K, y, x, c);
          Escribir(D, T, antes, A.inicio, y, x, c, v);
          c := c + 1;
        }
        ProgresoPixel(D, T, antes, A.inicio, y, x);
        x := x + 1;
      }
      ProgresoFila(D, T, antes, A.inicio, y);
      y := y + 1;
    }
    ProgresoFinal(D, T, antes, A.inicio, A.fin, y);
  }

  // ---------- The transform ----------

  /** The state of the worker loop once the rows `[0, hecho)` are finished: the arguments are well
      formed for the source grid `P` and the kernel `K`, `T` is the blurred grid, and the result buffer
      holds `T` on the finished rows and its initial contents `inicial` elsewhere. */
  ghost predicate EstadoConv(A: ArgumentosConvolucion, P: Pixeles, K: Kernel, T: Pixeles, inicial: Pixeles, hecho: int)
    reads A.pixeles, A.pixelesResultado, A.kernel
  {
    ArgumentosBien(A, P, K) && Cuadrada(K, A.tamKernel) &&
    EsConvolucion(T, P, A.canales, A.alto, A.ancho, K, A.tamKernel) &&
    |inicial| == A.alto && Contiene(A.pixelesResultado, Filas(inicial, T, 0, hecho))
  }

  /** Starting worker `i` of the loop with its rows `RangoHilo(i, k, alto)`, whose start is not clamped.
      When the start succeeds the worker runs to completion, which extends the finished rows from
      `[0, min(i * k, alto))` to `[0, min((i + 1) * k, alto))`. */
  method LanzarHiloConv(A: ArgumentosConvolucion, ghost P: Pixeles, ghost K: Kernel, ghost T: Pixeles,
                        ghost inicial: Pixeles, i: int, k: int)
    returns (creado: bool)
    requires i >= 0 && k >= 0 && A.alto >= 0
    requires EstadoConv(A, P, K, T, inicial, Hechas(i, k, A.alto))
    modifies A.pixelesResultado
    ensures creado ==> EstadoConv(A, P, K, T, inicial, Hechas(i + 1, k, A.alto))
  {
    var r := RangoHilo(i, k, A.alto);
    var args := A.(inicio := r.ini, fin := r.fin);
    creado := Plataforma.PthreadCreate();
    if creado {
      assert 0 <= i * k by { ProductoNoNegativo(i, k); }
      HechasEs(i, k, A.alto);
      HechasEs(i + 1, k, A.alto);
      ghost var hecho := Hechas(i, k, A.alto);
      FilasExtiende(inicial, T, hecho, r.ini, r.fin);
      ConvolucionHilo(args, P, K, T, Filas(inicial, T, 0, hecho));
    }
  }

  /** The thread tables and one worker per row range. False when a table cannot be allocated or a
      worker cannot be started; otherwise the result buffer holds `T`. */
  method EjecutarHilosConv(A: ArgumentosConvolucion, ghost P: Pixeles, ghost K: Kernel, ghost T: Pixeles,
                           ghost inicial: Pixeles, numHilos: int)
    returns (ok: bool)
    requires 1 <= numHilos && A.alto >= 0
    requires EstadoConv(A, P, K, T, inicial, 0)
    modifies A.pixelesResultado
    ensures ok ==> Contiene(A.pixelesResultado, T)
  {
    var okHilos := Plataforma.Malloc();
    var okArgs := Plataforma.Malloc();
    if !okHilos || !okArgs {
      return false;
    }
    var k := FilasPorHilo(A.alto, numHilos);
    var i := 0;
    while i < numHilos
      invariant 0 <= i <= numHilos
      invariant EstadoConv(A, P, K, T, inicial, Hechas(i, k, A.alto))
    {
      var creado := LanzarHiloConv(A, P, K, T, inicial, i, k);
      if !creado {
        return false;
      }
      i := i + 1;
    }
    HechasTodas(A.alto, numHilos);
    FilasTodas(inicial, T, A.alto);
    return true;
  }

  /** The result allocation and the workers of `aplicarConvolucionConcurrente` for a source buffer `S`
      holding `P` and a kernel buffer holding `K`: the new buffer holding the blurred grid, or null when
      an allocation or a worker start failed. The new buffer is not cleared before the workers run. */
  method ConvolucionEnHilos(S: array3<byte>, ghost P: Pixeles, ancho: nat, alto: nat, canales: nat,
                            kernel: array2<real>, ghost K: Kernel, tamKernel: nat, numHilos: int)
    returns (D: array3?<byte>)
    requires 1 <= numHilos
    requires S.Length0 == alto && S.Length1 == ancho && S.Length2 == canales && Contiene(S, P)
    requires kernel.Length0 == tamKernel && kernel.Length1 == tamKernel && ContieneKernel(kernel, K)
    ensures D != null ==> fresh(D) && D.Length0 == alto && D.Length1 == ancho && D.Length2 == canales
    ensures D != null ==> Contiene(D, Convolucionar(P, canales, alto, ancho, K, tamKernel))
  {
    var okResultado := Plataforma.Malloc();
    if !okResultado {
      return null;
    }
    var dst := new byte[alto, ancho, canales];
    ghost var inicial := Vista(dst);
    ghost var T := Convolucionar(P, canales, alto, ancho, K, tamKernel);
    EsConvolucionUnico(T, P, canales, alto, ancho, K, tamKernel);
    assert Filas(inicial, T, 0, 0) == inicial;
    var args := ArgumentosConvolucion(S, dst, 0, 0, ancho, alto, canales, kernel, tamKernel);
    var okHilos := EjecutarHilosConv(args, P, K, T, inicial, numHilos);
    if !okHilos {
      return null;
    }
    return dst;
  }

  /** `aplicarConvolucionConcurrente`: replaces the pixels of the loaded image by their Gaussian blur
      with a `tamKernel x tamKernel` kernel of deviation `sigma`, computed by `numHilos` workers; the
      extents and the channel count are kept. No image, an even kernel size or a worker count outside
      `[1, 8]` is rejected before anything is allocated; every failure returns false and leaves `info`
      as it was. */
  method AplicarConvolucionConcurrente(info: ImagenInfo, tamKernel: int, sigma: real, numHilos: int,
                                       exp: real -> real)
    returns (ok: bool)
    requires info.Valid() && forall r :: exp(r) > 0.0
    requires info.pixeles != null && tamKernel % 2 != 0 && 1 <= numHilos <= 8 ==> tamKernel >= 1 && sigma != 0.0
    modifies info
    ensures (old(info.pixeles) == null || tamKernel % 2 == 0 || numHilos < 1 || numHilos > 8) ==> !ok
    ensures !ok ==> unchanged(info)
    ensures ok ==> old(info.pixeles) != null && tamKernel >= 1 && tamKernel % 2 == 1 &&
                   info.Valid() && info.pixeles != null && fresh(info.pixeles) &&
                   info.ancho == old(info.ancho) && info.alto == old(info.alto) && info.canales == old(info.canales) &&
                   info.Modelo() == Convolucionada(old(info.Modelo()), tamKernel, sigma, exp)
  {
    if info.pixeles == null {
      return false;
    }
    if tamKernel % 2 == 0 {
      return false;
    }
    if numHilos < 1 || numHilos > 8 {
      return false;
    }
    var kernel := GenerarKernelGaussiano(tamKernel, sigma, exp);
    if kernel == null {
      return false;
    }
    ghost var original := info.Modelo();
    ghost var K := KernelGaussiano(tamKernel, sigma, exp);
    var resultado := ConvolucionEnHilos(info.pixeles, original.px, info.ancho, info.alto, info.canales,
                                        kernel, K, tamKernel, numHilos);
    if resultado == null {
      return false;
    }
    ContieneVista(resultado, Convolucionada(original, tamKernel, sigma, exp).px);
    info.pixeles := resultado;
    return true;
  }
}
