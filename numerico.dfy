/** The C library's numeric conversions that the transforms rely on, over exact integers and reals. */
module Numerico {

  /** `M_PI`. */
  const PI: real := 3.14159265358979323846

  /** Distance between two integers. */
  function Distancia(a: int, b: int): nat
  {
    if a >= b then a - b else b - a
  }

  /** C `round`: the nearest integer, halves rounded away from zero. */
  function Redondear(v: real): (r: int)
    ensures v >= 0.0 ==> v - 0.5 < r as real <= v + 0.5
    ensures v < 0.0 ==> v - 0.5 <= r as real < v + 0.5
  {
    if v >= 0.0 then (v + 0.5).Floor else -((-v + 0.5).Floor)
  }

  /** An integer rounds to itself. */
  lemma RedondearEntero(n: int)
    ensures Redondear(n as real) == n
  {
  }

  /** Rounding a value that lies between two integers stays between them. */
  lemma RedondearAcotado(v: real, lo: int, hi: int)
    requires lo as real <= v <= hi as real
    ensures lo <= Redondear(v) <= hi
  {
  }

  /** `clampToByte` of the resize, also written out inline after the rounding in the convolution:
      the byte nearest to `v`. */
  function ClampToByte(v: int): (b: int)
    ensures 0 <= b <= 255
    ensures 0 <= v <= 255 ==> b == v
    ensures forall u :: 0 <= u <= 255 ==> Distancia(b, v) <= Distancia(u, v)
  {
    if v < 0 then 0 else if v > 255 then 255 else v
  }

  /** Linear blend from `a` (weight 0) to `b` (weight 1). */
  function Interpola(a: real, b: real, w: real): real
  {
    a + w * (b - a)
  }

  /** A blend with a weight in `[0, 1]` lies between its two ends. */
  lemma InterpolaEntre(a: real, b: real, w: real, lo: real, hi: real)
    requires 0.0 <= w <= 1.0 && lo <= a <= hi && lo <= b <= hi
    ensures lo <= Interpola(a, b, w) <= hi
  {
    if a <= b {
      MulNoNeg(w, b - a);
      MulNoNeg(1.0 - w, b - a);
    } else {
      MulNoNeg(w, a - b);
      MulNoNeg(1.0 - w, a - b);
    }
  }

  /** The bilinear blend of the corners `p00` (left, top), `p10` (right, top), `p01` (left, bottom) and
      `p11` (right, bottom): along x in the upper and the lower row, then along y. */
  function Bilineal(p00: int, p10: int, p01: int, p11: int, wx: real, wy: real): real
  {
    Interpola(Interpola(p00 as real, p10 as real, wx), Interpola(p01 as real, p11 as real, wx), wy)
  }

  function Menor4(a: int, b: int, c: int, d: int): int
  {
    var ab := if a <= b then a else b;
    var cd := if c <= d then c else d;
    if ab <= cd then ab else cd
  }

  function Mayor4(a: int, b: int, c: int, d: int): int
  {
    var ab := if a >= b then a else b;
    var cd := if c >= d then c else d;
    if ab >= cd then ab else cd
  }

  /** The blend with weights in `[0, 1]` lies between the least and the greatest of the four values,
      and its rounding does too. */
  lemma BilinealEntre(p00: int, p10: int, p01: int, p11: int, wx: real, wy: real)
    requires 0.0 <= wx <= 1.0 && 0.0 <= wy <= 1.0
    ensures var lo, hi := Menor4(p00, p10, p01, p11), Mayor4(p00, p10, p01, p11);
      lo as real <= Bilineal(p00, p10, p01, p11, wx, wy) <= hi as real &&
      lo <= Redondear(Bilineal(p00, p10, p01, p11, wx, wy)) <= hi
  {
    var lo, hi := Menor4(p00, p10, p01, p11) as real, Mayor4(p00, p10, p01, p11) as real;
    InterpolaEntre(p00 as real, p10 as real, wx, lo, hi);
    InterpolaEntre(p01 as real, p11 as real, wx, lo, hi);
    InterpolaEntre(Interpola(p00 as real, p10 as real, wx), Interpola(p01 as real, p11 as real, wx), wy, lo, hi);
    RedondearAcotado(Bilineal(p00, p10, p01, p11, wx, wy), Menor4(p00, p10, p01, p11), Mayor4(p00, p10, p01, p11));
  }

  /** A positive factor cancels. */
  lemma Cancelar(u: real, v: real, b: real)
    requires b > 0.0 && u * b == v * b
    ensures u == v
  {
    if u < v {
      MulPos(v - u, b);
    } else if u > v {
      MulPos(u - v, b);
    }
  }

  /** Signs of products and quotients of reals. */
  lemma MulNoNeg(x: real, y: real)
    requires x >= 0.0 && y >= 0.0
    ensures x * y >= 0.0
  {
  }

  lemma MulPos(x: real, y: real)
    requires x > 0.0 && y > 0.0
    ensures x * y > 0.0
  {
  }

  /** A product of two factors of the same sign is positive. */
  lemma MulMismoSigno(x: real, y: real)
    requires (x > 0.0 && y > 0.0) || (x < 0.0 && y < 0.0)
    ensures x * y > 0.0
  {
    if x < 0.0 {
      MulPos(-x, -y);
    }
  }

  /** Integer division by a positive divisor is monotone. */
  lemma DivAcotada(a: int, b: int, c: int)
    requires b > 0 && 0 <= a <= c * b
    ensures a / b <= c
  {
  }

  lemma DivPos(x: real, y: real)
    requires x > 0.0 && y > 0.0
    ensures x / y > 0.0
  {
    assert (x / y) * y == x;
    if x / y <= 0.0 {
      MulNoNeg(-(x / y), y);
    }
  }

  /** C conversion of a floating value to an integer type: truncation toward zero. */
  function Truncar(v: real): (r: int)
    ensures v >= 0.0 ==> r as real <= v < r as real + 1.0
    ensures v < 0.0 ==> r as real - 1.0 < v <= r as real
  {
    if v >= 0.0 then v.Floor else -((-v).Floor)
  }

  /** Integer square root: the largest `r` with `r * r <= n`. */
  function RaizEntera(n: nat): (r: nat)
    ensures r * r <= n < (r + 1) * (r + 1)
  {
    if n == 0 then 0
    else
      var s := RaizEntera(n - 1);
      if (s + 1) * (s + 1) <= n then s + 1 else s
  }

  /** C `lround(sqrt(n))`: the integer nearest to the square root of `n`. For an integer `n` there is
      no tie, since `(r + 1/2)^2 = r^2 + r + 1/4` is never an integer: `r - 1/2 <= sqrt(n) < r + 1/2`
      is, in integers, `r * r - r < n <= r * r + r` (and `r == 0` exactly when `n == 0`). */
  function RaizRedondeada(n: nat): (r: nat)
    ensures (n == 0 && r == 0) || (r * r - r < n <= r * r + r)
  {
    var s := RaizEntera(n);
    if n - s * s > s then s + 1 else s
  }

  /** The nearest integer to a square root is unique. */
  lemma RaizRedondeadaUnica(n: nat, r: nat)
    requires (n == 0 && r == 0) || (r * r - r < n <= r * r + r)
    ensures r == RaizRedondeada(n)
  {
    var q := RaizRedondeada(n);
    BandasSeparadas(r, q);
    BandasSeparadas(q, r);
  }

  /** The bands `(r * r - r, r * r + r]` of different `r` do not overlap. */
  lemma BandasSeparadas(r: nat, q: nat)
    ensures r < q ==> r * r + r <= q * q - q
  {
    if r < q {
      MonotonaCuadradoMenos(r + 1, q);
      assert (r + 1) * (r + 1) - (r + 1) == r * r + r;
    }
  }

  /** The rounded square root of `n` reaches `c` exactly when `n` lies above the band of `c - 1`. */
  lemma RaizRedondeadaAlMenos(n: nat, c: nat)
    requires c >= 1
    ensures RaizRedondeada(n) >= c <==> n > c * c - c
  {
    var r := RaizRedondeada(n);
    if r >= c {
      MonotonaCuadradoMenos(c, r);
    } else {
      MonotonaCuadradoMenos(r + 1, c);
      assert (r + 1) * (r + 1) - (r + 1) == r * r + r;
    }
  }

  /** `t * t - t` grows with `t` on the naturals. */
  lemma {:induction false} MonotonaCuadradoMenos(a: nat, b: nat)
    requires a <= b
    ensures a * a - a <= b * b - b
  {
    if a < b {
      MonotonaCuadradoMenos(a, b - 1);
      assert b * b - b == (b - 1) * (b - 1) - (b - 1) + 2 * (b - 1);
    }
  }

  /** C `fmod(a, b)` for `b > 0`: the remainder of truncating division, with the sign of `a`. */
  function Fmod(a: real, b: real): (r: real)
    requires b > 0.0
    ensures a >= 0.0 ==> 0.0 <= r < b
    ensures a < 0.0 ==> -b < r <= 0.0
    ensures ((a - r) / b).Floor as real == (a - r) / b
  {
    var q := a / b;
    var n := Truncar(q);
    var t := n as real;
    CocienteExacto(a, b, q);
    CocienteTruncado(a, b, q, t);
    DivisionExacta(b, t);
    a - b * t
  }

  lemma CocienteExacto(a: real, b: real, q: real)
    requires b > 0.0 && q == a / b
    ensures q * b == a && (a >= 0.0 <==> q >= 0.0)
  {
  }

  lemma DivisionExacta(b: real, t: real)
    requires b > 0.0
    ensures (b * t) / b == t
  {
  }

  /** `a - b * t` lies between `-b` and `b`, with the sign of `a`, when `t` is `q = a / b`
      truncated toward zero. */
  lemma CocienteTruncado(a: real, b: real, q: real, t: real)
    requires b > 0.0 && q * b == a && (a >= 0.0 <==> q >= 0.0)
    requires q >= 0.0 ==> t <= q < t + 1.0
    requires q < 0.0 ==> t - 1.0 < q <= t
    ensures a >= 0.0 ==> 0.0 <= a - b * t < b
    ensures a < 0.0 ==> -b < a - b * t <= 0.0
    ensures a - (a - b * t) == b * t
  {
    if q >= 0.0 {
      RestoPositivo(a, b, q, t);
    } else {
      RestoNegativo(a, b, q, t);
    }
  }

  lemma RestoPositivo(a: real, b: real, q: real, t: real)
    requires b > 0.0 && q * b == a && t <= q < t + 1.0
    ensures 0.0 <= a - b * t < b
  {
    var d := q - t;
    assert a - b * t == d * b;
    assert 0.0 <= d * b < b;
  }

  lemma RestoNegativo(a: real, b: real, q: real, t: real)
    requires b > 0.0 && q * b == a && t - 1.0 < q <= t
    ensures -b < a - b * t <= 0.0
  {
    var e := t - q;
    FraccionPorPositivo(e, b);
    assert a - b * t == -(e * b);
  }

  lemma FraccionPorPositivo(e: real, b: real)
    requires b > 0.0 && 0.0 <= e < 1.0
    ensures 0.0 <= e * b < b
  {
  }
}

/** Splitting the destination rows `[0, alto)` among `n` workers: worker `i` owns
    `[i * k, min((i + 1) * k, alto))` with `k = ceil(alto / n)`. */
module Particion {

  datatype Rango = Rango(ini: int, fin: int)

  predicate EnRango(r: Rango, y: int)
  {
    r.ini <= y < r.fin
  }

  /** Rows per worker, `(alto + n - 1) / n`: the ceiling of `alto / n`. The `(int)ceil((double)alto / n)`
      of the other transforms is the same number. */
  function FilasPorHilo(alto: int, n: int): (k: int)
    requires alto >= 0 && n >= 1
    ensures k >= 0 && (k - 1) * n < alto <= k * n
  {
    var q := (alto + n - 1) / n;
    assert q * n + (alto + n - 1) % n == alto + n - 1;
    assert (q - 1) * n == q * n - n;
    q
  }

  /** The rows finished once the first `i` workers are done, counted one worker at a time: each adds
      its `k` rows, up to `alto`. */
  function Hechas(i: nat, k: int, alto: int): int
  {
    if i == 0 then 0
    else
      var h := Hechas(i - 1, k, alto) + k;
      if h > alto then alto else h
  }

  /** The first `i` workers finish the rows `[0, min(i * k, alto))`. */
  lemma {:induction false} HechasEs(i: nat, k: int, alto: int)
    requires k >= 0 && alto >= 0
    ensures Hechas(i, k, alto) == if i * k < alto then i * k else alto
  {
    if i > 0 {
      HechasEs(i - 1, k, alto);
      assert i * k == (i - 1) * k + k;
    }
  }

  /** All `n` workers together finish every row. */
  lemma HechasTodas(alto: int, n: int)
    requires alto >= 0 && n >= 1
    ensures Hechas(n, FilasPorHilo(alto, n), alto) == alto
  {
    var k := FilasPorHilo(alto, n);
    HechasEs(n, k, alto);
    assert n * k == k * n;
  }

  /** Worker `i`'s rows: the start is `i * k` (possibly past the end, then the range is empty) and
      the end is clamped to `alto`. */
  function RangoHilo(i: int, k: int, alto: int): Rango
  {
    Rango(i * k, if (i + 1) * k > alto then alto else (i + 1) * k)
  }

  /** The same range with its start clamped to `alto` as well. */
  function RangoHiloAcotado(i: int, k: int, alto: int): (r: Rango)
    ensures forall y :: EnRango(r, y) <==> EnRango(RangoHilo(i, k, alto), y)
  {
    var r := RangoHilo(i, k, alto);
    Rango(if r.ini > alto then alto else r.ini, r.fin)
  }

  /** Every row of a range lies in `[0, alto)`. */
  lemma RangoDentro(alto: int, n: int, i: int, y: int)
    requires alto >= 0 && n >= 1 && 0 <= i < n
    requires EnRango(RangoHilo(i, FilasPorHilo(alto, n), alto), y)
    ensures 0 <= y < alto
  {
    var k := FilasPorHilo(alto, n);
    assert 0 <= i * k by { ProductoNoNegativo(i, k); }
  }

  /** Two different workers never own the same row. */
  lemma RangosDisjuntos(alto: int, n: int, i: int, j: int, y: int)
    requires alto >= 0 && n >= 1 && 0 <= i < n && 0 <= j < n && i != j
    ensures !(EnRango(RangoHilo(i, FilasPorHilo(alto, n), alto), y) &&
              EnRango(RangoHilo(j, FilasPorHilo(alto, n), alto), y))
  {
    var k := FilasPorHilo(alto, n);
    if i < j {
      assert (i + 1) * k <= j * k by { ProductoMonotono(i + 1, j, k); }
    } else {
      assert (j + 1) * k <= i * k by { ProductoMonotono(j + 1, i, k); }
    }
  }

  /** Every row of `[0, alto)` is owned by worker `y / k`, which is one of the `n` workers. */
  lemma RangosCubren(alto: int, n: int, y: int)
    requires alto >= 0 && n >= 1 && 0 <= y < alto
    ensures FilasPorHilo(alto, n) >= 1
    ensures 0 <= y / FilasPorHilo(alto, n) < n
    ensures EnRango(RangoHilo(y / FilasPorHilo(alto, n), FilasPorHilo(alto, n), alto), y)
  {
    var k := FilasPorHilo(alto, n);
    assert k * n >= 1;
    var i := y / k;
    assert i * k + y % k == y;
    assert (i + 1) * k == i * k + k;
    if i >= n {
      assert n * k <= i * k by { ProductoMonotono(n, i, k); }
      assert false;
    }
  }

  lemma ProductoNoNegativo(a: int, b: int)
    requires a >= 0 && b >= 0
    ensures a * b >= 0
  {
  }

  lemma ProductoMonotono(a: int, b: int, k: int)
    requires a <= b && k >= 0
    ensures a * k <= b * k
  {
  }
}
