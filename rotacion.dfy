/** Rotation by an arbitrary angle (functions/rotation.c): the angle brought into `[0, 360)`, the
    bounding box of the rotated corners as the new extents, and every destination pixel mapped back
    into the source by the inverse rotation about the two centres. A point that lands inside the
    source, short of its last row and column, gets the bilinear blend of its four neighbours; every
    other pixel keeps the black of the zero-filled allocation. Four workers split the destination rows.
    `cos` and `sin` enter as parameters. */
module Rotacion {
  import opened Imagen
  import opened Numerico
  import opened Particion
  import Plataforma

  /** `const int numHilos = 4`. */
  const NumHilos: int := 4

  // ---------- The angle ----------

  /** `fmod(angulo, 360)`, then a negative remainder moved up by a turn: an angle in `[0, 360)` that
      differs from `angulo` by a whole number of turns. */
  function NormalizarAngulo(angulo: real): (a: real)
    ensures 0.0 <= a < 360.0
    ensures ((angulo - a) / 360.0).Floor as real == (angulo - a) / 360.0
  {
    var r := Fmod(angulo, 360.0);
    if r < 0.0 then
      VueltaMas(angulo, r);
      r + 360.0
    else r
  }

  /** Adding a turn to the remainder takes one turn off the quotient, which stays whole. */
  lemma VueltaMas(angulo: real, r: real)
    requires ((angulo - r) / 360.0).Floor as real == (angulo - r) / 360.0
    ensures ((angulo - (r + 360.0)) / 360.0).Floor as real == (angulo - (r + 360.0)) / 360.0
  {
    var q := (angulo - r) / 360.0;
    assert (angulo - (r + 360.0)) / 360.0 == q - 1.0;
    assert (q - 1.0).Floor == q.Floor - 1;
  }

  /** An angle already in `[0, 360)` is left as it is. */
  lemma NormalizarAnguloFijo(angulo: real)
    requires 0.0 <= angulo < 360.0
    ensures NormalizarAngulo(angulo) == angulo
  {
    var a := NormalizarAngulo(angulo);
    var q := (angulo - a) / 360.0;
    assert -1.0 < q < 1.0;
    assert q.Floor == 0;
  }

  /** Normalising twice is normalising once. */
  lemma NormalizarAnguloIdempotente(angulo: real)
    ensures NormalizarAngulo(NormalizarAngulo(angulo)) == NormalizarAngulo(angulo)
  {
    NormalizarAnguloFijo(NormalizarAngulo(angulo));
  }

  /** Degrees to radians: `angulo * M_PI / 180`. */
  function Radianes(grados: real): real
  {
    grados * PI / 180.0
  }

  // ---------- The bounding box ----------

  datatype Punto = Punto(x: real, y: real)

  /** The corners `(0, 0)`, `(ancho - 1, 0)`, `(ancho - 1, alto - 1)`, `(0, alto - 1)`, in that order. */
  function Esquinas(ancho: int, alto: int): (e: seq<Punto>)
    ensures |e| == 4
  {
    [Punto(0.0, 0.0), Punto((ancho - 1) as real, 0.0), Punto((ancho - 1) as real, (alto - 1) as real),
     Punto(0.0, (alto - 1) as real)]
  }

  /** The centre of the source, `((ancho - 1) / 2, (alto - 1) / 2)`. */
  function Centro(ancho: int, alto: int): Punto
  {
    Punto((ancho - 1) as real / 2.0, (alto - 1) as real / 2.0)
  }

  /** The forward rotation of a point relative to the centre. */
  function Girar(p: Punto, cosA: real, sinA: real): Punto
  {
    Punto(p.x * cosA - p.y * sinA, p.x * sinA + p.y * cosA)
  }

  /** Corner `i` relative to the centre, rotated. */
  function EsquinaGirada(ancho: int, alto: int, cosA: real, sinA: real, i: int): Punto
    requires 0 <= i < 4
  {
    var e := Esquinas(ancho, alto)[i];
    var c := Centro(ancho, alto);
    Girar(Punto(e.x - c.x, e.y - c.y), cosA, sinA)
  }

  /** The least of the first `n` values, taken the way the corner loop does: the first value, then
      every later one that is smaller. */
  function Minimo(s: seq<real>, n: nat): real
    requires 1 <= n <= |s|
  {
    if n == 1 then s[0]
    else
      var m := Minimo(s, n - 1);
      if s[n - 1] < m then s[n - 1] else m
  }

  /** The greatest of the first `n` values, taken the same way. */
  function Maximo(s: seq<real>, n: nat): real
    requires 1 <= n <= |s|
  {
    if n == 1 then s[0]
    else
      var m := Maximo(s, n - 1);
      if s[n - 1] > m then s[n - 1] else m
  }

  /** `Minimo` is a lower bound of the first `n` values and is one of them. */
  lemma {:induction false} MinimoEsMinimo(s: seq<real>, n: nat)
    requires 1 <= n <= |s|
    ensures forall i :: 0 <= i < n ==> Minimo(s, n) <= s[i]
    ensures exists i :: 0 <= i < n && Minimo(s, n) == s[i]
  {
    if n > 1 {
      MinimoEsMinimo(s, n - 1);
      if s[n - 1] < Minimo(s, n - 1) {
        assert Minimo(s, n) == s[n - 1];
      } else {
        var j :| 0 <= j < n - 1 && Minimo(s, n - 1) == s[j];
        assert Minimo(s, n) == s[j];
      }
    } else {
      assert Minimo(s, n) == s[0];
    }
  }

  /** `Maximo` is an upper bound of the first `n` values and is one of them. */
  lemma {:induction false} MaximoEsMaximo(s: seq<real>, n: nat)
    requires 1 <= n <= |s|
    ensures forall i :: 0 <= i < n ==> s[i] <= Maximo(s, n)
    ensures exists i :: 0 <= i < n && Maximo(s, n) == s[i]
  {
    if n > 1 {
      MaximoEsMaximo(s, n - 1);
      if s[n - 1] > Maximo(s, n - 1) {
        assert Maximo(s, n) == s[n - 1];
      } else {
        var j :| 0 <= j < n - 1 && Maximo(s, n - 1) == s[j];
        assert Maximo(s, n) == s[j];
      }
    } else {
      assert Maximo(s, n) == s[0];
    }
  }

  datatype Caja = Caja(minX: real, maxX: real, minY: real, maxY: real)

  /** The x and the y coordinates of the four rotated corners. */
  function XsGiradas(ancho: int, alto: int, cosA: real, sinA: real): seq<real>
  {
    seq(4, i requires 0 <= i < 4 => EsquinaGirada(ancho, alto, cosA, sinA, i).x)
  }

  function YsGiradas(ancho: int, alto: int, cosA: real, sinA: real): seq<real>
  {
    seq(4, i requires 0 <= i < 4 => EsquinaGirada(ancho, alto, cosA, sinA, i).y)
  }

  /** The bounding box of the rotated corners. */
  function CajaGirada(ancho: int, alto: int, cosA: real, sinA: real): Caja
  {
    var xs := XsGiradas(ancho, alto, cosA, sinA);
    var ys := YsGiradas(ancho, alto, cosA, sinA);
    Caja(Minimo(xs, 4), Maximo(xs, 4), Minimo(ys, 4), Maximo(ys, 4))
  }

  /** The box is the least one holding the four rotated corners: each bound is met by some corner. */
  lemma CajaContieneEsquinas(ancho: int, alto: int, cosA: real, sinA: real)
    ensures var b := CajaGirada(ancho, alto, cosA, sinA);
      (forall i :: 0 <= i < 4 ==>
        b.minX <= EsquinaGirada(ancho, alto, cosA, sinA, i).x <= b.maxX &&
        b.minY <= EsquinaGirada(ancho, alto, cosA, sinA, i).y <= b.maxY) &&
      (exists i :: 0 <= i < 4 && b.minX == EsquinaGirada(ancho, alto, cosA, sinA, i).x) &&
      (exists i :: 0 <= i < 4 && b.maxX == EsquinaGirada(ancho, alto, cosA, sinA, i).x) &&
      (exists i :: 0 <= i < 4 && b.minY == EsquinaGirada(ancho, alto, cosA, sinA, i).y) &&
      (exists i :: 0 <= i < 4 && b.maxY == EsquinaGirada(ancho, alto, cosA, sinA, i).y)
  {
    var xs := XsGiradas(ancho, alto, cosA, sinA);
    var ys := YsGiradas(ancho, alto, cosA, sinA);
    assert |xs| == 4 && |ys| == 4;
    assert forall i :: 0 <= i < 4 ==>
      xs[i] == EsquinaGirada(ancho, alto, cosA, sinA, i).x && ys[i] == EsquinaGirada(ancho, alto, cosA, sinA, i).y;
    MinimoEsMinimo(xs, 4);
    MaximoEsMaximo(xs, 4);
    MinimoEsMinimo(ys, 4);
    MaximoEsMaximo(ys, 4);
  }

  /** The new extents `(int)(maxX - minX + 1)` and `(int)(maxY - minY + 1)`: at least 1 each, since
      the box is never inverted. */
  function Dimensiones(ancho: int, alto: int, cosA: real, sinA: real): (d: (int, int))
    ensures d.0 >= 1 && d.1 >= 1
  {
    var b := CajaGirada(ancho, alto, cosA, sinA);
    CajaContieneEsquinas(ancho, alto, cosA, sinA);
    (Truncar(b.maxX - b.minX + 1.0), Truncar(b.maxY - b.minY + 1.0))
  }

  /** The corner loop of `rotarImagenConcurrente`: each corner moved to the centre and rotated, the
      first one setting all four bounds and every later one widening them. */
  method CajaEnvolvente(ancho: int, alto: int, cosAngulo: real, sinAngulo: real) returns (caja: Caja)
    ensures caja == CajaGirada(ancho, alto, cosAngulo, sinAngulo)
  {
    ghost var xs := XsGiradas(ancho, alto, cosAngulo, sinAngulo);
    ghost var ys := YsGiradas(ancho, alto, cosAngulo, sinAngulo);
    var esquinas := Esquinas(ancho, alto);
    var minX, maxX, minY, maxY := 0.0, 0.0, 0.0, 0.0;
    var centro := Centro(ancho, alto);
    var i := 0;
    while i < 4
      invariant 0 <= i <= 4
      invariant i >= 1 ==> minX == Minimo(xs, i) && maxX == Maximo(xs, i) &&
                           minY == Minimo(ys, i) && maxY == Maximo(ys, i)
    {
      var girada := Girar(Punto(esquinas[i].x - centro.x, esquinas[i].y - centro.y), cosAngulo, sinAngulo);
      var xRot := girada.x;
      var yRot := girada.y;
      if i == 0 {
        minX, maxX := xRot, xRot;
        minY, maxY := yRot, yRot;
      } else {
        if xRot < minX { minX := xRot; }
        if xRot > maxX { maxX := xRot; }
        if yRot < minY { minY := yRot; }
        if yRot > maxY { maxY := yRot; }
      }
      i := i + 1;
    }
    caja := Caja(minX, maxX, minY, maxY);
  }

  // ---------- The inverse mapping and the blend ----------

  /** What every worker shares besides the grids: the cosine and sine of the angle, the source centre
      `(int)((ancho - 1) / 2.0)`, `(int)((alto - 1) / 2.0)` and the destination centre
      `nuevoAncho / 2`, `nuevoAlto / 2`. */
  datatype Mapeo = Mapeo(cosAngulo: real, sinAngulo: real, centroXOrigen: int, centroYOrigen: int,
                         centroXDestino: int, centroYDestino: int)

  /** The source point of destination pixel `(x, y)`: moved to the destination centre, rotated back by
      the transposed matrix, moved to the source centre. */
  function PuntoOrigen(m: Mapeo, x: int, y: int): Punto
  {
    var xRelativo := (x - m.centroXDestino) as real;
    var yRelativo := (y - m.centroYDestino) as real;
    Punto(xRelativo * m.cosAngulo + yRelativo * m.sinAngulo + m.centroXOrigen as real,
          -xRelativo * m.sinAngulo + yRelativo * m.cosAngulo + m.centroYOrigen as real)
  }

  /** The bounds check of `rotarImagenHilo`: inside the source and short of its last column and row. */
  predicate Acepta(p: Punto, anchoOrigen: int, altoOrigen: int)
  {
    p.x >= 0.0 && p.x < (anchoOrigen - 1) as real && p.y >= 0.0 && p.y < (altoOrigen - 1) as real
  }

  /** An accepted point has its four neighbours `(x1, y1)`, `(x1 + 1, y1)`, `(x1, y1 + 1)`,
      `(x1 + 1, y1 + 1)` inside the source, and its fractional offsets in `[0, 1)`. */
  lemma AceptaEnRango(p: Punto, anchoOrigen: int, altoOrigen: int)
    requires Acepta(p, anchoOrigen, altoOrigen)
    ensures 0 <= Truncar(p.x) && Truncar(p.x) + 1 <= anchoOrigen - 1
    ensures 0 <= Truncar(p.y) && Truncar(p.y) + 1 <= altoOrigen - 1
    ensures 0.0 <= p.x - Truncar(p.x) as real < 1.0 && 0.0 <= p.y - Truncar(p.y) as real < 1.0
  {
  }

  /** `(1 - dx) * (1 - dy) * p11 + dx * (1 - dy) * p12 + (1 - dx) * dy * p21 + dx * dy * p22`, with
      `p11` at `(x1, y1)`, `p12` at `(x2, y1)`, `p21` at `(x1, y2)` and `p22` at `(x2, y2)`. */
  function Mezcla(p11: int, p12: int, p21: int, p22: int, dx: real, dy: real): real
  {
    (1.0 - dx) * (1.0 - dy) * p11 as real + dx * (1.0 - dy) * p12 as real +
    (1.0 - dx) * dy * p21 as real + dx * dy * p22 as real
  }

  /** The four weights form the blend along x in both rows, then along y. */
  lemma MezclaEsBilineal(p11: int, p12: int, p21: int, p22: int, dx: real, dy: real)
    ensures Mezcla(p11, p12, p21, p22, dx, dy) == Bilineal(p11, p12, p21, p22, dx, dy)
  {
  }

  /** The stored value `(unsigned char)(valor + 0.5)`. With offsets in `[0, 1]` the blend is a convex
      combination of the four bytes, so `valor + 0.5` lies in `[0.5, 255.5]`: the conversion never
      leaves the byte range, and the value lies between the least and the greatest neighbour. */
  function ValorRotado(p11: int, p12: int, p21: int, p22: int, dx: real, dy: real): (v: int)
    requires 0 <= p11 <= 255 && 0 <= p12 <= 255 && 0 <= p21 <= 255 && 0 <= p22 <= 255
    requires 0.0 <= dx <= 1.0 && 0.0 <= dy <= 1.0
    ensures 0.0 <= Mezcla(p11, p12, p21, p22, dx, dy) <= 255.0
    ensures v as real <= Mezcla(p11, p12, p21, p22, dx, dy) + 0.5 < v as real + 1.0
    ensures Menor4(p11, p12, p21, p22) <= v <= Mayor4(p11, p12, p21, p22) && 0 <= v <= 255
  {
    MezclaEsBilineal(p11, p12, p21, p22, dx, dy);
    BilinealEntre(p11, p12, p21, p22, dx, dy);
    Truncar(Mezcla(p11, p12, p21, p22, dx, dy) + 0.5)
  }

  /** Channel `c` of destination pixel `(y, x)`: the blend at its source point when the check accepts
      the point, black otherwise. */
  function RotPixel(P: Pixeles, canales: int, altoOrigen: int, anchoOrigen: int, m: Mapeo, y: int, x: int, c: int): (v: int)
    requires Forma(P, altoOrigen, anchoOrigen, canales) && EnBytes(P) && 0 <= c < canales
    ensures 0 <= v <= 255
  {
    var p := PuntoOrigen(m, x, y);
    if Acepta(p, anchoOrigen, altoOrigen) then
      AceptaEnRango(p, anchoOrigen, altoOrigen);
      var x1 := Truncar(p.x);
      var y1 := Truncar(p.y);
      ValorRotado(P[y1][x1][c], P[y1][x1 + 1][c], P[y1 + 1][x1][c], P[y1 + 1][x1 + 1][c],
                  p.x - x1 as real, p.y - y1 as real)
    else 0
  }

  /** The rotated grid, `altoDestino x anchoDestino`. */
  function Rotar(P: Pixeles, canales: nat, altoOrigen: int, anchoOrigen: int, m: Mapeo,
                 altoDestino: nat, anchoDestino: nat): (R: Pixeles)
    requires Forma(P, altoOrigen, anchoOrigen, canales) && EnBytes(P)
    ensures Forma(R, altoDestino, anchoDestino, canales) && EnBytes(R)
  {
    seq(altoDestino, y requires 0 <= y < altoDestino =>
      seq(anchoDestino, x requires 0 <= x < anchoDestino =>
        seq(canales, c requires 0 <= c < canales => RotPixel(P, canales, altoOrigen, anchoOrigen, m, y, x, c))))
  }

  /** A destination pixel whose source point fails the check is black in every channel; one whose
      point passes is, in every channel, between the least and the greatest of its four neighbours. */
  lemma RotarNegroOVecinos(P: Pixeles, canales: nat, altoOrigen: int, anchoOrigen: int, m: Mapeo,
                           altoDestino: nat, anchoDestino: nat, y: int, x: int, c: int)
    requires Forma(P, altoOrigen, anchoOrigen, canales) && EnBytes(P)
    requires 0 <= y < altoDestino && 0 <= x < anchoDestino && 0 <= c < canales
    ensures var p := PuntoOrigen(m, x, y);
      var v := Rotar(P, canales, altoOrigen, anchoOrigen, m, altoDestino, anchoDestino)[y][x][c];
      (!Acepta(p, anchoOrigen, altoOrigen) ==> v == 0) &&
      (Acepta(p, anchoOrigen, altoOrigen) ==>
        var x1, y1 := Truncar(p.x), Truncar(p.y);
        0 <= x1 && x1 + 1 < anchoOrigen && 0 <= y1 && y1 + 1 < altoOrigen &&
        Menor4(P[y1][x1][c], P[y1][x1 + 1][c], P[y1 + 1][x1][c], P[y1 + 1][x1 + 1][c]) <= v <=
        Mayor4(P[y1][x1][c], P[y1][x1 + 1][c], P[y1 + 1][x1][c], P[y1 + 1][x1 + 1][c]))
  {
    var p := PuntoOrigen(m, x, y);
    if Acepta(p, anchoOrigen, altoOrigen) {
      AceptaEnRango(p, anchoOrigen, altoOrigen);
    }
  }

  /** A uniform source rotates to pixels that are each either black or the uniform value. */
  lemma RotarUniforme(P: Pixeles, canales: nat, altoOrigen: int, anchoOrigen: int, m: Mapeo,
                      altoDestino: nat, anchoDestino: nat, valor: int)
    requires Forma(P, altoOrigen, anchoOrigen, canales) && EnBytes(P)
    requires forall y, x, c :: 0 <= y < altoOrigen && 0 <= x < anchoOrigen && 0 <= c < canales ==> P[y][x][c] == valor
    ensures forall y, x, c :: 0 <= y < altoDestino && 0 <= x < anchoDestino && 0 <= c < canales ==>
      Rotar(P, canales, altoOrigen, anchoOrigen, m, altoDestino, anchoDestino)[y][x][c] in {0, valor}
  {
    forall y, x, c | 0 <= y < altoDestino && 0 <= x < anchoDestino && 0 <= c < canales
      ensures Rotar(P, canales, altoOrigen, anchoOrigen, m, altoDestino, anchoDestino)[y][x][c] in {0, valor}
    {
      RotarNegroOVecinos(P, canales, altoOrigen, anchoOrigen, m, altoDestino, anchoDestino, y, x, c);
    }
  }

  /** With no rotation an image keeps its extents, whatever their parity. */
  lemma DimensionesSinGiro(ancho: int, alto: int)
    requires ancho >= 1 && alto >= 1
    ensures Dimensiones(ancho, alto, 1.0, 0.0) == (ancho, alto)
  {
    var xs := XsGiradas(ancho, alto, 1.0, 0.0);
    var ys := YsGiradas(ancho, alto, 1.0, 0.0);
    var cx := (ancho - 1) as real / 2.0;
    var cy := (alto - 1) as real / 2.0;
    assert xs[0] == -cx && xs[1] == cx && xs[2] == cx && xs[3] == -cx;
    assert ys[0] == -cy && ys[1] == -cy && ys[2] == cy && ys[3] == cy;
    MinimoEs(xs, 4, -cx, 0);
    MaximoEs(xs, 4, cx, 1);
    MinimoEs(ys, 4, -cy, 0);
    MaximoEs(ys, 4, cy, 2);
    assert Truncar(ancho as real) == ancho && Truncar(alto as real) == alto;
  }

  /** A value among the first `n` that is below all of them is their `Minimo`. */
  lemma MinimoEs(s: seq<real>, n: nat, v: real, i: int)
    requires 1 <= n <= |s| && 0 <= i < n && s[i] == v && forall j :: 0 <= j < n ==> v <= s[j]
    ensures Minimo(s, n) == v
  {
    MinimoEsMinimo(s, n);
  }

  /** A value among the first `n` that is above all of them is their `Maximo`. */
  lemma MaximoEs(s: seq<real>, n: nat, v: real, i: int)
    requires 1 <= n <= |s| && 0 <= i < n && s[i] == v && forall j :: 0 <= j < n ==> s[j] <= v
    ensures Maximo(s, n) == v
  {
    MaximoEsMaximo(s, n);
  }

  /** A rotation through 0 degrees of an image of odd extents maps every destination pixel onto the
      source pixel at the same place and copies it, except that the strict bounds check turns the last
      row and the last column black. */
  lemma RotarCeroGrados(img: Imagen, cos: real -> real, sin: real -> real)
    requires Bien(img) && img.ancho % 2 == 1 && img.alto % 2 == 1
    requires cos(0.0) == 1.0 && sin(0.0) == 0.0
    ensures var r := Rotada(img, 0.0, cos, sin);
      r.ancho == img.ancho && r.alto == img.alto && r.canales == img.canales &&
      forall y, x, c :: 0 <= y < img.alto && 0 <= x < img.ancho && 0 <= c < img.canales ==>
        r.px[y][x][c] == if y < img.alto - 1 && x < img.ancho - 1 then img.px[y][x][c] else 0
  {
    NormalizarAnguloFijo(0.0);
    assert Radianes(0.0) == 0.0;
    DimensionesSinGiro(img.ancho, img.alto);
    var centro := Centro(img.ancho, img.alto);
    assert Truncar(centro.x) == img.ancho / 2 && Truncar(centro.y) == img.alto / 2;
    var m := Mapeo(1.0, 0.0, img.ancho / 2, img.alto / 2, img.ancho / 2, img.alto / 2);
    forall y, x, c | 0 <= y < img.alto && 0 <= x < img.ancho && 0 <= c < img.canales
      ensures RotPixel(img.px, img.canales, img.alto, img.ancho, m, y, x, c) ==
              if y < img.alto - 1 && x < img.ancho - 1 then img.px[y][x][c] else 0
    {
      RotPixelSinGiro(img.px, img.canales, img.alto, img.ancho, y, x, c);
    }
  }

  /** One pixel of the rotation through 0 degrees of odd extents: the source centre and the
      destination centre coincide, so the pixel reads its own place with no fractional offset. */
  lemma RotPixelSinGiro(P: Pixeles, canales: nat, alto: int, ancho: int, y: int, x: int, c: int)
    requires Forma(P, alto, ancho, canales) && EnBytes(P) && ancho % 2 == 1 && alto % 2 == 1
    requires 0 <= y < alto && 0 <= x < ancho && 0 <= c < canales
    ensures RotPixel(P, canales, alto, ancho, Mapeo(1.0, 0.0, ancho / 2, alto / 2, ancho / 2, alto / 2), y, x, c) ==
            if y < alto - 1 && x < ancho - 1 then P[y][x][c] else 0
  {
    var m := Mapeo(1.0, 0.0, ancho / 2, alto / 2, ancho / 2, alto / 2);
    assert PuntoOrigen(m, x, y) == Punto(x as real, y as real);
    if y < alto - 1 && x < ancho - 1 {
      var v := P[y][x][c];
      assert Mezcla(v, P[y][x + 1][c], P[y + 1][x][c], P[y + 1][x + 1][c], 0.0, 0.0) == v as real;
    }
  }

  /** The whole transform on values: the angle normalised and turned to radians, the new extents from
      the bounding box, the source centre truncated toward zero, the destination centre halved. */
  function Rotada(img: Imagen, angulo: real, cos: real -> real, sin: real -> real): (r: Imagen)
    requires Bien(img)
    ensures Bien(r) && r.canales == img.canales && r.ancho >= 1 && r.alto >= 1
  {
    var anguloRad := Radianes(NormalizarAngulo(angulo));
    var cosA, sinA := cos(anguloRad), sin(anguloRad);
    var d := Dimensiones(img.ancho, img.alto, cosA, sinA);
    var centro := Centro(img.ancho, img.alto);
    var m := Mapeo(cosA, sinA, Truncar(centro.x), Truncar(centro.y), d.0 / 2, d.1 / 2);
    Imagen(d.0, d.1, img.canales, Rotar(img.px, img.canales, img.alto, img.ancho, m, d.1, d.0))
  }

  // ---------- Buffers and workers ----------

  /** `asignarMatriz`: a fresh `alto x ancho x canales` buffer with every byte 0, or null when an
      allocation fails. */
  method AsignarMatriz(alto: nat, ancho: nat, canales: nat) returns (m: array3?<byte>)
    ensures m != null ==> fresh(m) && m.Length0 == alto && m.Length1 == ancho && m.Length2 == canales
    ensures m != null ==> Contiene(m, Ceros(alto, ancho, canales))
  {
    var ok := Plataforma.Malloc();
    if !ok {
      return null;
    }
    m := NuevaMatrizCeros(alto, ancho, canales);
  }

  /** The grid `T` is the rotation of `P`, cell by cell. */
  ghost predicate EsRotacion(T: Pixeles, P: Pixeles, canales: int, altoOrigen: int, anchoOrigen: int, m: Mapeo,
                             altoDestino: int, anchoDestino: int)
    requires Forma(P, altoOrigen, anchoOrigen, canales) && EnBytes(P)
  {
    Forma(T, altoDestino, anchoDestino, canales) &&
    forall y, x, c {:trigger RotPixel(P, canales, altoOrigen, anchoOrigen, m, y, x, c)} ::
      0 <= y < altoDestino && 0 <= x < anchoDestino && 0 <= c < canales ==>
        T[y][x][c] == RotPixel(P, canales, altoOrigen, anchoOrigen, m, y, x, c)
  }

  /** The rotated grid is the one grid that `EsRotacion` describes. */
  lemma EsRotacionUnico(T: Pixeles, P: Pixeles, canales: nat, altoOrigen: int, anchoOrigen: int, m: Mapeo,
                        altoDestino: nat, anchoDestino: nat)
    requires Forma(P, altoOrigen, anchoOrigen, canales) && EnBytes(P)
    ensures EsRotacion(T, P, canales, altoOrigen, anchoOrigen, m, altoDestino, anchoDestino) <==>
            T == Rotar(P, canales, altoOrigen, anchoOrigen, m, altoDestino, anchoDestino)
  {
    var R := Rotar(P, canales, altoOrigen, anchoOrigen, m, altoDestino, anchoDestino);
    if EsRotacion(T, P, canales, altoOrigen, anchoOrigen, m, altoDestino, anchoDestino) {
      forall y, x, c | 0 <= y < altoDestino && 0 <= x < anchoDestino && 0 <= c < canales
        ensures T[y][x][c] == R[y][x][c]
      {
        assert T[y][x][c] == RotPixel(P, canales, altoOrigen, anchoOrigen, m, y, x, c);
      }
      PixelesExt(T, R, altoDestino, anchoDestino, canales);
    }
    if T == R {
      forall y, x, c | 0 <= y < altoDestino && 0 <= x < anchoDestino && 0 <= c < canales
        ensures T[y][x][c] == RotPixel(P, canales, altoOrigen, anchoOrigen, m, y, x, c)
      {
      }
    }
  }

  /** `RotacionArgs`: both grids with their extents, the angle, the worker's destination rows
      `[inicioY, finY)`, and the mapping parameters. */
  datatype ArgumentosRotacion = ArgumentosRotacion(origen: array3<byte>, destino: array3<byte>,
                                                   anchoOrigen: int, altoOrigen: int,
                                                   anchoDestino: int, altoDestino: int, canales: int,
                                                   angulo: real, inicioY: int, finY: int,
                                                   cosAngulo: real, sinAngulo: real,
                                                   centroXOrigen: int, centroYOrigen: int,
                                                   centroXDestino: int, centroYDestino: int)

  function MapeoDe(A: ArgumentosRotacion): Mapeo
  {
    Mapeo(A.cosAngulo, A.sinAngulo, A.centroXOrigen, A.centroYOrigen, A.centroXDestino, A.centroYDestino)
  }

  /** The shape facts every worker relies on: source `altoOrigen x anchoOrigen x canales` holding `P`,
      destination `altoDestino x anchoDestino x canales`, two different buffers. */
  ghost predicate ArgumentosBien(A: ArgumentosRotacion, P: Pixeles)
    reads A.origen
  {
    A.origen != A.destino && A.canales >= 0 && A.altoDestino >= 0 && A.anchoDestino >= 0 &&
    A.origen.Length0 == A.altoOrigen && A.origen.Length1 == A.anchoOrigen && A.origen.Length2 == A.canales &&
    A.destino.Length0 == A.altoDestino && A.destino.Length1 == A.anchoDestino && A.destino.Length2 == A.canales &&
    Contiene(A.origen, P)
  }

  /** The `c` loop of an accepted pixel: the four reads, the blend and the conversion. */
  method MezclarCanal(A: ArgumentosRotacion, ghost P: Pixeles, x1: int, y1: int, dx: real, dy: real, c: int)
    returns (v: byte)
    requires ArgumentosBien(A, P)
    requires 0 <= x1 && x1 + 1 < A.anchoOrigen && 0 <= y1 && y1 + 1 < A.altoOrigen && 0 <= c < A.canales
    requires 0.0 <= dx <= 1.0 && 0.0 <= dy <= 1.0
    ensures v == ValorRotado(P[y1][x1][c], P[y1][x1 + 1][c], P[y1 + 1][x1][c], P[y1 + 1][x1 + 1][c], dx, dy)
  {
    var x2 := x1 + 1;
    var y2 := y1 + 1;
    var p11: int := A.origen[y1, x1, c];
    var p12: int := A.origen[y1, x2, c];
    var p21: int := A.origen[y2, x1, c];
    var p22: int := A.origen[y2, x2, c];
    var valor := (1.0 - dx) * (1.0 - dy) * p11 as real + dx * (1.0 - dy) * p12 as real +
                 (1.0 - dx) * dy * p21 as real + dx * dy * p22 as real;
    assert valor == Mezcla(p11, p12, p21, p22, dx, dy);
    v := ValorRotado(p11, p12, p21, p22, dx, dy);
    assert v == Truncar(valor + 0.5);
  }

  /** One destination pixel of `rotarImagenHilo`: an accepted source point has every channel blended
      and stored, a rejected one is left black. */
  method PixelRotadoHilo(A: ArgumentosRotacion, ghost P: Pixeles, ghost T: Pixeles, ghost antes: Pixeles,
                         y: int, x: int)
    requires ArgumentosBien(A, P) && 0 <= A.inicioY <= y < A.altoDestino && 0 <= x < A.anchoDestino
    requires Forma(antes, A.altoDestino, A.anchoDestino, A.canales)
    requires forall c :: 0 <= c < A.canales ==> antes[y][x][c] == 0
    requires EsRotacion(T, P, A.canales, A.altoOrigen, A.anchoOrigen, MapeoDe(A), A.altoDestino, A.anchoDestino)
    requires Progreso(A.destino, T, antes, A.inicioY, y, x, 0)
    modifies A.destino
    ensures Progreso(A.destino, T, antes, A.inicioY, y, x + 1, 0)
  {
    var p := PuntoOrigen(MapeoDe(A), x, y);
    if Acepta(p, A.anchoOrigen, A.altoOrigen) {
      AceptaEnRango(p, A.anchoOrigen, A.altoOrigen);
      var x1 := Truncar(p.x);
      var y1 := Truncar(p.y);
      var dx := p.x - x1 as real;
      var dy := p.y - y1 as real;
      var c := 0;
      while c < A.canales
        invariant 0 <= c <= A.canales
        invariant Progreso(A.destino, T, antes, A.inicioY, y, x, c)
        invariant ArgumentosBien(A, P)
      {
        var v := MezclarCanal(A, P, x1, y1, dx, dy, c);
        assert v == RotPixel(P, A.canales, A.altoOrigen, A.anchoOrigen, MapeoDe(A), y, x, c);
        Escribir(A.destino, T, antes, A.inicioY, y, x, c, v);
        c := c + 1;
      }
      ProgresoPixel(A.destino, T, antes, A.inicioY, y, x);
    } else {
      forall c | 0 <= c < A.canales
        ensures T[y][x][c] == antes[y][x][c]
      {
        assert T[y][x][c] == RotPixel(P, A.canales, A.altoOrigen, A.anchoOrigen, MapeoDe(A), y, x, c);
      }
      ProgresoSinEscribir(A.destino, T, antes, A.inicioY, y, x);
    }
  }

  /** `rotarImagenHilo`: where the source holds `P` and the destination holds `antes`, black on the
      worker's rows, writes the accepted pixels of the rotated grid `T` into the rows
      `[inicioY, finY)`; the rejected ones are left black, and every other row is left as it was. */
  method RotarImagenHilo(A: ArgumentosRotacion, ghost P: Pixeles, ghost T: Pixeles, ghost antes: Pixeles)
    requires ArgumentosBien(A, P) && 0 <= A.inicioY && A.finY <= A.altoDestino
    requires Contiene(A.destino, antes)
    requires forall y, x, c :: A.inicioY <= y < A.finY && 0 <= x < A.anchoDestino && 0 <= c < A.canales ==>
      antes[y][x][c] == 0
    requires EsRotacion(T, P, A.canales, A.altoOrigen, A.anchoOrigen, MapeoDe(A), A.altoDestino, A.anchoDestino)
    modifies A.destino
    ensures Contiene(A.destino, Filas(antes, T, A.inicioY, A.finY))
  {
    var D := A.destino;
    var y := A.inicioY;
    while y < A.finY
      invariant A.inicioY <= y && (A.inicioY <= A.finY ==> y <= A.finY)
      invariant A.finY < A.inicioY ==> y == A.inicioY
      invariant Progreso(D, T, antes, A.inicioY, y, 0, 0)
      invariant ArgumentosBien(A, P)
    {
      var x := 0;
      while x < A.anchoDestino
        invariant 0 <= x <= A.anchoDestino
        invariant Progreso(D, T, antes, A.inicioY, y, x, 0)
        invariant ArgumentosBien(A, P)
      {
        PixelRotadoHilo(A, P, T, antes, y, x);
        x := x + 1;
      }
      ProgresoFila(D, T, antes, A.inicioY, y);
      y := y + 1;
    }
    ProgresoFinal(D, T, antes, A.inicioY, A.finY, y);
  }

  // ---------- The transform ----------

  /** The state of the worker loop once the rows `[0, hecho)` are finished: the arguments are well
      formed for the source grid `P`, `T` is the rotated grid, and the destination holds `T` on the
      finished rows and the zero fill elsewhere. */
  ghost predicate EstadoRot(A: ArgumentosRotacion, P: Pixeles, T: Pixeles, hecho: int)
    reads A.origen, A.destino
  {
    ArgumentosBien(A, P) &&
    EsRotacion(T, P, A.canales, A.altoOrigen, A.anchoOrigen, MapeoDe(A), A.altoDestino, A.anchoDestino) &&
    Contiene(A.destino, Filas(Ceros(A.altoDestino, A.anchoDestino, A.canales), T, 0, hecho))
  }

  /** Starting worker `i` with its rows `RangoHilo(i, k, altoDestino)`, whose start is not clamped.
      When the start succeeds the worker runs to completion, which extends the finished rows from
      `[0, min(i * k, altoDestino))` to `[0, min((i + 1) * k, altoDestino))`. */
  method LanzarHiloRot(A: ArgumentosRotacion, ghost P: Pixeles, ghost T: Pixeles, i: int, k: int)
    returns (creado: bool)
    requires i >= 0 && k >= 0
    requires EstadoRot(A, P, T, Hechas(i, k, A.altoDestino))
    modifies A.destino
    ensures creado ==> EstadoRot(A, P, T, Hechas(i + 1, k, A.altoDestino))
  {
    var r := RangoHilo(i, k, A.altoDestino);
    var args := A.(inicioY := r.ini, finY := r.fin);
    creado := Plataforma.PthreadCreate();
    if creado {
      assert 0 <= i * k by { ProductoNoNegativo(i, k); }
      HechasEs(i, k, A.altoDestino);
      HechasEs(i + 1, k, A.altoDestino);
      ghost var Z := Ceros(A.altoDestino, A.anchoDestino, A.canales);
      ghost var hecho := Hechas(i, k, A.altoDestino);
      ghost var antes := Filas(Z, T, 0, hecho);
      assert forall y, x, c :: r.ini <= y < r.fin && 0 <= x < A.anchoDestino && 0 <= c < A.canales ==>
        antes[y][x][c] == 0;
      FilasExtiende(Z, T, hecho, r.ini, r.fin);
      RotarImagenHilo(args, P, T, antes);
    }
  }

  /** One worker per row range; false when a worker cannot be started, otherwise the destination
      holds `T`. The thread tables live on the stack, so nothing is allocated here. */
  method EjecutarHilosRot(A: ArgumentosRotacion, ghost P: Pixeles, ghost T: Pixeles, numHilos: int)
    returns (ok: bool)
    requires 1 <= numHilos
    requires EstadoRot(A, P, T, 0)
    modifies A.destino
    ensures ok ==> Contiene(A.destino, T)
  {
    var k := FilasPorHilo(A.altoDestino, numHilos);
    var i := 0;
    while i < numHilos
      invariant 0 <= i <= numHilos
      invariant EstadoRot(A, P, T, Hechas(i, k, A.altoDestino))
    {
      var creado := LanzarHiloRot(A, P, T, i, k);
      if !creado {
        return false;
      }
      i := i + 1;
    }
    HechasTodas(A.altoDestino, numHilos);
    FilasTodas(Ceros(A.altoDestino, A.anchoDestino, A.canales), T, A.altoDestino);
    return true;
  }

  /** `rotarImagenConcurrente`: replaces the loaded image by its rotation through `angulo` degrees,
      with the extents of the rotated bounding box and the same channel count, computed by four
      workers. Without an image nothing happens; when the destination cannot be allocated or a worker
      cannot be started the image is left as it was. */
  method RotarImagenConcurrente(info: ImagenInfo, angulo: real, cos: real -> real, sin: real -> real)
    requires info.Valid()
    modifies info
    ensures old(info.pixeles) == null ==> unchanged(info)
    ensures unchanged(info) ||
            (old(info.pixeles) != null && info.Valid() && info.pixeles != null && fresh(info.pixeles) &&
             info.canales == old(info.canales) &&
             info.Modelo() == Rotada(old(info.Modelo()), angulo, cos, sin))
  {
    if info.pixeles == null {
      return;
    }
    ghost var original := info.Modelo();
    var anguloNormal := NormalizarAngulo(angulo);
    var anguloRad := Radianes(anguloNormal);
    var cosAngulo := cos(anguloRad);
    var sinAngulo := sin(anguloRad);
    var caja := CajaEnvolvente(info.ancho, info.alto, cosAngulo, sinAngulo);
    var nuevoAncho := Truncar(caja.maxX - caja.minX + 1.0);
    var nuevoAlto := Truncar(caja.maxY - caja.minY + 1.0);
    assert (nuevoAncho, nuevoAlto) == Dimensiones(info.ancho, info.alto, cosAngulo, sinAngulo);
    var nuevaMatriz := AsignarMatriz(nuevoAlto, nuevoAncho, info.canales);
    if nuevaMatriz == null {
      return;
    }
    var centroXDestino := nuevoAncho / 2;
    var centroYDestino := nuevoAlto / 2;
    var centro := Centro(info.ancho, info.alto);
    var args := ArgumentosRotacion(info.pixeles, nuevaMatriz, info.ancho, info.alto, nuevoAncho, nuevoAlto,
                                   info.canales, anguloRad, 0, 0, cosAngulo, sinAngulo,
                                   Truncar(centro.x), Truncar(centro.y), centroXDestino, centroYDestino);
    ghost var T := Rotar(original.px, info.canales, info.alto, info.ancho, MapeoDe(args), nuevoAlto, nuevoAncho);
    EsRotacionUnico(T, original.px, info.canales, info.alto, info.ancho, MapeoDe(args), nuevoAlto, nuevoAncho);
    assert Filas(Ceros(nuevoAlto, nuevoAncho, info.canales), T, 0, 0) == Ceros(nuevoAlto, nuevoAncho, info.canales);
    var ok := EjecutarHilosRot(args, original.px, T, NumHilos);
    if !ok {
      return;
    }
    ContieneVista(nuevaMatriz, T);
    info.pixeles := nuevaMatriz;
    info.ancho := nuevoAncho;
    info.alto := nuevoAlto;
  }
}
