# Concurrent image transforms, modelled in Dafny

The repository edits an image held in an `ImagenInfo` record (`ancho`, `alto`, `canales` and a
`pixeles[alto][ancho][canales]` byte grid). Four transforms share one skeleton:
1. validate the request;
2. allocate a destination grid;
3. split the destination rows into `[i*k, min((i+1)*k, h))` ranges, where `k = ceil(h/n)`, and run a worker over each range;
4. swap the result into the record.

The transforms are:

- **Sobel edge detection** (`functions/border.c`): an `(r+g+b)/3` grayscale pass, then a clamp-to-edge 3x3 gradient with the fixed Gx/Gy stencils, then `lround(sqrt(sx^2+sy^2))` clamped to a byte.
- **Bilinear resize** (`functions/resize.c`): the source is sampled at `x*(sW-1)/(dW-1)`, the four neighbours are blended, and the result is rounded and clamped.
- **Gaussian blur** (`functions/convolution.c`): a normalised Gaussian kernel, replicate-border window sums, and round and clamp.
- **Rotation** (`functions/rotation.c`): the angle is normalised to `[0, 360)`, the new extents come from the bounding box of the rotated corners, and every destination pixel is mapped back into the source. An accepted point gets the bilinear blend of its four neighbours. A rejected point keeps the black of the zero-filled allocation.

## How the model is built

**Values.** Pixel grids are `Pixeles = seq<seq<seq<int>>>` and one image is the datatype `Imagen`. Each transform has:
- a per-pixel function (`SobelPixel`, `ResizePixel`, `ConvPixel`, `RotPixel`);
- a whole-grid function (`SobelImagen`, `Redimensionar`, `Convolucionar`, `Rotar`);
- a whole-image function (`Bordes`, `Redimensionada`, `Convolucionada`, `Rotada`).

The lemmas about the transforms are stated on these functions.

**Buffers.** The live record is the class `Imagen.ImagenInfo`, and pixel buffers are `array3<byte>`. The kernel is an `array2<real>`. Every loop nest of the C code that computes pixels or weights, the zero-filling allocation and the loops that start the threads are methods with their own loop invariants:
- the grayscale pass;
- the stencil and kernel windows;
- the kernel generation and normalisation;
- the bounding-box loop;
- each worker;
- the zero-filling allocation (`Imagen.NuevaMatrizCeros`);
- the thread-starting loops (`EjecutarHilosSobel`, `EjecutarHilosResize`, `EjecutarHilosConv`, `EjecutarHilosRot`).

Each of these methods is proved to compute the corresponding function.

**Threads.** A worker is a method that writes exactly its destination rows. Every other row keeps its old contents. The thread loop is a sequential loop over the workers with the invariant that rows `[0, min(i*k, h))` already hold the result. When all workers have run, the destination holds the whole-grid function, whatever the worker count.

**Partition.** The `Particion` module proves the partition facts:
- every range lies inside `[0, h)`;
- two workers never share a row;
- every row has its worker.

**Outside effects.** `malloc` and `pthread_create` are the oracles `Plataforma.Malloc` and `Plataforma.PthreadCreate`, which may fail. `exp`, `cos` and `sin` are parameters of type `real -> real`. Floating-point arithmetic is exact real arithmetic. The C conversions are written out:
- `(int)` truncates toward zero (`Truncar`);
- `round` rounds half away from zero (`Redondear`);
- `lround(sqrt(n))` is the integer nearest to the square root (`RaizRedondeada`);
- `fmod` is the remainder of truncating division (`Fmod`).

## Model

| member | source | states |
|---|---|---|
| Imagen.ImagenInfo.Modelo | functions/imagen_info.h:5-11 | a loaded image is an `alto x ancho x canales` byte grid with the record's extents |
| Imagen.ImagenInfo.Vacia | functions/border.c:184 | `ImagenInfo x = {0}` has zero extents and no pixels |
| Imagen.Ceros | functions/rotation.c:58-62 | the zero fill: every byte of an `alto x ancho x canales` grid is 0 |
| Imagen.NuevaMatrizCeros | functions/rotation.c:23-64 | a fresh buffer of the requested extents holding the zero fill |
| Imagen.ContieneVista | functions/imagen_info.h:10 | a buffer holding a grid cell by cell is that grid as a value, and all its cells are bytes |
| Imagen.Escribir | functions/border.c:144 | one store `dst[y][x][c] = v` extends the worker's progress by one cell and touches no other cell |
| Imagen.ProgresoFinal | functions/border.c:125-146 | once a worker's loops finish, its rows `[ini, fin)` hold the target and every other row keeps its old contents |
| Imagen.FilasExtiende | functions/border.c:220-223 | finishing the range of the next worker extends the finished rows `[0, min(i*k, h))` to `[0, min((i+1)*k, h))` |
| Imagen.FilasTodas | functions/border.c:237-238 | when the finished rows reach `h`, the whole target is written |
| Plataforma.Malloc | functions/rotation.c:16 | definition: `malloc` as an oracle that may return NULL; the same oracle stands for every allocation of the four files |
| Plataforma.PthreadCreate | functions/rotation.c:278 | definition: `pthread_create` as an oracle that may fail; the same oracle stands for the starts in all four files |
| Numerico.Redondear | functions/resize.c:46 | `round`: within one half of its argument, and halves go away from zero |
| Numerico.PI | functions/rotation.c:7-8 | definition: `M_PI`, `3.14159265358979323846`, used in `functions/rotation.c:179` and `functions/convolution.c:43` |
| Numerico.RedondearEntero | functions/convolution.c:103 | an integer rounds to itself |
| Numerico.RedondearAcotado | functions/resize.c:46 | rounding a value between two integers stays between them |
| Numerico.ClampToByte | functions/resize.c:5-10 | the result is in `[0, 255]`, values already in `[0, 255]` are kept, and no byte is nearer to the input |
| Numerico.InterpolaEntre | functions/resize.c:44-45 | a linear blend with weight in `[0, 1]` lies between its two ends |
| Numerico.Interpola | functions/resize.c:44 | definition: the linear blend `a + w * (b - a)` of `top` and `bottom` |
| Numerico.Bilineal | functions/resize.c:44-46 | definition: `top` and `bottom` blended along x, then blended along y |
| Numerico.BilinealEntre | functions/resize.c:44-46 | the blend along x in both rows, then along y, with weights in `[0, 1]`, lies between the least and the greatest corner |
| Numerico.Truncar | functions/rotation.c:135-138 | `(int)` of a float: the integer next to the value on the side toward zero |
| Numerico.RaizEntera | functions/border.c:139 | the largest `r` with `r*r <= n` |
| Numerico.RaizRedondeada | functions/border.c:139 | `lround(sqrt(n))`: `n` lies in the band `(r*r - r, r*r + r]` of the returned `r` |
| Numerico.RaizRedondeadaUnica | functions/border.c:139 | exactly one natural number has `n` in its band, so the nearest integer is well defined |
| Numerico.RaizRedondeadaAlMenos | functions/border.c:139-141 | the rounded root reaches `c` exactly when `n > c*c - c`; this is the test the clamp at 255 needs |
| Numerico.Fmod | functions/rotation.c:176 | `fmod(a, b)` has the sign of `a`, magnitude below `b`, and differs from `a` by a whole multiple of `b` |
| Particion.FilasPorHilo | functions/rotation.c:248 | `ceil(h/n)`: the least `k` with `k*n >= h` |
| Particion.RangoHilo | functions/border.c:220-223 | definition: worker `i` owns `[i*k, min((i+1)*k, h))`; `functions/convolution.c:210-211` and `functions/rotation.c:269-270` compute the same range |
| Particion.HechasEs | functions/convolution.c:207-211 | the first `i` workers finish exactly the rows `[0, min(i*k, h))` |
| Particion.HechasTodas | functions/convolution.c:204-211 | with `k = ceil(h/n)`, all `n` workers finish every row |
| Particion.RangoHiloAcotado | functions/resize.c:137-140 | clamping the range start to `h` as well leaves the same rows |
| Particion.RangoDentro | functions/border.c:220-223 | every row of a worker's range lies in `[0, h)` |
| Particion.RangosDisjuntos | functions/rotation.c:269-270 | two different workers never own the same row |
| Particion.RangosCubren | functions/convolution.c:204-211 | every row of `[0, h)` belongs to one of the `n` workers |
| Borde.Clampi | functions/border.c:106 | the result lies in `[lo, hi]` and is `v` when `v` already does |
| Borde.Sample | functions/border.c:108-113 | the read is in bounds and, inside the grid, is the pixel itself |
| Borde.GrisPixel | functions/border.c:67-91 | one channel is copied; otherwise the integer mean of the first three is a byte, equal channels give that channel, and the clamp never alters it |
| Borde.Gris | functions/border.c:62-93 | the grayscale grid is one-channel bytes of the same extents |
| Borde.GrisUnCanal | functions/border.c:67-73 | a one-channel source is copied unchanged |
| Borde.FilaUniforme | functions/border.c:130-137 | on a uniform grid a stencil row sums to its weights times the common value |
| Borde.SumaFila | functions/border.c:132-137 | definition: the `kx` loop of one stencil row, `K[ky+1][kx+1] * sample(y+ky, x+kx)` summed for `kx = -1 .. 1` |
| Borde.GX | functions/border.c:118-120 | definition: the `Gx` stencil |
| Borde.GY | functions/border.c:121-123 | definition: the `Gy` stencil |
| Borde.SumaVentana | functions/border.c:130-138 | definition: the `ky` loop over the three stencil rows |
| Borde.VentanaUniforme | functions/border.c:129-138 | on a uniform grid the stencil sum is the weight sum times the common value |
| Borde.FilaAcotada | functions/border.c:132-137 | a stencil row over bytes lies between 255 times its negative weights and 255 times its positive weights |
| Borde.VentanaAcotada | functions/border.c:129-138 | the stencil sum over bytes lies between 255 times the negative weights and 255 times the positive weights |
| Borde.GradienteAcotado | functions/border.c:118-138 | both gradients lie in `[-1020, 1020]` |
| Borde.Magnitud | functions/border.c:139-143 | the clamped magnitude is a byte and is 0 exactly when both gradients are 0 |
| Borde.SobelPixel | functions/border.c:125-144 | every output pixel is a byte |
| Borde.SobelImagen | functions/border.c:125-146 | the edge map is a one-channel byte grid of the same extents |
| Borde.EsSobelUnico | functions/border.c:125-146 | the cell-by-cell description of the edge map has exactly one solution, the edge map |
| Borde.Bordes | functions/border.c:170-252 | the transform keeps the extents and yields one channel |
| Borde.SobelPixelUniforme | functions/border.c:118-144 | a pixel of a uniform grid, border pixels included, has magnitude 0 |
| Borde.SobelUniforme | functions/border.c:125-146 | a uniform grid has an all-zero edge map |
| Borde.BordesUniforme | functions/border.c:170-252 | an image whose pixels are all equal gives an all-zero edge map |
| Borde.NormalizarHilos | functions/border.c:178-181 | the worker count is 2 when none is asked for, is capped at `alto`, and is otherwise kept |
| Borde.CrearImagenVaciaLocal | functions/border.c:7-59 | on success a zero-filled grid of the requested extents; on failure no pixels, with the extents either still the requested ones (the first allocation failed) or all reset to 0 |
| Borde.EscalaDeGrises | functions/border.c:62-93 | the destination becomes the grayscale of the source |
| Borde.GrisDe | functions/border.c:67-88 | the value read from the buffer is the gray level of that pixel |
| Borde.ConvertirGris | functions/border.c:67-91 | every pixel of the one-channel destination gets the gray level of the same source pixel |
| Borde.SampleBuffer | functions/border.c:108-113 | the buffer read is `Sample` of the grid it holds |
| Borde.FilaGradiente | functions/border.c:132-137 | the `kx` loop computes that stencil row for both Gx and Gy |
| Borde.GradientePixel | functions/border.c:129-143 | the window loops and the clamp compute the Sobel pixel |
| Borde.SobelWorker | functions/border.c:115-148 | the worker writes the edge map on its rows and leaves every other row as it was |
| Borde.LiberarImagenBorder | functions/border.c:150-168 | afterwards no image is loaded and all extents are 0 |
| Borde.LanzarHiloSobel | functions/border.c:214-236 | a started worker extends the finished rows to the next range |
| Borde.EjecutarHilosSobel | functions/border.c:201-240 | on success the destination holds the whole edge map; a table or start failure reports false |
| Borde.BordesEnHilos | functions/border.c:183-240 | on success a fresh one-channel image of the same extents holding the edge map of the grayscale |
| Borde.DetectarBordesSobel | functions/border.c:170-252 | an invalid image gives 0 with `info` unchanged; every failure leaves `info` unchanged; success keeps the extents, sets one channel and holds `Bordes` of the old image |
| Redimension.Escala | functions/resize.c:17-18 | the scale is `(src-1)/(dst-1)`, and 0 when either side is 1 |
| Redimension.Muestra | functions/resize.c:22-34 | `i0` is the floor of the position, `i1 = min(i0+1, n-1)`, and the weight is the fractional part in `[0, 1)` |
| Redimension.MuestraEntera | functions/resize.c:22-34 | the same sampling in integers: `i0 = d*(n-1) div (m-1)`, and the weight is the remainder over `m-1` |
| Redimension.MuestraPosicion | functions/resize.c:22-26 | a position that is `q` plus a fraction in `[0, 1)` samples entry `q` with that fraction as weight |
| Redimension.PosicionPorPaso | functions/resize.c:17-22 | the sampling position times `m-1` is the integer `d*(n-1)` |
| Redimension.MuestraAcotada | functions/resize.c:20-34 | both sampled entries lie in the source, and `i1` is `i0` or the entry after it |
| Redimension.MuestraIdentidad | functions/resize.c:17-34 | resizing an axis to its own length samples every entry with weight 0 |
| Redimension.ValorBilineal | functions/resize.c:38-48 | the stored value is a byte between the least and the greatest neighbour, so the clamp never changes it |
| Redimension.BilinealUniforme | functions/resize.c:44-46 | a blend of four equal values is that value |
| Redimension.ResizePixel | functions/resize.c:20-48 | every channel of a destination pixel is a byte |
| Redimension.Redimensionar | functions/resize.c:20-51 | the resized grid has the requested extents and holds bytes |
| Redimension.RedimensionarIdentidad | functions/resize.c:17-48 | resizing a grid to its own extents gives it back unchanged |
| Redimension.RedimensionarEntreVecinos | functions/resize.c:38-46 | each channel lies between the least and the greatest value among the sampled source pixels |
| Redimension.RedimensionarUniforme | functions/resize.c:38-48 | a uniform grid stays uniform with the same value at any size |
| Redimension.Redimensionada | functions/resize.c:175-177 | the image takes the requested extents and keeps its channel count |
| Redimension.RedimensionadaIdentidad | functions/resize.c:17-48 | resizing an image to its own extents leaves it as it was |
| Redimension.EsRedimensionUnico | functions/resize.c:20-51 | the cell-by-cell description of the resized grid has exactly one solution |
| Redimension.InterpolarCanal | functions/resize.c:38-48 | the reads, blend, rounding and clamp of one channel compute `ValorBilineal` |
| Redimension.ResizeBilinealHilo | functions/resize.c:13-54 | the worker writes the resized grid on its rows and leaves every other row as it was |
| Redimension.LanzarHiloResize | functions/resize.c:128-157 | a started worker, with its range clamped at both ends, extends the finished rows to the next range |
| Redimension.EjecutarHilosResize | functions/resize.c:111-165 | on success the destination holds the whole resized grid |
| Redimension.RedimensionEnHilos | functions/resize.c:74-165 | a fresh buffer of the requested extents holding the resized grid, or null on any failure |
| Redimension.ResizeBilinealConcurrente | functions/resize.c:56-189 | no image, a non-positive target or a worker count outside `[1, 4]` returns 0 first; every failure leaves `info` unchanged; success holds `Redimensionada` of the old image |
| Convolucion.Escalado | functions/convolution.c:49-53 | dividing every weight keeps the kernel's shape |
| Convolucion.SumaFilaEscalada | functions/convolution.c:49-53 | dividing every weight of a row by `s` divides its sum by `s` |
| Convolucion.SumaEscalada | functions/convolution.c:49-53 | dividing every weight by `s` divides the kernel sum by `s` |
| Convolucion.SumaFilaPositiva | functions/convolution.c:44 | a non-empty row of positive weights has a positive sum |
| Convolucion.SumaPositiva | functions/convolution.c:33-46 | a non-empty square of positive weights has a positive sum, so the normalisation divides by a positive number |
| Convolucion.Peso | functions/convolution.c:38-43 | every unnormalised Gaussian weight is positive |
| Convolucion.Pesos | functions/convolution.c:36-46 | the weights form a `tam x tam` square |
| Convolucion.Total | functions/convolution.c:33-44 | definition: the sum `suma` of all weights accumulated by the generation loops |
| Convolucion.KernelGaussiano | functions/convolution.c:9-56 | the kernel is a `tam x tam` square |
| Convolucion.KernelSumaUno | functions/convolution.c:33-53 | the normalised weights sum to exactly 1 |
| Convolucion.KernelPositivo | functions/convolution.c:41-53 | every normalised weight is positive |
| Convolucion.CuadradoEspejo | functions/convolution.c:38-39 | mirroring an index about the centre of an odd size keeps its squared offset |
| Convolucion.KernelSimetrico | functions/convolution.c:36-43 | for an odd size `k[y][x] = k[x][y] = k[tam-1-y][x] = k[y][tam-1-x]` |
| Convolucion.KernelUnitario | functions/convolution.c:9-56 | the 1x1 kernel is the single weight 1 |
| Convolucion.ReplicarBorde | functions/convolution.c:88-95 | the corrected coordinate is inside the grid, in-range coordinates are kept, and it is the nearest in-range coordinate |
| Convolucion.ConvPixel | functions/convolution.c:82-107 | every output channel is a byte |
| Convolucion.Vecino | functions/convolution.c:89-95 | definition: the neighbour read with both coordinates replicated at the border |
| Convolucion.Termino | functions/convolution.c:89-98 | definition: one term `pixeles[py][px][c] * kernel[ky][kx]` of the window sum |
| Convolucion.SumaFilaConv | functions/convolution.c:86-99 | definition: the `kx` loop of one kernel row |
| Convolucion.SumaConv | functions/convolution.c:85-100 | definition: the `ky` loop over all kernel rows |
| Convolucion.Convolucionar | functions/convolution.c:79-110 | the blurred grid keeps the extents and holds bytes |
| Convolucion.FilaConvUniforme | functions/convolution.c:86-99 | on a uniform grid a kernel row sums to the common value times the row's weights |
| Convolucion.ConvUniforme | functions/convolution.c:85-100 | on a uniform grid the window sum is the common value times the kernel sum |
| Convolucion.ConvolucionarUniforme | functions/convolution.c:79-110 | with weights summing to 1 a uniform grid is left unchanged, border included |
| Convolucion.ConvolucionarIdentidad | functions/convolution.c:79-110 | the 1x1 kernel of weight 1 leaves every grid unchanged |
| Convolucion.TerminoConvAcotado | functions/convolution.c:98 | a byte under a non-negative weight contributes between 0 and 255 times the weight |
| Convolucion.FilaConvAcotada | functions/convolution.c:86-99 | a kernel row over bytes lies between 0 and 255 times the row's weight sum |
| Convolucion.ConvAcotada | functions/convolution.c:85-100 | the window sum over bytes lies between 0 and 255 times the kernel sum |
| Convolucion.ConvSinSaturacion | functions/convolution.c:103-105 | with non-negative weights summing to 1 the window sum is in `[0, 255]`, so the clamps never fire |
| Convolucion.GaussianaSinSaturacion | functions/convolution.c:103-105 | with the Gaussian kernel every output is the rounded window sum |
| Convolucion.Convolucionada | functions/convolution.c:118-265 | the transform keeps the extents and the channel count |
| Convolucion.ConvolucionadaUnitaria | functions/convolution.c:118-265 | a 1x1 blur leaves the image unchanged |
| Convolucion.ConvolucionadaUniforme | functions/convolution.c:79-110 | a blur of any size leaves an image whose pixels are all equal unchanged |
| Convolucion.EscribirFilaPesos | functions/convolution.c:37-45 | row `y` of the buffer gets the unnormalised weights, the running sum grows by their sum, and other rows are kept |
| Convolucion.EscribirPesos | functions/convolution.c:31-46 | the buffer holds the unnormalised weights and `suma` is their total |
| Convolucion.DividirPesos | functions/convolution.c:49-53 | the buffer holds every weight divided by the sum |
| Convolucion.GenerarKernelGaussiano | functions/convolution.c:9-56 | a fresh `tam x tam` buffer holding the normalised kernel, or null when an allocation fails |
| Convolucion.EsConvolucionUnico | functions/convolution.c:79-110 | the cell-by-cell description of the blurred grid has exactly one solution |
| Convolucion.TerminoVentana | functions/convolution.c:88-98 | the clamped read times the weight is the window term |
| Convolucion.PixelConvolucion | functions/convolution.c:82-107 | the kernel loops, rounding and the two clamps compute `ConvPixel` |
| Convolucion.ConvolucionHilo | functions/convolution.c:74-113 | the worker writes the blurred grid on its rows and leaves every other row as it was |
| Convolucion.LanzarHiloConv | functions/convolution.c:207-233 | a started worker extends the finished rows to the next range |
| Convolucion.EjecutarHilosConv | functions/convolution.c:185-240 | on success the result buffer holds the whole blurred grid |
| Convolucion.ConvolucionEnHilos | functions/convolution.c:142-240 | a fresh buffer of the image's extents holding the blurred grid, or null on any failure |
| Convolucion.AplicarConvolucionConcurrente | functions/convolution.c:118-265 | no image, an even kernel size or a worker count outside `[1, 8]` returns 0; every failure leaves `info` unchanged; success replaces only `pixeles`, by `Convolucionada` of the old image |
| Rotacion.NumHilos | functions/rotation.c:245 | definition: `const int numHilos = 4` |
| Rotacion.NormalizarAngulo | functions/rotation.c:176-178 | the angle lies in `[0, 360)` and differs from the input by whole turns |
| Rotacion.NormalizarAnguloFijo | functions/rotation.c:176-178 | an angle already in `[0, 360)` is kept |
| Rotacion.NormalizarAnguloIdempotente | functions/rotation.c:176-178 | normalising twice is normalising once |
| Rotacion.Radianes | functions/rotation.c:179 | definition: `angulo * M_PI / 180` |
| Rotacion.Esquinas | functions/rotation.c:192-196 | the four corners of the source |
| Rotacion.Centro | functions/rotation.c:199-200 | definition: `centroXOrig`, `centroYOrig`, the centre `((ancho - 1) / 2, (alto - 1) / 2)` of the source |
| Rotacion.Girar | functions/rotation.c:206-207 | definition: the forward rotation `x*cos - y*sin`, `x*sin + y*cos` |
| Rotacion.EsquinaGirada | functions/rotation.c:204-207 | definition: corner `i` moved to the centre and rotated |
| Rotacion.MinimoEsMinimo | functions/rotation.c:202-225 | the loop's running minimum is below every value and equals one of them |
| Rotacion.MaximoEsMaximo | functions/rotation.c:202-225 | the loop's running maximum is above every value and equals one of them |
| Rotacion.CajaContieneEsquinas | functions/rotation.c:198-225 | every rotated corner lies in the box, and each bound is reached by a corner |
| Rotacion.Dimensiones | functions/rotation.c:227-228 | `nuevoAncho` and `nuevoAlto` are at least 1 |
| Rotacion.DimensionesSinGiro | functions/rotation.c:192-228 | with no rotation the new extents are the old ones |
| Rotacion.CajaEnvolvente | functions/rotation.c:192-225 | the corner loop, with its first-corner case, computes the bounding box of the rotated corners |
| Rotacion.AceptaEnRango | functions/rotation.c:129-141 | an accepted point has all four neighbours inside the source and offsets in `[0, 1)` |
| Rotacion.PuntoOrigen | functions/rotation.c:109-124 | definition: the destination pixel moved to the destination centre, rotated back by the transposed matrix and moved to the source centre |
| Rotacion.Acepta | functions/rotation.c:129-130 | definition: the strict bounds check `0 <= x < anchoOrigen - 1` and `0 <= y < altoOrigen - 1` |
| Rotacion.MezclaEsBilineal | functions/rotation.c:148-151 | the four-weight formula equals the blend along x in both rows, then along y |
| Rotacion.Mezcla | functions/rotation.c:148-151 | definition: the four-weight bilinear formula |
| Rotacion.ValorRotado | functions/rotation.c:140-153 | the blend lies in `[0, 255]`, `valor + 0.5` converts without overflow, and the result lies between the least and the greatest neighbour |
| Rotacion.RotPixel | functions/rotation.c:109-156 | every destination channel is a byte |
| Rotacion.Rotar | functions/rotation.c:102-158 | the rotated grid has the destination extents and holds bytes |
| Rotacion.RotarNegroOVecinos | functions/rotation.c:129-156 | a rejected pixel is black; an accepted one lies between its least and greatest in-bounds neighbour |
| Rotacion.RotarUniforme | functions/rotation.c:129-156 | a uniform source rotates to pixels that are black or the uniform value |
| Rotacion.RotPixelSinGiro | functions/rotation.c:109-153 | at 0 degrees with odd extents, a pixel not on the last row or column reads its own place with no offset |
| Rotacion.RotarCeroGrados | functions/rotation.c:165-300 | at 0 degrees with odd extents the image keeps its extents and pixels, except that the last row and the last column turn black |
| Rotacion.Rotada | functions/rotation.c:165-300 | the rotated image is a byte image with extents at least 1 and the same channel count |
| Rotacion.AsignarMatriz | functions/rotation.c:14-66 | a fresh zero-filled buffer of the requested extents, or null when an allocation fails |
| Rotacion.EsRotacionUnico | functions/rotation.c:102-158 | the cell-by-cell description of the rotated grid has exactly one solution |
| Rotacion.MezclarCanal | functions/rotation.c:146-153 | the four reads, the blend and the conversion compute `ValorRotado` |
| Rotacion.PixelRotadoHilo | functions/rotation.c:109-156 | an accepted pixel has every channel stored; a rejected one is left as it was, black |
| Rotacion.RotarImagenHilo | functions/rotation.c:94-160 | given a black destination on its rows, the worker leaves the rotated grid there and every other row as it was |
| Rotacion.LanzarHiloRot | functions/rotation.c:259-284 | a started worker, with its range start unclamped, extends the finished rows to the next range |
| Rotacion.EjecutarHilosRot | functions/rotation.c:245-292 | on success the zero-filled destination holds the whole rotated grid |
| Rotacion.RotarImagenConcurrente | functions/rotation.c:165-304 | no image means no change; a failure leaves `info` unchanged; success gives fresh pixels holding `Rotada` of the old image, with the channel count kept |

## Left out

- Threads run one after another. `pthread_create` is an oracle that may fail, and a started worker runs to completion at once, so `pthread_join` has nothing left to do. Two ingredients would make the order irrelevant, and both are proved separately. First, the partition facts: no two ranges share a row (`Particion.RangosDisjuntos`) and every row has an owner (`Particion.RangosCubren`). Second, each worker's frame: it writes only its own destination rows, leaving every other row as it was (`Filas(antes, T, ini, fin)` in its `ensures`), and it only reads the source, which is a different buffer from the destination (`modifies` names the destination alone). No contract combines the two into a statement about an arbitrary interleaving. The thread loops rely only on the frames and the sequential order.
- `malloc` and `free`: allocation is an oracle that may fail. The many allocations of one grid collapse into one decision, since every failure among them cleans up alike. Freeing, and whether memory leaks, is not observable in the model.
- `liberarMatriz` (`functions/rotation.c:71-88`) and `liberarKernel` (`functions/convolution.c:61-69`) only free memory, so they have no counterpart.
- All `printf`/`fprintf` output. This includes the final message of `resizeBilinealConcurrente`, which reads `args[0]` after `free(args)` (`functions/resize.c:180-184`).
- Floating point is modelled as exact real arithmetic:
  - `exp`, `cos` and `sin` are parameters (`exp` positive);
  - `fmod`, `round`, `floor` and the conversions are exact;
  - `M_PI` is a real constant;
  - the float/double rounding of intermediate results is not modelled.
- `(int)ceil((double)h / n)` is modelled as the integer `(h + n - 1) / n`. The two agree as long as the double quotient is exact enough, which holds for image extents.
- `int` overflow of the extents, and of the products of indices with `filasPorHilo`, is not modelled: integers are unbounded.
- The convolution and rotation spawn failures (`functions/convolution.c:218-232`, `functions/rotation.c:278-283`) free the buffers without joining workers already started. Here a started worker has already finished, so the model only shows that `info` is left unchanged.
- Convolucion.AplicarConvolucionConcurrente: the C code never checks `sigma` and accepts negative odd kernel sizes (`functions/convolution.c:125`). The model requires `tamKernel >= 1` and `sigma != 0` whenever the early checks pass. Any non-zero `sigma` is allowed, since only `sigma^2` and `2*pi*sigma*sigma` enter the formula.
- Borde.DetectarBordesSobel: requires one channel or at least three channels for a loaded image. The grayscale pass reads channels 0 to 2 of every pixel that has more than one channel.
- Redimension.ResizeBilinealConcurrente: requires source extents of at least 1 for a loaded image. The worker reads row 0 and column 0 of the source unconditionally.
- The result buffers of the resize and the convolution are not cleared before the workers run. The model starts them with arbitrary contents, which the workers overwrite completely. The rotation's buffer is zero-filled, as `asignarMatriz` does.
- Rotacion.RotarCeroGrados: covers only odd extents. For even extents, the destination centre `nuevoAncho / 2` (`functions/rotation.c:253`) and the truncated source centre `(int)((ancho - 1) / 2.0)` (`functions/rotation.c:273`) differ by one pixel, so a 0-degree rotation shifts the image. No identity claim is made for rotation.
- The axis-aligned rotation variant is not part of this model.
