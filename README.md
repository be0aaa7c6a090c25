# golang-practice in Dafny

This project models the sequential logic of the Go teaching repository
golang-practice and proves properties of it. It covers:

- the in-memory product table, both as the console CRUD (`crud/main.go`) and as the Gin
  handlers of `crud-api`;
- the todo list;
- one order going through the processor chain of the order-processing
  example (`14_ejemplo_completo.go`);
- the validators and error values of the error lesson;
- the map helpers;
- the slice helpers;
- the method receivers and builder;
- the function lesson (`03_funciones.go`), including its closure counter;
- the guess-the-number game;
- the pointer and struct lessons.

Most Go files have a Dafny module of their own, named after what the file does (`06_maps.go` is
`Mapas`, `14_ejemplo_completo.go` is `Pedidos`, `crud/main.go` is `Crud`). A few small shared
modules model Go itself or what two programs share:

- `GoInt`: 64-bit `int` with wrap-around.
- `GoText`: `len(s)` as the UTF-8 byte length, `s[0]` as the first byte, and `%d` as decimal digits.
- `GoSlices`: the splice `append(s[:i], s[i+1:]...)`.
- `GoPointers`: a heap cell standing for `*T`.
- `ProductoTabla`: the product table shared by both CRUD variants, including the package variables
  of `crud-api/models/producto.go`.
- `Wrappers`: Option and Result.

Code that updates state in place becomes classes and methods. They carry
`modifies` clauses and loop invariants. Most are proved equal to a pure
specification function (`CrudApi.Modelos` against the handler functions,
`Pedidos.SistemaPedidos` against `Cadena`, `Cierre` and `Corrida`). A few
simple ones state their new state directly, in terms of the old one:
`Crud.Catalogo`, `TodoList.ListaTareas` and `Metodos.Contador`.
Pure Go code becomes functions and lemmas.
The inputs that come from outside the program are parameters:

- `strconv.Atoi` as an `Option`;
- `ShouldBindJSON` as a `Bind` outcome;
- `fmt.Scanln` lines as `Option<int>`;
- random draws as `Sorteo` records, a payment `bool` and a secret.

## Model

| member | source | states |
|---|---|---|
| ProductoTabla.PrimerIndice | crud/main.go:51-58 | the index of the first product with the ID, none before it matches; None exactly when no product has the ID |
| ProductoTabla.IdsUnicos | crud/main.go:19-30 | in a table built by the counter scheme no ID occurs twice and no ID at or above the counter occurs |
| ProductoTabla.PrimerIndiceUnico | crud/main.go:51-58 | in a valid table the product at any index holding the ID is the one the search returns |
| ProductoTabla.AgregarValida | crud/main.go:23-30 | appending a product with ID = counter and incrementing keeps IDs increasing and below the counter; the new ID finds the new last entry |
| ProductoTabla.ReemplazarValida | crud/main.go:68-69 | overwriting an entry with the same ID keeps the table valid |
| ProductoTabla.QuitarValida | crud/main.go:75-86 | deleting an entry keeps the table valid without lowering the counter; the deleted ID is then absent |
| GoSlices.Quitar | todo-list/main.go:37 | `append(s[:i], s[i+1:]...)` has one element fewer; elements before i kept, later ones shifted down by one |
| GoSlices.QuitarMultiset | crud/main.go:79 | the splice loses exactly the element at i |
| Crud.Catalogo.constructor | crud/main.go:19-20 | the program starts with no products and `siguienteID` 1 |
| Crud.Catalogo.CrearProducto | crud/main.go:23-32 | new ID = old counter, counter incremented, product appended at the end with earlier entries unchanged, table invariant kept |
| Crud.Catalogo.BuscarProducto | crud/main.go:51-58 | the search loop returns the first matching index, or None (nil) |
| Crud.Catalogo.ActualizarProducto | crud/main.go:61-72 | false and nothing changed when absent; otherwise true, only Nombre and Precio of the first match overwritten, ID, counter and other entries unchanged |
| Crud.Catalogo.EliminarProducto | crud/main.go:75-86 | true and the first match spliced out preserving order, or false with the slice unchanged; counter never changes; the ID is absent afterwards |
| CrudApi.Listar | crud-api/handlers/productos.go:14-19 | 200 with the table and `total` = its length |
| CrudApi.Obtener | crud-api/handlers/productos.go:23-45 | 400 "ID inválido" on a bad id; 200 exactly when a product has the id, with that product; else 404 |
| CrudApi.Crear | crud-api/handlers/productos.go:49-69 | bad body: 400 with the binder's error and no change; else the product gets ID = SiguienteID, is appended, the counter increments, 201 |
| CrudApi.Actualizar | crud-api/handlers/productos.go:73-108 | id checked, then body, then lookup; on a match the whole entry is replaced by the body with its ID forced to the path id; counter never changes |
| CrudApi.Eliminar | crud-api/handlers/productos.go:112-139 | 400 on bad id; first match spliced out, 200 with the message; else 404 and no change; counter never changes |
| CrudApi.AtenderValida | crud-api/routes/routes.go:29-33 | every route keeps IDs unique and below SiguienteID; after DELETE the id is gone; after a POST the new ID finds the new product |
| CrudApi.CorridaValida | crud-api/models/producto.go:11-12 | over any sequence of requests served one at a time, the table stays valid and SiguienteID advances exactly once per successful POST, so IDs are never reused when requests are serialized |
| CrudApi.LecturasNoModifican | crud-api/handlers/productos.go:14-45 | the two GET handlers never change the table |
| CrudApi.ActualizarCuerpoAntesQueBusqueda | crud-api/handlers/productos.go:75-107 | on a missing id a bad body yields 400, a good one 404 |
| CrudApi.Modelos.constructor | crud-api/models/producto.go:11-12 | empty table, SiguienteID 1 |
| CrudApi.Modelos.ListarProductos | crud-api/handlers/productos.go:14-19 | the response equals `Listar` on the current table |
| CrudApi.Modelos.ObtenerProducto | crud-api/handlers/productos.go:23-45 | the search loop's response equals `Obtener` on the current table |
| CrudApi.Modelos.CrearProducto | crud-api/handlers/productos.go:49-69 | the in-place update yields the response and new table `Crear` gives, keeping the invariant |
| CrudApi.Modelos.ActualizarProducto | crud-api/handlers/productos.go:73-108 | the loop with index assignment yields exactly `Actualizar`'s response and table |
| CrudApi.Modelos.EliminarProducto | crud-api/handlers/productos.go:112-139 | the loop with the splice yields exactly `Eliminar`'s response and table |
| TodoList.Marcada | todo-list/main.go:26-28 | only the task at the index changes, gaining `completado` and keeping its texts |
| TodoList.MarcadaIdempotente | todo-list/main.go:26-28 | marking twice equals marking once |
| TodoList.TareaLeida | todo-list/main.go:74-80 | the task built by the menu carries the read texts and is not completed |
| TodoList.ListaTareas.constructor | todo-list/main.go:43 | `ListaTareas{}` is empty |
| TodoList.ListaTareas.AgregarTarea | todo-list/main.go:21-23 | the task is appended at the end |
| TodoList.ListaTareas.MarcarCompletado | todo-list/main.go:26-28 | requires a valid index (Go panics otherwise); the slice becomes `Marcada` of the old one |
| TodoList.ListaTareas.EditarTarea | todo-list/main.go:31-33 | requires a valid index; same length, the task replaced wholesale, others unchanged |
| TodoList.ListaTareas.EliminarTarea | todo-list/main.go:36-38 | requires a valid index; the slice becomes the splice without the index |
| TodoList.ListaTareas.EditarDesdeMenu | todo-list/main.go:72-82 | an edited task comes back with the new texts and not completed, others unchanged |
| Pedidos.EstadoDesde | 14_ejemplo_completo.go:21-28 | the iota constants are exactly the values 0..3 |
| Pedidos.EstadoDistinto | 14_ejemplo_completo.go:21-33 | the four states have distinct values and `String()` gives four distinct names |
| Pedidos.Reservar | 14_ejemplo_completo.go:92-99 | short stock (a missing key reads 0): the error and the map unchanged; else stock of that product reduced by Cantidad and every other product unchanged |
| Pedidos.ReservarNoNegativo | 14_ejemplo_completo.go:93-99 | stock that starts non-negative stays non-negative under an order for a non-negative quantity, and the subtraction cannot wrap |
| Pedidos.ReservarProductoAusente | 14_ejemplo_completo.go:92 | an order of at least one unit of a product not in the map fails and changes nothing |
| Pedidos.ProcesadorInventario.constructor | 14_ejemplo_completo.go:129-137 | the processor holds the given stock map |
| Pedidos.ProcesadorInventario.Procesar | 14_ejemplo_completo.go:85-102 | the in-place update returns the error and leaves the map that `Reservar` gives |
| Pedidos.CadenaConcatenada | 14_ejemplo_completo.go:176-185 | processors run in list order and nothing after the first error runs |
| Pedidos.CadenaDelSistema | 14_ejemplo_completo.go:128-140 | the fixed chain fails iff stock is short or payment is rejected; on a rejected payment the reservation stays deducted (no rollback) |
| Pedidos.Cierre | 14_ejemplo_completo.go:187-198 | final state Completado iff no error, else Fallido; Exito agrees with the state; the message is the error's or the success text |
| Pedidos.SistemaPedidos.constructor | 14_ejemplo_completo.go:126-145 | processors inventory, payment, shipping in that order; the initial stock of five products |
| Pedidos.SistemaPedidos.Ejecutar | 14_ejemplo_completo.go:177 | one processor call yields the error and stock of `Paso` |
| Pedidos.SistemaPedidos.ProcesarPedido | 14_ejemplo_completo.go:169-198 | the loop with `break` leaves the stock the chain gives, and the order and result given by `Cierre` of the chain's error |
| Pedidos.CadenaNoNegativa | 14_ejemplo_completo.go:176-185 | the processor chain keeps every stock entry non-negative for an order of a non-negative quantity |
| Pedidos.Corrida | 14_ejemplo_completo.go:172-199 | orders take turns: one result per order, and each order's chain runs on the stock the earlier ones left |
| Pedidos.CorridaResultado | 14_ejemplo_completo.go:172-199 | result k is `Cierre` of order k's chain, run on the stock after orders 0..k-1 |
| Pedidos.CorridaNoNegativa | 14_ejemplo_completo.go:93-99 | a whole run over orders of non-negative quantities never leaves a negative stock entry |
| Pedidos.SistemaPedidos.Trabajador | 14_ejemplo_completo.go:168-199 | the final stock and the results equal `Corrida` of the old stock; each result is `Cierre` of its order's chain on the stock the earlier orders left, with only the state changed and Exito agreeing with it |
| Pedidos.Exitos | 14_ejemplo_completo.go:249-256 | the successes never outnumber the results; `Estadisticas` proves the counting loop computes it |
| Pedidos.Estadisticas | 14_ejemplo_completo.go:245-256 | exitosos counts the successful results and exitosos + fallidos = number of results |
| Pedidos.GenerarPedidos | 14_ejemplo_completo.go:220-237 | IDs 1..n in order, all Pendiente, Cantidad in 1..3, with the drawn client, product and price |
| Errores.ValidationError.Error | 11_errores.go:206-208 | the text is "validación falló en " + Field + ": " + Message |
| Errores.ErrorInyectivo | 11_errores.go:206-208 | for a fixed field, the message can be read back from the text |
| Errores.ParsearEdad | 11_errores.go:171-181 | unparsable: 0 and an error wrapping the conversion error; 0..120: the age and no error; otherwise 0 and the range error |
| Errores.VerificarEdad | 11_errores.go:184-195 | no error iff 18 <= edad <= 120; negativity reported first, then minority, then the upper bound |
| Errores.VerificadaEsParseable | 11_errores.go:177-194 | an age `verificarEdad` accepts also passes the range check of `parsearEdad` |
| Errores.ValidarUsuario | 11_errores.go:211-225 | an empty username yields Field "username" even with a short password; otherwise Field "password" iff the password has fewer than 8 bytes |
| Errores.ValidarUsuarioPorCaracteres | 11_errores.go:218 | 8 or more characters always pass; an ASCII password passes exactly when it has 8 or more |
| Errores.ProcesarArchivo | 11_errores.go:234-244 | always an error that `errors.Is` matches with ErrArchivoNoEncontrado, and not with ErrPermisosDenegados |
| GoText.LongitudBytesCota | 11_errores.go:218 | `len` in bytes is at least the number of characters, and equal exactly for ASCII |
| GoText.PrimerByte | 06_maps.go:212 | `nombre[0]` is a byte; it is the character itself for ASCII and a lead byte >= 0xC0 otherwise |
| GoText.DigitosValor | 11_errores.go:178 | the `%d` rendering of a natural reads back as the number |
| GoInt.WrapAdd | ejercicios/05_arrays_slices.go:166-168 | wrapping after every `+=` equals wrapping the whole sum |
| Mapas.ContarPalabras | 06_maps.go:200-206 | the keys are exactly the distinct words and each count is the number of occurrences |
| Mapas.ConteoSuma | 06_maps.go:200-205 | the counts add up to the number of words |
| Mapas.Inicial | 06_maps.go:212 | for an ASCII first character the initial is that character |
| Mapas.Grupo | 06_maps.go:209-215 | every name in a group is non-empty and has that initial; the group is a sub-multiset of the input |
| Mapas.GrupoAnexado | 06_maps.go:213 | appending a name extends only the group of its own initial, at the end |
| Mapas.AgrupacionAgregar | 06_maps.go:213 | one step of the loop keeps the map equal to the grouping of the names seen so far |
| Mapas.AgruparPorInicial | 06_maps.go:209-216 | keys are exactly the initials present; each group holds the names with that initial in input order; requires non-empty names (Go panics on `nombre[0]`) |
| Mapas.GrupoTamano | 06_maps.go:209-215 | a group has as many names as there are names with that initial |
| Mapas.AgrupacionSuma | 06_maps.go:209-215 | the group sizes sum to the number of names |
| Mapas.ProductoMasCaro | 06_maps.go:174-189 | for an empty map ("", 0); otherwise a key of the map whose price is >= every price, whatever the iteration order |
| ArraysSlices.SumarSlice | ejercicios/05_arrays_slices.go:164-170 | the wrapped sum of the elements, exact when it fits in 64 bits, and 0 for an empty slice |
| ArraysSlices.EncontrarMaximo | ejercicios/05_arrays_slices.go:172-183 | 0 for an empty slice; otherwise an element that is >= every element |
| ArraysSlices.Duplicado | ejercicios/05_arrays_slices.go:187-191 | same length, each element twice the old one with wrap-around |
| ArraysSlices.Duplicar | ejercicios/05_arrays_slices.go:187-191 | the caller's array becomes `Duplicado` of its old contents, in place |
| ArraysSlices.DuplicadoCongruente | ejercicios/05_arrays_slices.go:187-191 | the sum after doubling is twice the old sum modulo 2^64 |
| ArraysSlices.SumaDuplicada | ejercicios/05_arrays_slices.go:155-160 | `sumarSlice` after `duplicar` gives twice the earlier sum, wrapped |
| ArraysSlices.SubslicesDelEjemplo | ejercicios/05_arrays_slices.go:86-103 | slicing is half-open: `[1:4]` is [20 30 40], `[:3]` and `[3:]` split at index 3 |
| ArraysSlices.Copiar | ejercicios/05_arrays_slices.go:109-110 | `copy` copies min(len(dst), len(src)) elements from the start and leaves the rest of dst alone |
| ArraysSlices.CopiaIndependiente | ejercicios/05_arrays_slices.go:108-118 | after copying and writing `copia2[0] = 999` the original is still [1 2 3] |
| Metodos.Contador.constructor | 08_metodos.go:178 | the counter starts at the given value |
| Metodos.Contador.Incrementar | 08_metodos.go:84-86 | `valor` up by 1 |
| Metodos.Contador.Decrementar | 08_metodos.go:88-90 | `valor` down by 1 |
| Metodos.Contador.Valor | 08_metodos.go:92-94 | returns `valor` without changing anything; the getter promises no more, and `SecuenciaContador` shows the readings |
| Metodos.Contador.Reset | 08_metodos.go:96-98 | `valor` becomes 0 |
| Metodos.SecuenciaContador | 08_metodos.go:178-190 | from 0 the readings are 0, 3 after three increments, 2 after a decrement, 0 after reset |
| Metodos.CumpleaniosIncorrecto | 08_metodos.go:66-69 | only the copy ages; its age is one more than the caller's |
| Metodos.Cumpleanios | 08_metodos.go:73-76 | through the pointer the age grows by 1 and the name stays |
| Metodos.CambiarNombre | 08_metodos.go:78-80 | only the name changes |
| Metodos.ReceptoresDelEjemplo | 08_metodos.go:154-169 | Ana stays 25 after the value method, turns 26 with the pointer method and is renamed "Ana María" |
| Metodos.Constructor.constructor | 08_metodos.go:241 | the builder starts at the given value |
| Metodos.Constructor.Sumar | 08_metodos.go:227-230 | adds n (wrapping) and returns the same receiver |
| Metodos.Constructor.Multiplicar | 08_metodos.go:232-235 | multiplies by n (wrapping) and returns the same receiver |
| Metodos.Constructor.Obtener | 08_metodos.go:237-239 | returns the current value; `Encadenamiento` shows it after a chain |
| Metodos.Encadenamiento | 08_metodos.go:241-243 | `Sumar(5).Multiplicar(2).Obtener()` from 10 is 30 |
| Funciones.Sumar | 03_funciones.go:19-21 | a + b modulo 2^64, exactly a + b when it fits |
| Funciones.Multiplicar | 03_funciones.go:24-26 | a * b modulo 2^64, exactly a * b when it fits |
| Funciones.SumarTodos | 03_funciones.go:50-57 | the wrapped sum of all arguments, 0 with none |
| GoInt.SumaConcatenada | 03_funciones.go:50-57 | the sum of a concatenation is the sum of its two parts |
| Funciones.SumarTodosPartido | 03_funciones.go:50-57 | splitting the arguments in two and adding the partial sums with `sumar` gives the same 64-bit value |
| Funciones.SumarTodosDelEjemplo | 03_funciones.go:116 | `sumarTodos(1, 2, 3, 4, 5)` is 15 |
| Funciones.AplicarOperacion | 03_funciones.go:61-63 | the result is the given function applied to the operands, which is all the Go function does; `AplicarOperacionDelEjemplo` shows it with `sumar` and `multiplicar` |
| Funciones.AplicarOperacionDelEjemplo | 03_funciones.go:121-125 | with `sumar` 10, 5 gives 15; with `multiplicar` 50 |
| Funciones.Contador.constructor | 03_funciones.go:76-77 | a new closure's captured count is 0 |
| Funciones.Contador.Llamar | 03_funciones.go:78-81 | each call increments the captured count and returns it |
| Funciones.ClausurasDelEjemplo | 03_funciones.go:133-140 | one counter answers 1, 2, 3; a second one starts again at 1 |
| GuessNumber.PistaPara | guess-number-game/main.go:24-32 | hit iff equal, "mayor" iff guess < secret, "menor" iff guess > secret |
| GuessNumber.Adivinanzas | guess-number-game/main.go:22 | one guess value per read |
| GuessNumber.AdivinanzasLeidas | guess-number-game/main.go:22 | when every line parses, the guesses are the numbers typed |
| GuessNumber.AdivinanzaFallida | guess-number-game/main.go:15-22 | a failed read repeats the previous guess, and the first one is 0 |
| GuessNumber.Jugar | guess-number-game/main.go:13-36 | 1 to 10 tries; remaining counts shown 10, 9, ...; one hint per try; the game ends at the first hit; no hit means 10 tries and the secret revealed |
| GuessNumber.JugarDeNuevo | guess-number-game/main.go:38-52 | "s" plays again and "n" stops at the first such answer; every earlier answer was neither; running out of input gives no answer |
| GoPointers.Puntero.constructor | 10_punteros.go:112-113 | a fresh cell holds the given value |
| Punteros.DuplicarValor | 10_punteros.go:177-181 | only the copy doubles: the result is 2n modulo 2^64 |
| Punteros.DuplicarReferencia | 10_punteros.go:184-188 | `*n` becomes twice its old value, wrapped |
| Punteros.PasoPorValorYReferencia | 10_punteros.go:68-77 | a stays 5 while b becomes 10 |
| Punteros.ModificarPersonaValor | 10_punteros.go:191-194 | only the copy gets age 100; the name is kept |
| Punteros.ModificarPersonaPuntero | 10_punteros.go:197-200 | the caller's age becomes 100 and the name stays |
| Punteros.PersonasDelEjemplo | 10_punteros.go:88-106 | persona1 unchanged by the value call; persona2 ends at age 100 |
| Punteros.ModificarSlice | 10_punteros.go:208-210 | requires length >= 1; element 0 becomes 999, the rest unchanged |
| Punteros.ModificarMapa | 10_punteros.go:213-215 | key "b" maps to 2, every other key unchanged, no other key added |
| Punteros.GranStructCero | 10_punteros.go:161 | `&GranStruct{}` holds 1000 zeros |
| Punteros.ProcesarGranStruct | 10_punteros.go:226-229 | `Datos[0]` becomes 1 and the other 999 entries are unchanged |
| Punteros.ComparacionDelEjemplo | 10_punteros.go:143-151 | distinct variables have distinct addresses, the same variable the same one, and equal contents compare equal |
| Punteros.EscrituraPorPuntero | 10_punteros.go:16-30 | after `*p = 100` through `p = &x`, x reads 100 |
| Structs.CrearPersona | ejercicios/07_structs.go:224-230 | each field equals its argument |
| Structs.CrearPersonaInyectiva | ejercicios/07_structs.go:224-230 | every Persona is the `crearPersona` of its own fields |
| Structs.Cumpleanios | ejercicios/07_structs.go:218-221 | age up by 1; name and email unchanged |
| Structs.IgualdadPorCampos | ejercicios/07_structs.go:133-139 | struct `==` holds exactly when all three fields are equal |
| Structs.ComparacionDelEjemplo | ejercicios/07_structs.go:134-139 | per1 == per2 and per1 != per3 |
| Structs.CopiaDelEjemplo | ejercicios/07_structs.go:144-150 | changing the copy's name leaves the original unchanged |
| Structs.CumpleaniosDelEjemplo | ejercicios/07_structs.go:169-176 | Roberto turns 41 |

## Left out

- Concurrency is not modelled. This covers the goroutines, channels, `WaitGroup` and `Mutex`,
  and in `14_ejemplo_completo.go` `Iniciar`, `AgregarPedido`, `Finalizar`, `Resultados` and the
  channels. Orders are processed one after another, by one `Trabajador`.
- CrudApi: requests are modelled one after another. Gin serves each request on its own goroutine,
  and `models.Productos` and `models.SiguienteID` are package variables with no lock. Two POSTs at
  the same moment can therefore receive the same ID, which the model does not capture.
- Randomness becomes parameters. The payment processor's 10% failure becomes `pagoAprobado`.
  The draws of `GenerarPedidos` become `Sorteo` records, and `rand.Intn(100)` is the secret.
  Sleeping is dropped.
- Floating point is left out: the method lesson's geometry and `Temperatura`, `aplicarDescuento`,
  `dividir`, `rectangulo`, `totalVentas` and the percentages. Prices are `real` values that are
  only stored and compared, so NaN is not modelled.
- Console I/O is left out: the menus, `leerTexto`, `listarProductos` and all printing. The menu
  of the todo program also reads with `ReadString('\n')`, which keeps the newline; the model takes
  the texts as given.
- Gin wiring is left out: `routes.go`, `crud-api/main.go` and the JSON encoding. `ShouldBindJSON`
  and its `binding` tags are the `Bind` input. `strconv.Atoi` on the path is an `Option<int>` input.
- Go's 64-bit wrap-around is modelled only where one call with chosen operands can overflow.
  That means `sumar`, `multiplicar`, `sumarTodos`, `sumarSlice`, `duplicar`, `duplicarValor`,
  `duplicarReferencia` and `Constructor`. IDs, counters, ages, stock and tries are unbounded
  integers. The programs only start them at small values: IDs at 1, counters at 0, ages typed as
  literals, orders of 1 to 3 units, 10 tries. A caller that passes a value near the limits would
  see Go wrap where the model does not. Examples are a `Contador` started at the largest `int`,
  or a `Persona` of that age.
- Pedidos.Reservar: the subtraction is unbounded. It equals Go's `-=` whenever Cantidad is
  non-negative, which holds for every order `GenerarPedidos` builds. An order with a huge negative
  Cantidad would wrap in Go.
- Pedidos.EstadoDistinto: covers only the four declared constants; `String()` on other values of
  `EstadoPedido` panics in Go and is not modelled.
- Pedidos.SistemaPedidos.ProcesarPedido: the result holds a copy of the order, not the shared
  `*Pedido`.
- Pedidos.SistemaPedidos.Trabajador: does not model which worker takes which order. Several workers
  interleave whole orders (the inventory `Mutex` covers one `Procesar` call), and the model fixes one order of turns.
- Errores.Is: compares sentinel errors by name rather than by pointer identity. The `%w` chain is
  modelled, but not `errors.As` or `Unwrap`.
- GuessNumber.Jugar: each read consumes one line. A line that fails to parse becomes `None`, but
  `fmt.Scanln` may leave the rest of that line unread; that is not modelled.
- GuessNumber.JugarDeNuevo: when input runs out, Go's `playAgain` recurses forever; the model
  reports that no answer was given. A whole session is not modelled: play, then playAgain, then
  play again, over one shared input stream.
- `defer`, `panic`/`recover`, the interface lesson and the print-only scripts are left out.
  They have no stateable contract.
