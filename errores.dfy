/**
 * The validators and error values of the error-handling lesson: Go's
 * `error` interface values as a datatype, wrapping with `%w` and
 * `errors.Is`, and the age, user and file checks that return them.
 */
module Errores {
  import opened Wrappers
  import opened GoText

  /** `*ValidationError`. */
  datatype ValidationError = ValidationError(field: string, message: string) {

    /** `Error()`. */
    function Error(): (r: string)
      ensures |r| == |Prefijo| + |field| + 2 + |message|
      ensures r[..|Prefijo|] == Prefijo
      ensures r[|Prefijo|..|Prefijo| + |field|] == field
      ensures r[|r| - |message|..] == message
    {
      Prefijo + field + ": " + message
    }
  }

  const Prefijo: string := "validación falló en "

  /** For a fixed field the message is recoverable from the text: `Error()` loses nothing. */
  lemma ErrorInyectivo(a: ValidationError, b: ValidationError)
    requires a.field == b.field
    requires a.Error() == b.Error()
    ensures a == b
  {
    var n := |Prefijo| + |a.field| + 2;
    assert a.message == a.Error()[n..];
    assert b.message == b.Error()[n..];
  }

  /** The dynamic values behind an `error` that this lesson creates. */
  datatype Error =
      /** `errors.New` or `fmt.Errorf` without `%w`. */
    | Simple(texto: string)
      /** A package-level `errors.New` value, compared by identity (its name). */
    | Centinela(nombre: string, texto: string)
      /** `fmt.Errorf` with `%w`: its text already includes the cause's. */
    | Envuelto(texto: string, causa: Error)
      /** A `*ValidationError`. */
    | Validacion(ve: ValidationError)
  {
    /** The `Error()` method of the dynamic type. */
    function Mensaje(): string
    {
      match this
      case Simple(t) => t
      case Centinela(_, t) => t
      case Envuelto(t, _) => t
      case Validacion(ve) => ve.Error()
    }
  }

  /** `errors.Is`: the error itself or any error it wraps equals the target. */
  function Is(err: Error, target: Error): bool
  {
    err == target || (err.Envuelto? && Is(err.causa, target))
  }

  const ErrArchivoNoEncontrado: Error := Centinela("ErrArchivoNoEncontrado", "archivo no encontrado")
  const ErrPermisosDenegados: Error := Centinela("ErrPermisosDenegados", "permisos denegados")

  /**
   * `parsearEdad`.  `conversion` is the outcome of `strconv.Atoi(s)`: the
   * integer, or the conversion error that the result wraps.
   */
  function ParsearEdad(s: string, conversion: Result<int, Error>): (r: (int, Option<Error>))
    ensures conversion.Err? ==>
      && r.0 == 0 && r.1.Some? && r.1.value.Envuelto?
      && r.1.value.causa == conversion.error && Is(r.1.value, conversion.error)
    ensures conversion.Ok? && 0 <= conversion.value <= 120 ==> r == (conversion.value, None)
    ensures conversion.Ok? && !(0 <= conversion.value <= 120) ==>
      r == (0, Some(Simple("edad fuera de rango: " + Itoa(conversion.value))))
  {
    match conversion
    case Err(e) => (0, Some(Envuelto("error al parsear edad '" + s + "': " + e.Mensaje(), e)))
    case Ok(edad) =>
      if edad < 0 || edad > 120 then (0, Some(Simple("edad fuera de rango: " + Itoa(edad))))
      else (edad, None)
  }

  const MsgNegativa: string := "la edad no puede ser negativa"
  const MsgMenor: string := "debes ser mayor de edad"
  const MsgNoValida: string := "edad no válida"

  /** `verificarEdad`: negativity is checked first, then majority, then the upper bound. */
  function VerificarEdad(edad: int): (r: Option<Error>)
    ensures r.None? <==> 18 <= edad <= 120
    ensures edad < 0 ==> r == Some(Simple(MsgNegativa))
    ensures 0 <= edad < 18 ==> r == Some(Simple(MsgMenor))
    ensures edad > 120 ==> r == Some(Simple(MsgNoValida))
  {
    if edad < 0 then Some(Simple(MsgNegativa))
    else if edad < 18 then Some(Simple(MsgMenor))
    else if edad > 120 then Some(Simple(MsgNoValida))
    else None
  }

  /** An age accepted by `verificarEdad` is also accepted by the range check of `parsearEdad`. */
  lemma VerificadaEsParseable(s: string, edad: int)
    requires VerificarEdad(edad).None?
    ensures ParsearEdad(s, Ok(edad)) == (edad, None)
  {
  }

  /** `validarUsuario`: an empty username is reported before a short password; length counts bytes. */
  function ValidarUsuario(username: string, password: string): (r: Option<Error>)
    ensures username == [] ==> r == Some(Validacion(ValidationError("username", "no puede estar vacío")))
    ensures username != [] ==> (r.Some? <==> LongitudBytes(password) < 8)
    ensures username != [] && r.Some? ==>
      r.value == Validacion(ValidationError("password", "debe tener al menos 8 caracteres"))
  {
    if username == [] then Some(Validacion(ValidationError("username", "no puede estar vacío")))
    else if LongitudBytes(password) < 8 then
      Some(Validacion(ValidationError("password", "debe tener al menos 8 caracteres")))
    else None
  }

  /**
   * Because the check counts bytes, a password of eight or more characters
   * always passes, and an ASCII one passes exactly when it has eight.
   */
  lemma ValidarUsuarioPorCaracteres(username: string, password: string)
    requires username != []
    ensures |password| >= 8 ==> ValidarUsuario(username, password).None?
    ensures (forall k :: 0 <= k < |password| ==> password[k] < 128 as char) ==>
      (ValidarUsuario(username, password).None? <==> |password| >= 8)
  {
    LongitudBytesCota(password);
  }

  /** `procesarArchivo`: it always fails with `ErrArchivoNoEncontrado` wrapped in context. */
  function ProcesarArchivo(nombre: string): (r: Option<Error>)
    ensures r.Some? && Is(r.value, ErrArchivoNoEncontrado)
    ensures r.Some? && !Is(r.value, ErrPermisosDenegados)
  {
    var err := ErrArchivoNoEncontrado;
    Some(Envuelto("error al procesar " + nombre + ": " + err.Mensaje(), err))
  }
}
