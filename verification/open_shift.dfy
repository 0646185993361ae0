/** The open-shift form: the responsible employee's name, an optional cash
    float, and the request that opens the shift. */
module OpenShift {
  import opened Common

  /** The body of `POST /api/turnos/open`. */
  datatype OpenRequest = OpenRequest(usuario_responsable: string, fondo_inicial: int, hora_apertura: string)

  /** What pressing the button does: a warning without a request, or the request. */
  datatype OpenStep = Warn(mensaje: string) | Send(body: OpenRequest)

  /** The warning for an empty name: a warning sign, then the request to type one. */
  const NameWarning := "⚠️" + " Ingresa tu nombre antes de abrir el turno."

  /** `parseFloat(fondo) || 0`: the parsed amount, or 0 when parsing fails. */
  function InitialFloat(parsed: Option<int>): (r: int)
    ensures parsed.None? ==> r == 0
    ensures parsed.Some? ==> r == parsed.value
  {
    match parsed
    case None => 0
    case Some(v) => v
  }

  /** `abrirTurno`: an empty name only warns; otherwise the body carries the
      name as typed, the parsed float (0 when unparseable) and the current
      instant, given here as its ISO text `now`. */
  function AbrirTurno(nombre: string, parsedFondo: Option<int>, now: string): (r: OpenStep)
    ensures r.Warn? <==> nombre == ""
    ensures r.Warn? ==> r.mensaje == NameWarning
    ensures r.Send? ==>
      (&& r.body.usuario_responsable == nombre
       && r.body.hora_apertura == now
       && (parsedFondo.None? ==> r.body.fondo_inicial == 0)
       && (parsedFondo.Some? ==> r.body.fondo_inicial == parsedFondo.value))
  {
    if nombre == "" then Warn(NameWarning)
    else Send(OpenRequest(nombre, InitialFloat(parsedFondo), now))
  }

  const OpenFallback := "Error desconocido al abrir el turno."

  /** The message once the request settles: success names the responsible
      employee the backend returned; failure shows the backend detail or the
      generic text. */
  function OpenSettled(outcome: Response<string>): (r: string)
    ensures outcome.Ok? ==> r == "✅ Turno abierto correctamente (" + outcome.data + ")"
    ensures outcome.Err? ==> r == "❌ Error al abrir el turno: " + OrElse(outcome.detail, OpenFallback)
  {
    match outcome
    case Ok(usuario) => "✅ Turno abierto correctamente (" + usuario + ")"
    case Err(detail) => "❌ Error al abrir el turno: " + OrElse(detail, OpenFallback)
  }

  /** The message is drawn red exactly when it starts with '❌'. */
  predicate ShownAsError(mensaje: string)
  {
    |mensaje| > 0 && mensaje[0] == '❌'
  }

  /** Only a failed request gives a red message; the empty-name warning and a
      success are drawn green. */
  lemma MessageColour(outcome: Response<string>)
    ensures ShownAsError(OpenSettled(outcome)) <==> outcome.Err?
    ensures !ShownAsError(NameWarning)
  {
  }

  /** Opening a shift as "Ana" with an empty float field sends a zero float. */
  lemma AnaScenario(now: string)
    ensures AbrirTurno("Ana", None, now) == Send(OpenRequest("Ana", 0, now))
  {
  }
}
