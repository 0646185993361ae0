/** The shift-history view: the unfiltered shift list, a status label per
    shift, and a "clear screen" button that only empties the local list. */
module ShiftHistory {
  import opened Common
  import opened Shifts
  import opened Timestamps

  /** The view's only state: the displayed shifts. */
  datatype History = History(turnos: seq<Shift>)

  const OpenLabel := "🟢 Abierto"
  const ClosedLabel := "🔒 Cerrado"

  /** `getEstado`: the closed label exactly for a truthy close time. */
  function GetEstado(hora_cierre: JsText): (r: string)
    ensures r == ClosedLabel <==> Truthy(hora_cierre)
    ensures r == OpenLabel <==> !Truthy(hora_cierre)
  {
    if Truthy(hora_cierre) then ClosedLabel else OpenLabel
  }

  /** A listed shift is labelled closed exactly when the end-of-day report
      lists it as closed, and open exactly when the admin view lists it as active. */
  lemma EstadoMatchesFilters(ts: seq<Shift>, t: Shift)
    requires t in ts
    ensures GetEstado(t.hora_cierre) == ClosedLabel <==> t in ClosedShifts(ts)
    ensures GetEstado(t.hora_cierre) == OpenLabel <==> t in ActiveShifts(ts)
  {
  }

  /** `fetchTurnos`: a successful fetch replaces the list with the server's,
      unfiltered; a failure is only logged. */
  function Fetched(h: History, outcome: Response<seq<Shift>>): (r: History)
    ensures outcome.Ok? ==> r.turnos == outcome.data
    ensures outcome.Err? ==> r == h
  {
    match outcome
    case Ok(data) => History(data)
    case Err(_) => h
  }

  /** `handleLimpiarPantalla`: empties the local list and issues no request. */
  function ClearScreen(h: History): (r: History)
    ensures |r.turnos| == 0
  {
    History([])
  }

  /** The clear button is enabled exactly when there is something to clear. */
  predicate ClearEnabled(h: History)
  {
    |h.turnos| != 0
  }

  /** The "no shifts" placeholder shows exactly when the list is empty. */
  predicate ShowsPlaceholder(h: History)
  {
    |h.turnos| == 0
  }

  /** Clearing is local only: a reload after clearing shows exactly what a
      reload without clearing shows; after clearing, the button is disabled and
      the placeholder appears. */
  lemma ClearIsLocalOnly(h: History, server: seq<Shift>)
    ensures Fetched(ClearScreen(h), Ok(server)) == Fetched(h, Ok(server))
    ensures !ClearEnabled(ClearScreen(h)) && ShowsPlaceholder(ClearScreen(h))
    ensures ClearEnabled(h) <==> !ShowsPlaceholder(h)
  {
  }

  /** The open and close cells of a card: the local date and time of the text
      as sent, without UTC normalisation, or "-" when absent. */
  function TimeCells(t: Shift): (r: (Shown, Shown))
    ensures r.0 == (if Truthy(t.hora_apertura) then DateTime(t.hora_apertura.text) else Placeholder("-"))
    ensures r.1 == (if Truthy(t.hora_cierre) then DateTime(t.hora_cierre.text) else Placeholder("-"))
  {
    (FormatUnnormalised(t.hora_apertura, "-"), FormatUnnormalised(t.hora_cierre, "-"))
  }
}
