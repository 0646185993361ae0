/** The admin sales summary: the payments, their grand total, and a detail
    table the user can collapse and expand. */
module SalesSummary {
  import opened Common
  import opened Payments

  /** The view's state: `pagos`, `total` and `mostrarDetalle`. */
  datatype Summary = Summary(pagos: seq<Pago>, total: int, mostrarDetalle: bool)

  /** The state on mount: nothing loaded, total 0, detail expanded. */
  const Initial := Summary([], 0, true)

  /** The mount fetch: on success the payments are stored as sent and the total
      is their reduction from 0; a failure is only logged. */
  function Loaded(s: Summary, outcome: Response<seq<Pago>>): (r: Summary)
    ensures outcome.Ok? ==> r.pagos == outcome.data && r.total == SumTotals(outcome.data)
    ensures outcome.Err? ==> r == s
    ensures r.mostrarDetalle == s.mostrarDetalle
  {
    match outcome
    case Ok(data) =>
      ReduceIsSum(0, data);
      s.(pagos := data, total := ReduceTotals(0, data))
    case Err(_) => s
  }

  /** `toggleDetalle`: flips the detail flag and nothing else. */
  function Toggle(s: Summary): (r: Summary)
    ensures r.mostrarDetalle != s.mostrarDetalle
    ensures r.pagos == s.pagos && r.total == s.total
  {
    s.(mostrarDetalle := !s.mostrarDetalle)
  }

  /** Toggling twice restores the state. */
  lemma ToggleTwice(s: Summary)
    ensures Toggle(Toggle(s)) == s
  {
  }

  /** The detail table renders only for a non-empty list with the detail shown. */
  predicate TableVisible(s: Summary)
  {
    |s.pagos| != 0 && s.mostrarDetalle
  }

  /** The toggle button exists only for a non-empty list. */
  predicate ToggleVisible(s: Summary)
  {
    |s.pagos| != 0
  }

  /** The "no payments yet" text shows only for an empty list. */
  predicate EmptyTextVisible(s: Summary)
  {
    |s.pagos| == 0
  }

  /** Exactly one of the empty text and the toggle button is on screen; the
      table needs the button, and toggling a loaded list hides or shows the
      table without touching the button. */
  lemma VisibilityConsistent(s: Summary)
    ensures EmptyTextVisible(s) != ToggleVisible(s)
    ensures TableVisible(s) ==> ToggleVisible(s)
    ensures ToggleVisible(s) ==> TableVisible(Toggle(s)) != TableVisible(s) && ToggleVisible(Toggle(s))
  {
  }

  /** The method column: the payment method, or "N/A" when missing or empty. */
  function MetodoLabel(p: Pago): (r: string)
    ensures p.metodo_pago.Some? && p.metodo_pago.value != "" ==> r == p.metodo_pago.value
    ensures p.metodo_pago.None? || p.metodo_pago == Some("") ==> r == "N/A"
  {
    OrElse(p.metodo_pago, "N/A")
  }

  /** The per-row total column: the payment's total, or 0 when missing or zero. */
  function RowTotal(p: Pago): (r: int)
    ensures p.total.Some? ==> r == p.total.value
    ensures p.total.None? ==> r == 0
  {
    TotalOrZero(p)
  }
}
