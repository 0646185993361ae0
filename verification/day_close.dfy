/** The end-of-day close: after a confirmation, fetch the payments and shifts,
    lay out and save the report, then ask the backend to close every active
    shift. The PDF layout (fonts, coordinates) is not modelled: the report is
    the sequence of its lines. */
module DayClose {
  import opened Common
  import opened Shifts
  import opened Timestamps
  import opened Payments

  /** One line of the report. The date and time of generation come from the
      clock and are not modelled beyond their place in the document. */
  datatype ReportLine =
    | Title
    | GenerationDate
    | GenerationTime
    | SalesHeading
    | Sold(nombre: string, cantidad: int, importe: int)
    | Unitemised(importe: int)
    | NoSales
    | GrandTotal(total: int)
    | ShiftsHeading
    | ClosedShift(empleado: string, inicio: Shown, fin: Shown)
    | NoClosedShifts

  /** A payment carries a product breakdown: `p.productos && p.productos.length > 0`. */
  predicate Itemised(p: Pago)
  {
    p.productos.Some? && |p.productos.value| > 0
  }

  /** The lines one payment contributes: one per product, or one fallback line
      with the payment's total. */
  function PagoLines(p: Pago): (r: seq<ReportLine>)
    ensures |r| >= 1
    ensures Itemised(p) ==> |r| == |p.productos.value| && forall k :: 0 <= k < |r| ==>
      r[k] == Sold(p.productos.value[k].nombre, p.productos.value[k].cantidad,
                   p.productos.value[k].precio_unitario * p.productos.value[k].cantidad)
    ensures !Itemised(p) ==> r == [Unitemised(TotalOrZero(p))]
  {
    if Itemised(p) then
      var ps := p.productos.value;
      seq(|ps|, k requires 0 <= k < |ps| => Sold(ps[k].nombre, ps[k].cantidad, ps[k].precio_unitario * ps[k].cantidad))
    else [Unitemised(TotalOrZero(p))]
  }

  /** The lines of all payments, in payment order. */
  function SalesLines(pagos: seq<Pago>): (r: seq<ReportLine>)
    ensures |r| >= |pagos|
  {
    if pagos == [] then [] else SalesLines(pagos[..|pagos| - 1]) + PagoLines(pagos[|pagos| - 1])
  }

  /** One payment's section is exactly its own lines. */
  lemma SalesLinesSingle(p: Pago)
    ensures SalesLines([p]) == PagoLines(p)
  {
  }

  /** The lines of two runs of payments are the first run's lines followed by
      the second's: together with `SalesLinesSingle`, every payment's lines
      appear whole and in payment order. */
  lemma {:induction false} SalesLinesConcat(a: seq<Pago>, b: seq<Pago>)
    ensures SalesLines(a + b) == SalesLines(a) + SalesLines(b)
    decreases |b|
  {
    if b == [] {
      assert a + b == a;
    } else {
      var b' := b[..|b| - 1];
      assert (a + b)[..|a + b| - 1] == a + b';
      assert (a + b)[|a + b| - 1] == b[|b| - 1];
      SalesLinesConcat(a, b');
    }
  }

  /** The sales section: the payment lines, or the "no sales" line when there
      are no payments. */
  function SalesSection(pagos: seq<Pago>): seq<ReportLine>
  {
    SalesLines(pagos) + (if |pagos| == 0 then [NoSales] else [])
  }

  /** The line for one closed shift: the employee, or "Desconocido" when the
      name is null, missing or empty, and the open and close times of day. */
  function ShiftLine(t: Shift): (r: ReportLine)
    ensures r.ClosedShift? && r.empleado != ""
    ensures Truthy(t.usuario_responsable) ==> r.empleado == t.usuario_responsable.text
    ensures !Truthy(t.usuario_responsable) ==> r.empleado == "Desconocido"
    ensures r.inicio == FormatClock(t.hora_apertura) && r.fin == FormatClock(t.hora_cierre)
  {
    ClosedShift(TextOr(t.usuario_responsable, "Desconocido"), FormatClock(t.hora_apertura), FormatClock(t.hora_cierre))
  }

  /** The closed-shift section: one line per closed shift, in order, or the
      single "no closed shifts" line. */
  function ShiftSection(turnos: seq<Shift>): (r: seq<ReportLine>)
    ensures |ClosedShifts(turnos)| == 0 ==> r == [NoClosedShifts]
    ensures |ClosedShifts(turnos)| > 0 ==>
      |r| == |ClosedShifts(turnos)| && forall k :: 0 <= k < |r| ==> r[k] == ShiftLine(ClosedShifts(turnos)[k])
  {
    var closed := ClosedShifts(turnos);
    if |closed| > 0 then seq(|closed|, k requires 0 <= k < |closed| => ShiftLine(closed[k]))
    else [NoClosedShifts]
  }

  const Header: seq<ReportLine> := [Title, GenerationDate, GenerationTime, SalesHeading]

  /** Everything above the closed-shift list. */
  function SalesPart(pagos: seq<Pago>): seq<ReportLine>
  {
    Header + SalesSection(pagos) + [GrandTotal(SumTotals(pagos)), ShiftsHeading]
  }

  /** The whole report, top to bottom. */
  function Report(pagos: seq<Pago>, turnos: seq<Shift>): seq<ReportLine>
  {
    SalesPart(pagos) + ShiftSection(turnos)
  }

  /** The `forEach` over payments: appends each payment's lines and raises
      the `ventasDesglosadas` flag for every payment. */
  method WriteSales(pagos: seq<Pago>) returns (lines: seq<ReportLine>, ventasDesglosadas: bool)
    ensures lines == SalesLines(pagos)
    ensures ventasDesglosadas <==> |pagos| > 0
  {
    lines := [];
    ventasDesglosadas := false;
    var i := 0;
    while i < |pagos|
      invariant 0 <= i <= |pagos|
      invariant lines == SalesLines(pagos[..i])
      invariant ventasDesglosadas <==> i > 0
    {
      assert pagos[..i + 1][..i] == pagos[..i];
      lines := lines + PagoLines(pagos[i]);
      ventasDesglosadas := true;
      i := i + 1;
    }
    assert pagos[..i] == pagos;
  }

  /** The `forEach` over closed shifts, one line each. */
  method WriteShifts(turnosCerrados: seq<Shift>) returns (lines: seq<ReportLine>)
    ensures |lines| == |turnosCerrados|
    ensures forall k :: 0 <= k < |lines| ==> lines[k] == ShiftLine(turnosCerrados[k])
  {
    lines := [];
    var j := 0;
    while j < |turnosCerrados|
      invariant 0 <= j <= |turnosCerrados|
      invariant |lines| == j
      invariant forall k :: 0 <= k < j ==> lines[k] == ShiftLine(turnosCerrados[k])
    {
      lines := lines + [ShiftLine(turnosCerrados[j])];
      j := j + 1;
    }
  }

  /** The report as `generarInforme` writes it: the closed-shift filter, the
      `forEach` total, the payment lines, the "no sales" test on the
      `ventasDesglosadas` flag, and the closed-shift lines. */
  method WriteReport(pagos: seq<Pago>, turnos: seq<Shift>) returns (doc: seq<ReportLine>)
    ensures doc == Report(pagos, turnos)
  {
    var turnosCerrados := ClosedShifts(turnos);
    var totalGeneral := TotalGeneral(pagos);
    var sales, ventasDesglosadas := WriteSales(pagos);
    var noSales: seq<ReportLine> := [];
    if !ventasDesglosadas && |pagos| == 0 {
      noSales := [NoSales];
    }
    assert sales + noSales == SalesSection(pagos);
    doc := Header + (sales + noSales) + [GrandTotal(totalGeneral), ShiftsHeading];
    assert doc == SalesPart(pagos);
    if |turnosCerrados| > 0 {
      var shiftLines := WriteShifts(turnosCerrados);
      assert shiftLines == ShiftSection(turnos);
      doc := doc + shiftLines;
    } else {
      doc := doc + [NoClosedShifts];
    }
  }

  /** The "no sales" line appears exactly when there are no payments. */
  lemma NoSalesIff(pagos: seq<Pago>, turnos: seq<Shift>)
    ensures NoSales in Report(pagos, turnos) <==> |pagos| == 0
  {
    NoSalesAbsent(pagos);
    assert NoSales !in ShiftSection(turnos);
    assert NoSales in SalesSection(pagos) <==> |pagos| == 0;
    assert NoSales !in Header;
  }

  lemma {:induction false} NoSalesAbsent(pagos: seq<Pago>)
    ensures NoSales !in SalesLines(pagos)
  {
    if pagos != [] {
      NoSalesAbsent(pagos[..|pagos| - 1]);
    }
  }

  /** The "no closed shifts" line appears exactly when no shift has a truthy
      close time; otherwise the report has exactly one line per closed shift. */
  lemma NoClosedShiftsIff(pagos: seq<Pago>, turnos: seq<Shift>)
    ensures NoClosedShifts in Report(pagos, turnos) <==> forall t :: t in turnos ==> !Truthy(t.hora_cierre)
    ensures CountClosedLines(Report(pagos, turnos)) == |ClosedShifts(turnos)|
  {
    var head := SalesPart(pagos);
    NoShiftLinesInSalesPart(pagos);
    NoShiftLinesCount(head);
    CountClosedConcat(head, ShiftSection(turnos));
    assert NoClosedShifts !in head;
    var closed := ClosedShifts(turnos);
    if |closed| > 0 {
      AllClosedLines(ShiftSection(turnos));
      assert closed[0] in turnos && Truthy(closed[0].hora_cierre);
    } else {
      NoShiftLinesCount([NoClosedShifts]);
      forall t | t in turnos ensures !Truthy(t.hora_cierre) {
        assert Truthy(t.hora_cierre) ==> t in closed;
      }
    }
  }

  lemma NoShiftLinesInSalesPart(pagos: seq<Pago>)
    ensures forall k :: 0 <= k < |SalesPart(pagos)| ==>
      !SalesPart(pagos)[k].ClosedShift? && !SalesPart(pagos)[k].NoClosedShifts?
  {
    NoShiftLinesInSales(pagos);
    var part := SalesPart(pagos);
    var sales := SalesLines(pagos);
    var extra: seq<ReportLine> := if |pagos| == 0 then [NoSales] else [];
    assert part == Header + sales + extra + [GrandTotal(SumTotals(pagos)), ShiftsHeading];
    forall k | 0 <= k < |part| ensures !part[k].ClosedShift? && !part[k].NoClosedShifts? {
      if k < 4 {
      } else if k < 4 + |sales| {
        assert part[k] == sales[k - 4];
      } else if k < 4 + |sales| + |extra| {
      } else {
      }
    }
  }

  function CountClosedLines(lines: seq<ReportLine>): nat
  {
    if lines == [] then 0 else (if lines[0].ClosedShift? then 1 else 0) + CountClosedLines(lines[1..])
  }

  lemma {:induction false} CountClosedConcat(a: seq<ReportLine>, b: seq<ReportLine>)
    ensures CountClosedLines(a + b) == CountClosedLines(a) + CountClosedLines(b)
  {
    if a == [] {
      assert a + b == b;
    } else {
      assert (a + b)[1..] == a[1..] + b;
      CountClosedConcat(a[1..], b);
    }
  }

  lemma {:induction false} NoShiftLinesCount(lines: seq<ReportLine>)
    requires forall k :: 0 <= k < |lines| ==> !lines[k].ClosedShift?
    ensures CountClosedLines(lines) == 0
  {
    if lines != [] {
      NoShiftLinesCount(lines[1..]);
    }
  }

  lemma {:induction false} AllClosedLines(lines: seq<ReportLine>)
    requires forall k :: 0 <= k < |lines| ==> lines[k].ClosedShift?
    ensures CountClosedLines(lines) == |lines|
    ensures NoClosedShifts !in lines
  {
    if lines != [] {
      AllClosedLines(lines[1..]);
    }
  }

  lemma {:induction false} NoShiftLinesInSales(pagos: seq<Pago>)
    ensures forall k :: 0 <= k < |SalesLines(pagos)| ==>
      !SalesLines(pagos)[k].ClosedShift? && !SalesLines(pagos)[k].NoClosedShifts?
  {
    if pagos != [] {
      NoShiftLinesInSales(pagos[..|pagos| - 1]);
    }
  }

  /** The body of a failed request as seen by the catch block: the response, if
      any, with its `detail` and its data as `JSON.stringify` prints it, the
      error's `message`, and the error itself as `JSON.stringify` prints it. */
  datatype ErrorResponse = ErrorResponse(detail: Option<string>, dataJson: string)
  datatype Failure = Failure(response: Option<ErrorResponse>, message: Option<string>, errorJson: string)

  /** The text of a generation error: with a response, its detail, else its
      data as JSON; without one, the error's message, else the error as JSON. */
  function ErrorText(e: Failure): (r: string)
    ensures e.response.Some? && e.response.value.detail.Some? && e.response.value.detail.value != "" ==>
      r == e.response.value.detail.value
    ensures e.response.Some? && (e.response.value.detail.None? || e.response.value.detail.value == "") ==>
      r == e.response.value.dataJson
    ensures e.response.None? && e.message.Some? && e.message.value != "" ==> r == e.message.value
    ensures e.response.None? && (e.message.None? || e.message.value == "") ==> r == e.errorJson
  {
    match e.response
    case Some(resp) => OrElse(resp.detail, resp.dataJson)
    case None => OrElse(e.message, e.errorJson)
  }

  datatype ToastType = SuccessToast | ErrorToast

  /** The view's state: `cargando`, `showConfirm` and the toast. */
  datatype DayPage = DayPage(cargando: bool, showConfirm: bool, toastMessage: Option<string>, toastType: ToastType)

  const InitialDay := DayPage(false, false, None, SuccessToast)

  /** What the two concurrent fetches produced: both lists, or the first failure. */
  datatype Fetch = Fetched(pagos: seq<Pago>, turnos: seq<Shift>) | FetchFailed(error: Failure)

  /** Side effects in the order they happen. */
  datatype Effect = SavePdf(doc: seq<ReportLine>) | CloseAllShifts

  /** The toast when the report was saved but closing the shifts failed:
      a warning sign, then the explanation. */
  const CleanupWarning := "⚠️" + " Informe generado, pero hubo un error al cerrar los turnos. Revisa que el endpoint /api/turnos/cerrar_todos esté en tu backend."
  const CleanupDefault := "Turnos cerrados para iniciar un nuevo día."

  /** `handleCerrarDiaClick`: clears the toast and shows the modal; ignored
      while the report is being generated, since the button is disabled. */
  function Click(s: DayPage): (r: DayPage)
    ensures s.cargando ==> r == s
    ensures !s.cargando ==> r == s.(toastMessage := None, showConfirm := true)
  {
    if s.cargando then s else s.(toastMessage := None, showConfirm := true)
  }

  /** The modal's cancel button: only hides the modal. */
  function CancelConfirm(s: DayPage): (r: DayPage)
    ensures r == s.(showConfirm := false)
  {
    s.(showConfirm := false)
  }

  /** The modal's accept button, the synchronous start of `generarInforme`:
      hides the modal and sets loading. Without a modal there is no button. */
  function Accept(s: DayPage): (r: DayPage)
    ensures s.showConfirm ==> r == s.(showConfirm := false, cargando := true)
    ensures !s.showConfirm ==> r == s
  {
    if s.showConfirm then s.(showConfirm := false, cargando := true) else s
  }

  /** The rest of `generarInforme` once the requests settle. A fetch failure
      shows the generation error and does nothing else. Otherwise the report is
      saved, and only then is the close-all request sent; its failure gives the
      cleanup warning. Loading is reset in every case. */
  function Finish(s: DayPage, fetch: Fetch, cleanup: Response<Option<string>>): (r: (DayPage, seq<Effect>))
    ensures !r.0.cargando && r.0.showConfirm == s.showConfirm
    ensures fetch.FetchFailed? ==>
      r.1 == [] && r.0.toastMessage == Some("Error al generar el informe: " + ErrorText(fetch.error))
      && r.0.toastType == ErrorToast
    ensures fetch.Fetched? ==> r.1 == [SavePdf(Report(fetch.pagos, fetch.turnos)), CloseAllShifts]
    ensures fetch.Fetched? && cleanup.Err? ==> r.0.toastMessage == Some(CleanupWarning) && r.0.toastType == ErrorToast
    ensures fetch.Fetched? && cleanup.Ok? ==>
      r.0.toastMessage == Some("✅ Informe generado correctamente. " + OrElse(cleanup.data, CleanupDefault))
      && r.0.toastType == SuccessToast
  {
    match fetch
    case FetchFailed(e) =>
      (s.(cargando := false, toastMessage := Some("Error al generar el informe: " + ErrorText(e)), toastType := ErrorToast), [])
    case Fetched(pagos, turnos) =>
      var effects := [SavePdf(Report(pagos, turnos)), CloseAllShifts];
      match cleanup
      case Ok(message) =>
        (s.(cargando := false, toastMessage := Some("✅ Informe generado correctamente. " + OrElse(message, CleanupDefault)),
            toastType := SuccessToast), effects)
      case Err(_) =>
        (s.(cargando := false, toastMessage := Some(CleanupWarning), toastType := ErrorToast), effects)
  }

  /** The close-all request is only ever sent after a saved report, and it is
      sent exactly when the fetches succeeded. */
  lemma CleanupOnlyAfterSave(s: DayPage, fetch: Fetch, cleanup: Response<Option<string>>)
    ensures var effects := Finish(s, fetch, cleanup).1;
      (forall k :: 0 <= k < |effects| && effects[k] == CloseAllShifts ==>
         exists j :: 0 <= j < k && effects[j].SavePdf?)
      && (CloseAllShifts in effects <==> fetch.Fetched?)
  {
    var effects := Finish(s, fetch, cleanup).1;
    if fetch.Fetched? {
      assert effects[1] == CloseAllShifts && effects[0].SavePdf?;
    }
  }

  /** A cleanup failure is told apart from a generation failure: the two
      messages never coincide, whatever the error. */
  lemma CleanupWarningDistinct(e: Failure)
    ensures CleanupWarning != "Error al generar el informe: " + ErrorText(e)
  {
    assert ("Error al generar el informe: " + ErrorText(e))[0] == 'E';
  }

  /** The phases of the flow. */
  datatype Phase = Idle | ConfirmPending | Generating

  function PhaseOf(s: DayPage): Phase
  {
    if s.cargando then Generating else if s.showConfirm then ConfirmPending else Idle
  }

  /** The modal is never shown while generating. */
  predicate Consistent(s: DayPage)
  {
    !(s.cargando && s.showConfirm)
  }

  /** A user action or a settled request. */
  datatype DayEvent = PressButton | PressCancel | PressAccept | Settle(fetch: Fetch, cleanup: Response<Option<string>>) | DismissToast

  function Step(s: DayPage, e: DayEvent): DayPage
  {
    match e
    case PressButton => Click(s)
    case PressCancel => CancelConfirm(s)
    case PressAccept => Accept(s)
    case Settle(f, c) => if s.cargando then Finish(s, f, c).0 else s
    case DismissToast => s.(toastMessage := None)
  }

  /** The allowed moves: Idle to ConfirmPending, back to Idle on cancel, on to
      Generating on accept, and back to Idle once the requests settle. */
  predicate Allowed(a: Phase, b: Phase)
  {
    a == b
    || (a == Idle && b == ConfirmPending)
    || (a == ConfirmPending && b == Idle)
    || (a == ConfirmPending && b == Generating)
    || (a == Generating && b == Idle)
  }

  /** Every step keeps the state consistent and moves along the machine. */
  lemma StepFollowsMachine(s: DayPage, e: DayEvent)
    requires Consistent(s)
    ensures Consistent(Step(s, e))
    ensures Allowed(PhaseOf(s), PhaseOf(Step(s, e)))
  {
  }

  /** Generation starts only from the confirmation modal. */
  lemma GeneratingNeedsConfirm(s: DayPage, e: DayEvent)
    requires Consistent(s)
    requires PhaseOf(s) != Generating && PhaseOf(Step(s, e)) == Generating
    ensures PhaseOf(s) == ConfirmPending && e == PressAccept
  {
  }

  /** With no payments the report carries the "no sales" line and a zero
      total, and the close-all request is still sent. */
  lemma EmptyDayScenario(turnos: seq<Shift>, cleanup: Response<Option<string>>)
    ensures NoSales in Report([], turnos) && GrandTotal(0) in Report([], turnos)
    ensures CloseAllShifts in Finish(Accept(Click(InitialDay)), Fetched([], turnos), cleanup).1
  {
    EmptyDayReport(turnos);
    EmptyDayCleanup(turnos, cleanup);
  }

  lemma EmptyDayReport(turnos: seq<Shift>)
    ensures Report([], turnos)[4] == NoSales && Report([], turnos)[5] == GrandTotal(0)
  {
    EmptySalesPart();
  }

  lemma EmptyDayCleanup(turnos: seq<Shift>, cleanup: Response<Option<string>>)
    ensures Finish(Accept(Click(InitialDay)), Fetched([], turnos), cleanup).1[1] == CloseAllShifts
  {
  }

  lemma EmptySalesPart()
    ensures SalesPart([]) == [Title, GenerationDate, GenerationTime, SalesHeading, NoSales, GrandTotal(0), ShiftsHeading]
  {
    assert SalesSection([]) == [NoSales];
    assert SumTotals([]) == 0;
  }
}
