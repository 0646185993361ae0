/** The close-shift view: lists the open shifts and closes one after the
    user confirms it in the modal. */
module CloseShift {
  import opened Common
  import opened Shifts
  import opened ConfirmModal

  /** The body of `POST /api/turnos/close`. */
  datatype CloseRequest = CloseRequest(id_turno: int, usuario_cierre: JsText)

  /** The mount fetch: on success the list becomes the server's shifts whose
      `hora_cierre` is null, in server order; a failure is only logged. */
  function Loaded(page: Page, outcome: Response<seq<Shift>>): (r: Page)
    ensures outcome.Ok? ==> forall t :: t in r.turnos <==> t in outcome.data && t.hora_cierre == Null
    ensures outcome.Ok? ==> Subsequence(r.turnos, outcome.data)
    ensures outcome.Ok? ==>
      forall t :: multiset(r.turnos)[t] == if t.hora_cierre == Null then multiset(outcome.data)[t] else 0
    ensures outcome.Err? ==> r == page
    ensures r.modalConfirm == page.modalConfirm && r.notification == page.notification
  {
    match outcome
    case Ok(data) => page.(turnos := OpenShifts(data))
    case Err(_) => page
  }

  /** `executeClose`: nothing without a pending shift; otherwise the modal is
      cleared first and the close request names the pending shift and user. */
  function ExecuteClose(page: Page): (r: (Page, Option<CloseRequest>))
    ensures page.modalConfirm.None? ==> r.0 == page && r.1.None?
    ensures page.modalConfirm.Some? ==>
      (&& r.0 == page.(modalConfirm := None)
       && r.1 == Some(CloseRequest(page.modalConfirm.value.id_turno, page.modalConfirm.value.usuario)))
  {
    var (cleared, pending) := TakePending(page);
    match pending
    case None => (cleared, None)
    case Some(p) => (cleared, Some(CloseRequest(p.id_turno, p.usuario)))
  }

  const CloseFallback := "Error al cerrar el turno."

  /** The close request settles: on success the toast names the user and the
      shift's row is dropped from the current list; on failure the toast shows
      the backend detail, or the fallback text, and the list is untouched. */
  function CloseSettled(page: Page, req: CloseRequest, outcome: Response<()>): (r: Page)
    ensures r.modalConfirm == page.modalConfirm
    ensures outcome.Ok? ==>
      (&& (forall t :: t in r.turnos <==> t in page.turnos && t.id_turno != req.id_turno)
       && Subsequence(r.turnos, page.turnos)
       && (forall t :: multiset(r.turnos)[t] == if t.id_turno != req.id_turno then multiset(page.turnos)[t] else 0)
       && r.notification == Some(Notification(Success, "✅ Turno de " + Interpolated(req.usuario_cierre) + " cerrado correctamente.")))
    ensures outcome.Err? ==>
      (&& r.turnos == page.turnos
       && r.notification == Some(Notification(Error, "❌ " + OrElse(outcome.detail, CloseFallback))))
  {
    match outcome
    case Ok(_) =>
      page.(turnos := RemoveShift(page.turnos, req.id_turno),
            notification := Some(Notification(Success, "✅ Turno de " + Interpolated(req.usuario_cierre) + " cerrado correctamente.")))
    case Err(detail) =>
      page.(notification := Some(Notification(Error, "❌ " + OrElse(detail, CloseFallback))))
  }

  /** The failure text is the backend detail when there is a non-empty one and
      the fallback text otherwise. */
  lemma CloseErrorText(page: Page, req: CloseRequest, detail: Option<string>)
    ensures var m := CloseSettled(page, req, Err(detail)).notification.value.message;
      (detail.Some? && detail.value != "" ==> m == "❌ " + detail.value)
      && (detail.None? || detail.value == "" ==> m == "❌ Error al cerrar el turno.")
  {
  }

  /** Choosing a row and confirming closes exactly that shift: with distinct
      identifiers a successful close drops exactly its row and keeps the
      remaining order; a failed one leaves the list as it was. */
  lemma ChooseConfirmClose(page: Page, i: int, outcome: Response<()>)
    requires UniqueShiftIds(page.turnos) && 0 <= i < |page.turnos|
    ensures var t := page.turnos[i];
      var (p1, req) := ExecuteClose(Choose(page, t.id_turno, t.usuario_responsable));
      && req == Some(CloseRequest(t.id_turno, t.usuario_responsable))
      && p1.modalConfirm.None?
      && var p2 := CloseSettled(p1, req.value, outcome);
         (outcome.Ok? ==> p2.turnos == page.turnos[..i] + page.turnos[i + 1..])
         && (outcome.Err? ==> p2.turnos == page.turnos)
  {
    RemoveShiftExact(page.turnos, page.turnos[i].id_turno);
  }
}
