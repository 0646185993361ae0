/** The active-shift admin view: lists the shifts without a close time and
    permanently deletes one after the user confirms it in the modal. */
module DeleteShift {
  import opened Common
  import opened Shifts
  import opened ConfirmModal

  /** `fetchTurnos`: on success the list becomes the server's shifts with a
      falsy `hora_cierre`, in server order; on failure an error toast is shown
      and the list is kept. */
  function Loaded(page: Page, outcome: Response<seq<Shift>>): (r: Page)
    ensures outcome.Ok? ==> forall t :: t in r.turnos <==> t in outcome.data && !Truthy(t.hora_cierre)
    ensures outcome.Ok? ==> Subsequence(r.turnos, outcome.data) && r.notification == page.notification
    ensures outcome.Ok? ==>
      forall t :: multiset(r.turnos)[t] == if Truthy(t.hora_cierre) then 0 else multiset(outcome.data)[t]
    ensures outcome.Err? ==>
      r == page.(notification := Some(Notification(Error, "Error al cargar la lista de turnos.")))
    ensures r.modalConfirm == page.modalConfirm
  {
    match outcome
    case Ok(data) => page.(turnos := ActiveShifts(data))
    case Err(_) => page.(notification := Some(Notification(Error, "Error al cargar la lista de turnos.")))
  }

  /** `executeDelete`: nothing without a pending shift; otherwise the modal is
      cleared first and `DELETE /api/turnos/{id}` is issued for the pending
      shift, whose user is kept for the toast. */
  function ExecuteDelete(page: Page): (r: (Page, Option<Pending>))
    ensures page.modalConfirm.None? ==> r.0 == page && r.1.None?
    ensures page.modalConfirm.Some? ==> r.0 == page.(modalConfirm := None) && r.1 == page.modalConfirm
  {
    TakePending(page)
  }

  const DeleteFallback := "Error de conexión"

  /** The delete request settles: on success the toast names the shift and
      user and the row with that id is dropped from the current list; on
      failure the toast carries the backend detail, or "Error de conexión",
      and the list is untouched. */
  function DeleteSettled(page: Page, target: Pending, outcome: Response<()>): (r: Page)
    ensures r.modalConfirm == page.modalConfirm
    ensures outcome.Ok? ==>
      (&& (forall t :: t in r.turnos <==> t in page.turnos && t.id_turno != target.id_turno)
       && Subsequence(r.turnos, page.turnos)
       && (forall t :: multiset(r.turnos)[t] == if t.id_turno != target.id_turno then multiset(page.turnos)[t] else 0)
       && r.notification == Some(Notification(Success,
            "🗑️ Turno #" + IntToString(target.id_turno) + " de " + Interpolated(target.usuario) + " eliminado correctamente.")))
    ensures outcome.Err? ==>
      (&& r.turnos == page.turnos
       && r.notification == Some(Notification(Error, "❌ Error al eliminar turno: " + OrElse(outcome.detail, DeleteFallback))))
  {
    match outcome
    case Ok(_) =>
      page.(turnos := RemoveShift(page.turnos, target.id_turno),
            notification := Some(Notification(Success,
              "🗑️ Turno #" + IntToString(target.id_turno) + " de " + Interpolated(target.usuario) + " eliminado correctamente.")))
    case Err(detail) =>
      page.(notification := Some(Notification(Error, "❌ Error al eliminar turno: " + OrElse(detail, DeleteFallback))))
  }

  /** Cancelling the modal issues no request: a confirm after a cancel acts on nothing. */
  lemma CancelThenConfirmIsInert(page: Page)
    ensures ExecuteDelete(Cancel(page)).1.None?
    ensures ExecuteDelete(Cancel(page)).0 == page.(modalConfirm := None)
  {
  }

  /** With distinct identifiers a successful delete of a listed shift removes
      exactly that shift and keeps the rest in order; a failed one changes no row. */
  lemma DeleteRemovesExactlyOne(page: Page, i: int, u: JsText, outcome: Response<()>)
    requires UniqueShiftIds(page.turnos) && 0 <= i < |page.turnos|
    ensures var r := DeleteSettled(page, Pending(page.turnos[i].id_turno, u), outcome);
      (outcome.Ok? ==> r.turnos == page.turnos[..i] + page.turnos[i + 1..])
      && (outcome.Err? ==> r.turnos == page.turnos)
  {
    RemoveShiftExact(page.turnos, page.turnos[i].id_turno);
  }
}
