/** The confirm-gated flow shared by the close-shift and active-shift views:
    choosing a shift only records it as pending; the request is issued from the
    modal's confirm button; the row is dropped locally once the request succeeds. */
module ConfirmModal {
  import opened Common
  import opened Shifts

  /** The shift awaiting confirmation: `{ id_turno, usuario }`. */
  datatype Pending = Pending(id_turno: int, usuario: JsText)

  datatype Kind = Success | Error

  /** The floating notification (toast) of the view. */
  datatype Notification = Notification(kind: Kind, message: string)

  /** A view's state: the listed shifts, the modal's pending shift, the toast. */
  datatype Page = Page(turnos: seq<Shift>, modalConfirm: Option<Pending>, notification: Option<Notification>)

  const InitialPage := Page([], None, None)

  /** The row button: records the shift as pending and does nothing else. */
  function Choose(page: Page, id_turno: int, usuario: JsText): (r: Page)
    ensures r.modalConfirm == Some(Pending(id_turno, usuario))
    ensures r.turnos == page.turnos && r.notification == page.notification
  {
    page.(modalConfirm := Some(Pending(id_turno, usuario)))
  }

  /** The modal's cancel button: clears the pending shift and does nothing else. */
  function Cancel(page: Page): (r: Page)
    ensures r.modalConfirm.None?
    ensures r.turnos == page.turnos && r.notification == page.notification
  {
    page.(modalConfirm := None)
  }

  /** The first half of the confirm button: with no pending shift it returns
      nothing and leaves the page alone; otherwise it clears the modal and hands
      back the shift to act on. */
  function TakePending(page: Page): (r: (Page, Option<Pending>))
    ensures r.1 == page.modalConfirm
    ensures r.0.modalConfirm.None?
    ensures r.0.turnos == page.turnos && r.0.notification == page.notification
    ensures page.modalConfirm.None? ==> r.0 == page
  {
    (page.(modalConfirm := None), page.modalConfirm)
  }

  /** `prev.filter(t => t.id_turno !== id_turno)`. */
  function RemoveShift(turnos: seq<Shift>, id_turno: int): (r: seq<Shift>)
    ensures forall t :: t in r <==> t in turnos && t.id_turno != id_turno
    ensures Subsequence(r, turnos)
    ensures forall t :: multiset(r)[t] == if t.id_turno != id_turno then multiset(turnos)[t] else 0
  {
    var keep := (t: Shift) => t.id_turno != id_turno;
    FilterCount(turnos, keep);
    Filter(turnos, keep)
  }

  /** Shift identifiers are distinct. */
  predicate UniqueShiftIds(turnos: seq<Shift>)
  {
    forall i, j :: 0 <= i < j < |turnos| ==> turnos[i].id_turno != turnos[j].id_turno
  }

  /** With distinct identifiers, removing a listed id drops exactly that row and
      keeps the others in order; removing an unlisted id changes nothing. */
  lemma RemoveShiftExact(turnos: seq<Shift>, id_turno: int)
    requires UniqueShiftIds(turnos)
    ensures forall i :: 0 <= i < |turnos| && turnos[i].id_turno == id_turno ==>
      RemoveShift(turnos, id_turno) == turnos[..i] + turnos[i + 1..]
    ensures (forall i :: 0 <= i < |turnos| ==> turnos[i].id_turno != id_turno) ==>
      RemoveShift(turnos, id_turno) == turnos
  {
    var keep := (t: Shift) => t.id_turno != id_turno;
    forall i | 0 <= i < |turnos| && turnos[i].id_turno == id_turno
      ensures RemoveShift(turnos, id_turno) == turnos[..i] + turnos[i + 1..]
    {
      FilterDropsOne(turnos, keep, i);
    }
    if forall i :: 0 <= i < |turnos| ==> turnos[i].id_turno != id_turno {
      FilterKeepsAll(turnos, keep);
    }
  }

  /** A user action on the row buttons and the modal. */
  datatype ModalEvent = ChooseRow(id_turno: int, usuario: JsText) | CancelModal | ConfirmModal

  /** The pending shift after the action. */
  function Next(pending: Option<Pending>, e: ModalEvent): Option<Pending>
  {
    match e
    case ChooseRow(id, u) => Some(Pending(id, u))
    case CancelModal => None
    case ConfirmModal => None
  }

  /** The shifts acted upon, in order, over a run of actions: one for every
      confirm that found a pending shift. */
  function Confirmed(pending: Option<Pending>, events: seq<ModalEvent>): seq<Pending>
    decreases |events|
  {
    if events == [] then []
    else
      var acted := if events[0].ConfirmModal? && pending.Some? then [pending.value] else [];
      acted + Confirmed(Next(pending, events[0]), events[1..])
  }

  function CountChoices(events: seq<ModalEvent>): nat
  {
    if events == [] then 0 else (if events[0].ChooseRow? then 1 else 0) + CountChoices(events[1..])
  }

  /** No request is ever issued without the confirm button: a run of actions
      with no confirm acts on nothing. */
  lemma {:induction false} NoConfirmNoRequest(pending: Option<Pending>, events: seq<ModalEvent>)
    requires forall k :: 0 <= k < |events| ==> !events[k].ConfirmModal?
    ensures Confirmed(pending, events) == []
    decreases |events|
  {
    if events != [] {
      NoConfirmNoRequest(Next(pending, events[0]), events[1..]);
    }
  }

  /** Starting with no pending shift, every shift acted upon was chosen on its
      row by an earlier action, and each choice is acted upon at most once. */
  lemma {:induction false} ConfirmedWereChosen(pending: Option<Pending>, events: seq<ModalEvent>)
    requires pending.None?
    ensures forall p :: p in Confirmed(pending, events) ==>
      exists k :: 0 <= k < |events| && events[k] == ChooseRow(p.id_turno, p.usuario)
    ensures |Confirmed(pending, events)| <= CountChoices(events)
    decreases |events|
  {
    if events != [] {
      var e := events[0];
      match e {
        case ChooseRow(id, u) =>
          ConfirmedAfterChoice(Pending(id, u), events[1..]);
          forall p | p in Confirmed(pending, events)
            ensures exists k :: 0 <= k < |events| && events[k] == ChooseRow(p.id_turno, p.usuario)
          {
            if p == Pending(id, u) {
              assert events[0] == ChooseRow(p.id_turno, p.usuario);
            } else {
              var k :| 0 <= k < |events[1..]| && events[1..][k] == ChooseRow(p.id_turno, p.usuario);
              assert events[k + 1] == events[1..][k];
            }
          }
        case CancelModal =>
          ConfirmedWereChosen(None, events[1..]);
          ShiftWitness(events);
        case ConfirmModal =>
          ConfirmedWereChosen(None, events[1..]);
          ShiftWitness(events);
      }
    }
  }

  /** The same statement when the run starts with a pending shift `q`: `q` is
      the one shift that may be acted upon without a choice in the run. */
  lemma {:induction false} ConfirmedAfterChoice(q: Pending, events: seq<ModalEvent>)
    ensures forall p :: p in Confirmed(Some(q), events) ==>
      p == q || exists k :: 0 <= k < |events| && events[k] == ChooseRow(p.id_turno, p.usuario)
    ensures |Confirmed(Some(q), events)| <= CountChoices(events) + 1
    decreases |events|
  {
    if events != [] {
      var e := events[0];
      match e {
        case ChooseRow(id, u) =>
          ConfirmedAfterChoice(Pending(id, u), events[1..]);
          forall p | p in Confirmed(Some(q), events)
            ensures p == q || exists k :: 0 <= k < |events| && events[k] == ChooseRow(p.id_turno, p.usuario)
          {
            if p == Pending(id, u) {
              assert events[0] == ChooseRow(p.id_turno, p.usuario);
            } else {
              var k :| 0 <= k < |events[1..]| && events[1..][k] == ChooseRow(p.id_turno, p.usuario);
              assert events[k + 1] == events[1..][k];
            }
          }
        case CancelModal =>
          ConfirmedWereChosen(None, events[1..]);
          ShiftWitness(events);
        case ConfirmModal =>
          ConfirmedWereChosen(None, events[1..]);
          ShiftWitness(events);
      }
    }
  }

  /** From an empty modal, every shift acted upon was chosen by the action just
      before the confirm that acted on it: nothing can come between the row
      button and the confirm without clearing the pending shift. */
  lemma {:induction false} ConfirmFollowsChoice(events: seq<ModalEvent>)
    ensures forall p :: p in Confirmed(None, events) ==>
      exists j :: 1 <= j < |events| && events[j] == ConfirmModal && events[j - 1] == ChooseRow(p.id_turno, p.usuario)
  {
    ConfirmFollowsChoiceFrom(None, events);
  }

  /** The same from any pending shift, which may be acted upon by a leading confirm. */
  lemma {:induction false} ConfirmFollowsChoiceFrom(pending: Option<Pending>, events: seq<ModalEvent>)
    ensures forall p :: p in Confirmed(pending, events) ==>
      (pending == Some(p) && |events| > 0 && events[0] == ConfirmModal)
      || exists j :: 1 <= j < |events| && events[j] == ConfirmModal && events[j - 1] == ChooseRow(p.id_turno, p.usuario)
    decreases |events|
  {
    if events != [] {
      var e, rest := events[0], events[1..];
      var next := Next(pending, e);
      ConfirmFollowsChoiceFrom(next, rest);
      forall p | p in Confirmed(pending, events)
        ensures (pending == Some(p) && |events| > 0 && events[0] == ConfirmModal)
          || exists j :: 1 <= j < |events| && events[j] == ConfirmModal && events[j - 1] == ChooseRow(p.id_turno, p.usuario)
      {
        var acted := if e.ConfirmModal? && pending.Some? then [pending.value] else [];
        assert Confirmed(pending, events) == acted + Confirmed(next, rest);
        if p !in acted {
          assert p in Confirmed(next, rest);
          if next == Some(p) && |rest| > 0 && rest[0] == ConfirmModal {
            assert e == ChooseRow(p.id_turno, p.usuario);
            assert events[1] == ConfirmModal;
          } else {
            var j :| 1 <= j < |rest| && rest[j] == ConfirmModal && rest[j - 1] == ChooseRow(p.id_turno, p.usuario);
            assert events[j + 1] == ConfirmModal && events[j] == ChooseRow(p.id_turno, p.usuario);
          }
        }
      }
    }
  }

  /** A choice found in the tail of a run is a choice of the whole run. */
  lemma ShiftWitness(events: seq<ModalEvent>)
    requires events != []
    ensures forall id, u :: (exists k :: 0 <= k < |events[1..]| && events[1..][k] == ChooseRow(id, u)) ==>
      exists k :: 0 <= k < |events| && events[k] == ChooseRow(id, u)
  {
    forall id, u | exists k :: 0 <= k < |events[1..]| && events[1..][k] == ChooseRow(id, u)
      ensures exists k :: 0 <= k < |events| && events[k] == ChooseRow(id, u)
    {
      var k :| 0 <= k < |events[1..]| && events[1..][k] == ChooseRow(id, u);
      assert events[k + 1] == ChooseRow(id, u);
    }
  }
}
