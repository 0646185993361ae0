/** The shift (turno) record as the backend sends it, and the three ways the
    views decide whether a shift is still open. */
module Shifts {
  import opened Common

  /** A shift: identifier, responsible employee, opening cash float, and open
      and close timestamps. The name and the timestamps are raw JSON values:
      `hora_cierre` is null while open, and nothing stops the name being null. */
  datatype Shift = Shift(
    id_turno: int,
    usuario_responsable: JsText,
    fondo_inicial: int,
    hora_apertura: JsText,
    hora_cierre: JsText)

  /** Close-shift view: a shift is open when `hora_cierre === null`. */
  predicate IsOpen(t: Shift)
  {
    t.hora_cierre == Null
  }

  /** Active-shift view: a shift is active when `!hora_cierre`. */
  predicate IsActive(t: Shift)
  {
    !Truthy(t.hora_cierre)
  }

  /** End-of-day report and shift history: a shift is closed when `hora_cierre` is truthy. */
  predicate IsClosed(t: Shift)
  {
    Truthy(t.hora_cierre)
  }

  /** The open list of the close-shift view. */
  function OpenShifts(ts: seq<Shift>): (r: seq<Shift>)
    ensures forall t :: t in r <==> t in ts && t.hora_cierre == Null
    ensures Subsequence(r, ts)
    ensures forall t :: multiset(r)[t] == if t.hora_cierre == Null then multiset(ts)[t] else 0
  {
    FilterCount(ts, IsOpen);
    Filter(ts, IsOpen)
  }

  /** The active list of the admin view. */
  function ActiveShifts(ts: seq<Shift>): (r: seq<Shift>)
    ensures forall t :: t in r <==> t in ts && !Truthy(t.hora_cierre)
    ensures Subsequence(r, ts)
    ensures forall t :: multiset(r)[t] == if Truthy(t.hora_cierre) then 0 else multiset(ts)[t]
  {
    FilterCount(ts, IsActive);
    Filter(ts, IsActive)
  }

  /** The closed shifts listed in the end-of-day report. */
  function ClosedShifts(ts: seq<Shift>): (r: seq<Shift>)
    ensures forall t :: t in r <==> t in ts && Truthy(t.hora_cierre)
    ensures Subsequence(r, ts)
    ensures forall t :: multiset(r)[t] == if Truthy(t.hora_cierre) then multiset(ts)[t] else 0
  {
    FilterCount(ts, IsClosed);
    Filter(ts, IsClosed)
  }

  /** Every shift is either active or closed, never both: the two lists
      together are a rearrangement of the whole list. */
  lemma {:induction false} ActiveClosedPartition(ts: seq<Shift>)
    ensures multiset(ActiveShifts(ts)) + multiset(ClosedShifts(ts)) == multiset(ts)
    ensures |ActiveShifts(ts)| + |ClosedShifts(ts)| == |ts|
  {
    if ts != [] {
      ActiveClosedPartition(ts[1..]);
      assert ts == [ts[0]] + ts[1..];
    }
  }

  /** Every shift of the strict open list is also active. */
  lemma OpenAreActive(ts: seq<Shift>)
    ensures forall t :: t in OpenShifts(ts) ==> t in ActiveShifts(ts)
  {
  }

  /** The two open-shift tests differ only on a close time that is missing
      (undefined) or the empty string: the two lists coincide exactly when no
      shift has such a close time. */
  lemma OpenAndActiveAgreeIff(ts: seq<Shift>)
    ensures OpenShifts(ts) == ActiveShifts(ts)
        <==> forall i :: 0 <= i < |ts| ==> ts[i].hora_cierre != Undefined && ts[i].hora_cierre != Str("")
  {
    if forall i :: 0 <= i < |ts| ==> ts[i].hora_cierre != Undefined && ts[i].hora_cierre != Str("") {
      FilterCongruent(ts, IsOpen, IsActive);
    } else {
      var i :| 0 <= i < |ts| && (ts[i].hora_cierre == Undefined || ts[i].hora_cierre == Str(""));
      assert ts[i] in ActiveShifts(ts);
      assert ts[i] !in OpenShifts(ts);
    }
  }
}
