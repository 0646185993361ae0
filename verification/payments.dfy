/** Payments (sales) as the backend lists them, and the two ways the admin
    views add up their totals. */
module Payments {
  import opened Common

  /** One product line of a payment. */
  datatype ProductSold = ProductSold(nombre: string, cantidad: int, precio_unitario: int)

  /** A payment: its total, payment method and product breakdown, each of
      which may be missing. */
  datatype Pago = Pago(total: Option<int>, metodo_pago: Option<string>, productos: Option<seq<ProductSold>>)

  /** `p.total || 0`: a missing total counts as 0. */
  function TotalOrZero(p: Pago): int
  {
    match p.total
    case Some(v) => v
    case None => 0
  }

  /** The sum of the payment totals, a missing total counting as 0. */
  function SumTotals(pagos: seq<Pago>): int
  {
    if pagos == [] then 0 else SumTotals(pagos[..|pagos| - 1]) + TotalOrZero(pagos[|pagos| - 1])
  }

  lemma {:induction false} SumTotalsConcat(a: seq<Pago>, b: seq<Pago>)
    ensures SumTotals(a + b) == SumTotals(a) + SumTotals(b)
    decreases |b|
  {
    if b == [] {
      assert a + b == a;
    } else {
      assert (a + b)[..|a + b| - 1] == a + b[..|b| - 1];
      SumTotalsConcat(a, b[..|b| - 1]);
    }
  }

  /** Payments whose totals are all missing add up to 0, and payments with
      non-negative totals add up to at least any one of them. */
  lemma {:induction false} SumTotalsBounds(pagos: seq<Pago>)
    ensures (forall i :: 0 <= i < |pagos| ==> pagos[i].total.None?) ==> SumTotals(pagos) == 0
    ensures (forall i :: 0 <= i < |pagos| ==> TotalOrZero(pagos[i]) >= 0) ==>
      forall i :: 0 <= i < |pagos| ==> SumTotals(pagos) >= TotalOrZero(pagos[i])
  {
    if pagos != [] {
      SumTotalsBounds(pagos[..|pagos| - 1]);
      if forall i :: 0 <= i < |pagos| ==> TotalOrZero(pagos[i]) >= 0 {
        SumNonNegative(pagos[..|pagos| - 1]);
      }
    }
  }

  lemma {:induction false} SumNonNegative(pagos: seq<Pago>)
    requires forall i :: 0 <= i < |pagos| ==> TotalOrZero(pagos[i]) >= 0
    ensures SumTotals(pagos) >= 0
  {
    if pagos != [] {
      SumNonNegative(pagos[..|pagos| - 1]);
    }
  }

  /** The end-of-day report's `forEach` accumulation into `totalGeneral`. */
  method TotalGeneral(pagos: seq<Pago>) returns (totalGeneral: int)
    ensures totalGeneral == SumTotals(pagos)
  {
    totalGeneral := 0;
    var i := 0;
    while i < |pagos|
      invariant 0 <= i <= |pagos|
      invariant totalGeneral == SumTotals(pagos[..i])
    {
      assert pagos[..i + 1][..i] == pagos[..i];
      totalGeneral := totalGeneral + TotalOrZero(pagos[i]);
      i := i + 1;
    }
    assert pagos[..i] == pagos;
  }

  /** The summary view's `reduce((acc, p) => acc + (p.total || 0), acc)`. */
  function ReduceTotals(acc: int, pagos: seq<Pago>): int
    decreases |pagos|
  {
    if pagos == [] then acc else ReduceTotals(acc + TotalOrZero(pagos[0]), pagos[1..])
  }

  /** The left fold from `acc` is `acc` plus the sum of the totals, so the
      summary view and the end-of-day report show the same grand total. */
  lemma {:induction false} ReduceIsSum(acc: int, pagos: seq<Pago>)
    ensures ReduceTotals(acc, pagos) == acc + SumTotals(pagos)
    decreases |pagos|
  {
    if pagos != [] {
      ReduceIsSum(acc + TotalOrZero(pagos[0]), pagos[1..]);
      SumTotalsConcat([pagos[0]], pagos[1..]);
      assert [pagos[0]] + pagos[1..] == pagos;
      assert SumTotals([pagos[0]]) == TotalOrZero(pagos[0]) by {
        assert [pagos[0]][..0] == [];
      }
    }
  }
}
