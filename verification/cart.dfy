/** The sales-entry view: a cart of product lines with a running total that is
    updated incrementally, and the submission of the cart as a sale. */
module Cart {
  import opened Common

  /** A catalogue product as the backend lists it. Prices are whole pesos. */
  datatype Product = Product(id: int, nombre: string, precio_venta: int)

  /** A cart line: the product's fields spread into it, plus a quantity. */
  datatype Line = Line(id: int, nombre: string, precio_venta: int, cantidad: int)

  /** The view's state: the lines (`carrito`) and the running `total`. */
  datatype CartState = CartState(carrito: seq<Line>, total: int)

  const EmptyCart := CartState([], 0)

  /** The line value of a line: unit price times quantity. */
  function Amount(l: Line): int
  {
    l.precio_venta * l.cantidad
  }

  /** The sum of the line amounts: what the running total is meant to equal. */
  function LinesTotal(lines: seq<Line>): int
  {
    if lines == [] then 0 else Amount(lines[0]) + LinesTotal(lines[1..])
  }

  predicate HasId(lines: seq<Line>, id: int)
  {
    exists i :: 0 <= i < |lines| && lines[i].id == id
  }

  /** No two lines share a product id. */
  predicate UniqueIds(lines: seq<Line>)
  {
    forall i, j :: 0 <= i < j < |lines| ==> lines[i].id != lines[j].id
  }

  /** Every line carries the catalogue price of its product id. */
  predicate PricedBy(lines: seq<Line>, prices: map<int, int>)
  {
    forall i :: 0 <= i < |lines| ==> lines[i].id in prices && lines[i].precio_venta == prices[lines[i].id]
  }

  /** A product as sold at the catalogue's fixed price for its id. */
  predicate ListedAt(p: Product, prices: map<int, int>)
  {
    p.id in prices && prices[p.id] == p.precio_venta
  }

  /** The cart invariant: one line per id, catalogue prices, and a running
      total equal to the sum of the line amounts. */
  predicate Valid(c: CartState, prices: map<int, int>)
  {
    UniqueIds(c.carrito) && PricedBy(c.carrito, prices) && c.total == LinesTotal(c.carrito)
  }

  /** `carrito.find(p => p.id === id)`: the first line with that id. */
  function Find(lines: seq<Line>, id: int): (r: Option<Line>)
    ensures r.None? <==> !HasId(lines, id)
    ensures r.Some? ==> (exists i :: 0 <= i < |lines| && lines[i] == r.value && r.value.id == id
                                     && forall k :: 0 <= k < i ==> lines[k].id != id)
  {
    if lines == [] then None
    else if lines[0].id == id then Some(lines[0])
    else
      var r := Find(lines[1..], id);
      assert r.Some? ==> (exists i :: 0 <= i < |lines| && lines[i] == r.value && r.value.id == id
                                      && forall k :: 0 <= k < i ==> lines[k].id != id) by {
        if r.Some? {
          var i :| 0 <= i < |lines[1..]| && lines[1..][i] == r.value && r.value.id == id
            && forall k :: 0 <= k < i ==> lines[1..][k].id != id;
          assert lines[i + 1] == r.value;
        }
      }
      r
  }

  /** The `map` that raises the quantity of every line with the given id by one. */
  function Increment(lines: seq<Line>, id: int): (r: seq<Line>)
    ensures |r| == |lines|
    ensures forall i :: 0 <= i < |lines| ==>
      if lines[i].id == id then r[i] == lines[i].(cantidad := lines[i].cantidad + 1) else r[i] == lines[i]
  {
    if lines == [] then []
    else
      var head := if lines[0].id == id then lines[0].(cantidad := lines[0].cantidad + 1) else lines[0];
      [head] + Increment(lines[1..], id)
  }

  /** The `filter` that drops every line with the given id. */
  function Without(lines: seq<Line>, id: int): (r: seq<Line>)
    ensures forall l :: l in r <==> l in lines && l.id != id
    ensures Subsequence(r, lines)
  {
    Filter(lines, (l: Line) => l.id != id)
  }

  /** `agregarAlCarrito`: a product already in the cart gets its quantity raised
      by one; a new product is appended as a line of quantity one. Either way
      the total rises by the product's price. */
  function AddToCart(c: CartState, p: Product): (r: CartState)
    ensures r.total == c.total + p.precio_venta
    ensures HasId(c.carrito, p.id) ==>
      (&& |r.carrito| == |c.carrito|
       && forall i :: 0 <= i < |c.carrito| ==>
            (c.carrito[i].id == p.id ==> r.carrito[i].cantidad == c.carrito[i].cantidad + 1
                                         && r.carrito[i] == c.carrito[i].(cantidad := r.carrito[i].cantidad))
            && (c.carrito[i].id != p.id ==> r.carrito[i] == c.carrito[i]))
    ensures !HasId(c.carrito, p.id) ==>
      (&& |r.carrito| == |c.carrito| + 1
       && r.carrito[..|c.carrito|] == c.carrito
       && r.carrito[|c.carrito|] == Line(p.id, p.nombre, p.precio_venta, 1))
  {
    var lines :=
      if Find(c.carrito, p.id).Some? then Increment(c.carrito, p.id)
      else c.carrito + [Line(p.id, p.nombre, p.precio_venta, 1)];
    CartState(lines, c.total + p.precio_venta)
  }

  /** `eliminarDelCarrito`: when a line with the id exists, every line with that
      id is dropped and the total falls by the first such line's amount;
      otherwise nothing changes. */
  function RemoveFromCart(c: CartState, id: int): (r: CartState)
    ensures !HasId(c.carrito, id) ==> r == c
    ensures HasId(c.carrito, id) ==>
      (&& !HasId(r.carrito, id)
       && (forall l :: l in c.carrito && l.id != id ==> l in r.carrito)
       && Subsequence(r.carrito, c.carrito)
       && exists i :: 0 <= i < |c.carrito| && c.carrito[i].id == id
            && (forall k :: 0 <= k < i ==> c.carrito[k].id != id)
            && r.total == c.total - Amount(c.carrito[i]))
  {
    match Find(c.carrito, id)
    case None => c
    case Some(item) =>
      var r := CartState(Without(c.carrito, id), c.total - Amount(item));
      assert !HasId(r.carrito, id) by {
        forall i | 0 <= i < |r.carrito| ensures r.carrito[i].id != id {
          assert r.carrito[i] in r.carrito;
        }
      }
      r
  }

  lemma {:induction false} LinesTotalAppend(lines: seq<Line>, l: Line)
    ensures LinesTotal(lines + [l]) == LinesTotal(lines) + Amount(l)
  {
    if lines != [] {
      assert (lines + [l])[1..] == lines[1..] + [l];
      LinesTotalAppend(lines[1..], l);
    }
  }

  lemma {:induction false} IncrementAbsent(lines: seq<Line>, id: int)
    requires !HasId(lines, id)
    ensures Increment(lines, id) == lines
  {
  }

  /** Raising the quantity of the one line with a given id adds that line's price. */
  lemma {:induction false} IncrementTotal(lines: seq<Line>, id: int, price: int)
    requires UniqueIds(lines) && HasId(lines, id)
    requires forall i :: 0 <= i < |lines| && lines[i].id == id ==> lines[i].precio_venta == price
    ensures LinesTotal(Increment(lines, id)) == LinesTotal(lines) + price
  {
    var inc := Increment(lines, id);
    assert inc[1..] == Increment(lines[1..], id);
    if lines[0].id == id {
      assert !HasId(lines[1..], id);
      IncrementAbsent(lines[1..], id);
    } else {
      IncrementTotal(lines[1..], id, price);
    }
  }

  lemma {:induction false} LinesTotalConcat(a: seq<Line>, b: seq<Line>)
    ensures LinesTotal(a + b) == LinesTotal(a) + LinesTotal(b)
  {
    if a == [] {
      assert a + b == b;
    } else {
      assert (a + b)[1..] == a[1..] + b;
      LinesTotalConcat(a[1..], b);
    }
  }

  /** Dropping the one line with a given id subtracts that line's amount and
      shortens the cart by one line. */
  lemma WithoutOne(lines: seq<Line>, id: int, i: int)
    requires UniqueIds(lines) && 0 <= i < |lines| && lines[i].id == id
    ensures Without(lines, id) == lines[..i] + lines[i + 1..]
    ensures LinesTotal(Without(lines, id)) == LinesTotal(lines) - Amount(lines[i])
  {
    var keep := (l: Line) => l.id != id;
    assert forall j :: 0 <= j < |lines| && j != i ==> keep(lines[j]);
    FilterDropsOne(lines, keep, i);
    LinesTotalSliceOut(lines, i);
  }

  lemma LinesTotalSliceOut(lines: seq<Line>, i: int)
    requires 0 <= i < |lines|
    ensures LinesTotal(lines[..i] + lines[i + 1..]) == LinesTotal(lines) - Amount(lines[i])
  {
    var a, b := lines[..i], lines[i + 1..];
    assert lines == a + [lines[i]] + b;
    LinesTotalConcat(a + [lines[i]], b);
    LinesTotalConcat(a, [lines[i]]);
    LinesTotalConcat(a, b);
  }

  /** Adding a product at its catalogue price keeps the cart invariant. */
  lemma AddPreservesValid(c: CartState, p: Product, prices: map<int, int>)
    requires Valid(c, prices) && ListedAt(p, prices)
    ensures Valid(AddToCart(c, p), prices)
  {
    var r := AddToCart(c, p);
    if HasId(c.carrito, p.id) {
      IncrementTotal(c.carrito, p.id, p.precio_venta);
    } else {
      LinesTotalAppend(c.carrito, Line(p.id, p.nombre, p.precio_venta, 1));
    }
  }

  /** Removing a product keeps the cart invariant and, when the product is in
      the cart, shortens the cart by exactly one line. */
  lemma RemovePreservesValid(c: CartState, id: int, prices: map<int, int>)
    requires Valid(c, prices)
    ensures Valid(RemoveFromCart(c, id), prices)
    ensures HasId(c.carrito, id) ==> |RemoveFromCart(c, id).carrito| == |c.carrito| - 1
  {
    var f := Find(c.carrito, id);
    if f.Some? {
      var item := f.value;
      var i :| 0 <= i < |c.carrito| && c.carrito[i] == item && item.id == id;
      WithoutOne(c.carrito, id, i);
      var r := RemoveFromCart(c, id);
      assert r == CartState(c.carrito[..i] + c.carrito[i + 1..], c.total - Amount(item));
      SliceOutValid(c.carrito, i, prices);
    }
  }

  lemma SliceOutValid(lines: seq<Line>, i: int, prices: map<int, int>)
    requires 0 <= i < |lines| && UniqueIds(lines) && PricedBy(lines, prices)
    ensures UniqueIds(lines[..i] + lines[i + 1..]) && PricedBy(lines[..i] + lines[i + 1..], prices)
  {
    var r := lines[..i] + lines[i + 1..];
    assert forall k :: 0 <= k < |r| ==> r[k] == lines[if k < i then k else k + 1];
  }

  /** Adding never creates a second line for an id, whatever the product's price. */
  lemma AddKeepsIds(c: CartState, p: Product)
    requires UniqueIds(c.carrito)
    ensures UniqueIds(AddToCart(c, p).carrito)
  {
  }

  /** Removing never creates a second line for an id either. */
  lemma RemoveKeepsIds(c: CartState, id: int)
    requires UniqueIds(c.carrito)
    ensures UniqueIds(RemoveFromCart(c, id).carrito)
  {
    var f := Find(c.carrito, id);
    if f.Some? {
      var i :| 0 <= i < |c.carrito| && c.carrito[i] == f.value && f.value.id == id;
      WithoutOne(c.carrito, id, i);
      SliceOutUnique(c.carrito, i);
    }
  }

  lemma SliceOutUnique(lines: seq<Line>, i: int)
    requires 0 <= i < |lines| && UniqueIds(lines)
    ensures UniqueIds(lines[..i] + lines[i + 1..])
  {
    var r := lines[..i] + lines[i + 1..];
    assert forall k :: 0 <= k < |r| ==> r[k] == lines[if k < i then k else k + 1];
  }

  /** Ids stay unique over any sequence of adds and removes at any prices: only
      the running total, not the lines, depends on a fixed price per id. */
  lemma {:induction false} ReplayKeepsIds(c: CartState, actions: seq<CartAction>)
    decreases |actions|
    requires UniqueIds(c.carrito)
    ensures UniqueIds(Replay(c, actions).carrito)
  {
    if actions != [] {
      match actions[0] {
        case Add(p) => AddKeepsIds(c, p);
        case Remove(id) => RemoveKeepsIds(c, id);
      }
      ReplayKeepsIds(Step(c, actions[0]), actions[1..]);
    }
  }

  /** A user action on the cart. */
  datatype CartAction = Add(product: Product) | Remove(id: int)

  function Step(c: CartState, a: CartAction): CartState
  {
    match a
    case Add(p) => AddToCart(c, p)
    case Remove(id) => RemoveFromCart(c, id)
  }

  function Replay(c: CartState, actions: seq<CartAction>): CartState
    decreases |actions|
  {
    if actions == [] then c
    else
      Replay(Step(c, actions[0]), actions[1..])
  }

  /** For every sequence of adds and removes of catalogue products, starting
      from the empty cart, the total equals the sum of price times quantity and
      no two lines share a product id. */
  lemma {:induction false} ReplayKeepsValid(c: CartState, actions: seq<CartAction>, prices: map<int, int>)
    decreases |actions|
    requires Valid(c, prices)
    requires forall k :: 0 <= k < |actions| && actions[k].Add? ==> ListedAt(actions[k].product, prices)
    ensures Valid(Replay(c, actions), prices)
  {
    if actions != [] {
      match actions[0] {
        case Add(p) => AddPreservesValid(c, p, prices);
        case Remove(id) => RemovePreservesValid(c, id, prices);
      }
      ReplayKeepsValid(Step(c, actions[0]), actions[1..], prices);
    }
  }

  /** Without a fixed price per id the running total drifts while the ids stay
      unique: a product first added at 1000 and then at 1200 leaves a total of
      2200 beside lines worth 2000. */
  lemma PriceChangeBreaksTotal()
    ensures var c := AddToCart(AddToCart(EmptyCart, Product(1, "Café", 1000)), Product(1, "Café", 1200));
      c.total == 2200 && LinesTotal(c.carrito) == 2000 && UniqueIds(c.carrito)
  {
    var c1 := AddToCart(EmptyCart, Product(1, "Café", 1000));
    assert c1.carrito == [Line(1, "Café", 1000, 1)];
    assert HasId(c1.carrito, 1);
  }

  /** One line of the sale request body. */
  datatype SaleItem = SaleItem(id_producto: int, cantidad: int)

  /** The sale request body: `{total, items}`. */
  datatype Sale = Sale(total: int, items: seq<SaleItem>)

  /** What pressing "Confirmar Venta" does: an alert without a request, or a POST. */
  datatype Submit = Blocked(alert: string) | Post(body: Sale)

  /** `registrarVenta`: an empty cart only alerts; otherwise the body carries the
      running total and, for each line in order, its id and quantity. */
  function RegistrarVenta(c: CartState): (r: Submit)
    ensures r.Blocked? <==> c.carrito == []
    ensures r.Blocked? ==> r.alert == "No hay productos en la venta."
    ensures r.Post? ==>
      (&& r.body.total == c.total
       && |r.body.items| == |c.carrito|
       && forall i :: 0 <= i < |c.carrito| ==> r.body.items[i] == SaleItem(c.carrito[i].id, c.carrito[i].cantidad))
  {
    if |c.carrito| == 0 then Blocked("No hay productos en la venta.")
    else Post(Sale(c.total, seq(|c.carrito|, i requires 0 <= i < |c.carrito| => SaleItem(c.carrito[i].id, c.carrito[i].cantidad))))
  }

  const SaleAlert := "Venta registrada correctamente ✅"

  /** The POST settles: success alerts the confirmation and empties the cart;
      a failure is only logged, so no alert shows and the cart stays for a retry. */
  function SaleSettled(c: CartState, outcome: Response<()>): (r: (CartState, Option<string>))
    ensures outcome.Ok? ==> r.0.carrito == [] && r.0.total == 0 && r.1 == Some(SaleAlert)
    ensures outcome.Err? ==> r.0 == c && r.1.None?
  {
    if outcome.Ok? then (EmptyCart, Some(SaleAlert)) else (c, None)
  }

  /** For a cart that keeps the invariant, the submitted total is the sum of the
      submitted quantities times the catalogue prices of the submitted ids, and
      the submitted ids are distinct. */
  lemma SubmittedSaleConsistent(c: CartState, prices: map<int, int>)
    requires Valid(c, prices) && c.carrito != []
    ensures var b := RegistrarVenta(c).body;
      b.total == ItemsValue(b.items, prices)
      && forall i, j :: 0 <= i < j < |b.items| ==> b.items[i].id_producto != b.items[j].id_producto
  {
    var b := RegistrarVenta(c).body;
    ItemsValueMatches(c.carrito, b.items, prices);
  }

  /** The value of sale items at catalogue prices (ids missing from the catalogue count 0). */
  function ItemsValue(items: seq<SaleItem>, prices: map<int, int>): int
  {
    if items == [] then 0
    else
      var price := if items[0].id_producto in prices then prices[items[0].id_producto] else 0;
      price * items[0].cantidad + ItemsValue(items[1..], prices)
  }

  lemma {:induction false} ItemsValueMatches(lines: seq<Line>, items: seq<SaleItem>, prices: map<int, int>)
    requires PricedBy(lines, prices) && |items| == |lines|
    requires forall i :: 0 <= i < |lines| ==> items[i] == SaleItem(lines[i].id, lines[i].cantidad)
    ensures ItemsValue(items, prices) == LinesTotal(lines)
  {
    if lines != [] {
      ItemsValueMatches(lines[1..], items[1..], prices);
    }
  }
}
