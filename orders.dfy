/**
 * The order ledger of the restaurant assistant (src/agents/mozo_virtual_agent.py):
 * the price catalogue, how a requested name is resolved against it, and the
 * effect of each ledger tool (add, remove by 1-based number, pay, view,
 * payment status) as a function from the old ledger to the new ledger and the
 * reply. The class in mozo_agent.dfy runs these same operations in place and
 * is proved to agree with these functions.
 */
module Orders {
  import opened Wrappers
  import opened Text

  /** One line of the order: the catalogue key it resolved to and its unit price. */
  datatype OrderItem = OrderItem(item: string, precio: nat)

  /** The price catalogue, in the dictionary's insertion order. */
  type Catalogue = seq<(string, nat)>

  const Precios: Catalogue := [
    // Aperitivos
    ("tabla de quesos y fiambres", 18000),
    ("croquetas de jamón ibérico", 12000),
    ("patatas bravas", 8000),
    ("pulpo a la gallega", 16000),
    ("gazpacho andaluz", 9000),
    // Carnes
    ("solomillo de ternera", 35000),
    ("cordero al horno", 32000),
    ("cochinillo asado", 45000),
    // Pescados y mariscos
    ("paella valenciana", 28000),
    ("paella de mariscos", 32000),
    ("bacalao a la vizcaína", 26000),
    ("merluza en salsa verde", 24000),
    // Vegetarianos
    ("risotto de setas", 22000),
    ("tortilla española", 14000),
    ("ensalada de quinoa", 18000),
    // Postres
    ("flan de caramelo", 8000),
    ("tarta de santiago", 10000),
    ("crema catalana", 9000),
    ("helado de turrón", 7000),
    // Bebidas
    ("rioja reserva", 12000),
    ("albariño", 10000),
    ("cava brut", 14000),
    ("estrella galicia", 6000),
    ("mahou", 6000),
    ("limonada casera", 5000),
    ("agua mineral", 3000),
    ("café", 4000),
    // Especialidades del día
    ("cocido madrileño", 20000),
    ("fabada asturiana", 22000),
    ("gazpacho y salmorejo", 15000),
    ("pulpo a feira", 25000),
    ("cocido completo", 25000)
  ]

  /** Python truthiness of a catalogue entry: a non-empty name and a non-zero price. */
  predicate Truthy(e: (string, nat)) {
    e.0 != "" && e.1 != 0
  }

  /** Every entry of the shipped catalogue is truthy, so a match is never rejected. */
  lemma PreciosTruthy()
    ensures forall e :: e in Precios ==> Truthy(e)
  {
  }

  /** The matching test of the add tool: after lower-casing, the catalogue key
      is a substring of the request or the request a substring of the key. */
  predicate Matches(nombre: string, item: string) {
    Contains(Lower(item), Lower(nombre)) || Contains(Lower(nombre), Lower(item))
  }

  /** The catalogue position the add tool's scan stops at, if any. */
  function FirstMatch(precios: Catalogue, item: string): (r: Option<nat>)
    ensures r.Some? ==> r.value < |precios| && Matches(precios[r.value].0, item)
    ensures r.Some? ==> forall j :: 0 <= j < r.value ==> !Matches(precios[j].0, item)
    ensures r.None? <==> forall j :: 0 <= j < |precios| ==> !Matches(precios[j].0, item)
  {
    FirstWhere(precios, (e: (string, nat)) => Matches(e.0, item))
  }

  /** The entry that gets added: the first match, provided it is truthy. */
  function Resolve(precios: Catalogue, item: string): Option<OrderItem> {
    match FirstMatch(precios, item)
    case None => None
    case Some(i) =>
      if Truthy(precios[i]) then Some(OrderItem(precios[i].0, precios[i].1)) else None
  }

  /** Sum of the prices of the order lines. */
  function Sum(pedido: seq<OrderItem>): int {
    if pedido == [] then 0 else Sum(pedido[..|pedido| - 1]) + pedido[|pedido| - 1].precio
  }

  /** How many times `for _ in range(n)` runs. */
  function Times(n: int): nat {
    if n <= 0 then 0 else n
  }

  /** `n` copies of one order line. */
  function Repeat(e: OrderItem, n: int): (r: seq<OrderItem>)
    ensures |r| == Times(n)
    ensures forall k :: 0 <= k < |r| ==> r[k] == e
  {
    seq(Times(n), _ => e)
  }

  /** The ledger: the order lines in order of addition, the running total and the paid flag. */
  datatype LedgerState = LedgerState(pedido: seq<OrderItem>, total: int, pagado: bool)

  /** The ledger at session start. */
  const Inicial := LedgerState([], 0, false)

  /** The ledger invariant: the running total is the sum of the line prices. */
  predicate Consistent(st: LedgerState) {
    st.total == Sum(st.pedido)
  }

  // ---------------------------------------------------------------------------
  // The ledger tools as functions of the old ledger
  // ---------------------------------------------------------------------------

  datatype AddReply = Added(cantidad: int, item: string, precio: nat, total: int) | NotOnMenu(requested: string)

  /** agregar_al_pedido */
  function AddItem(precios: Catalogue, st: LedgerState, item: string, cantidad: int): (LedgerState, AddReply) {
    match Resolve(precios, item)
    case None => (st, NotOnMenu(item))
    case Some(e) =>
      var total := st.total + Times(cantidad) * e.precio;
      (st.(pedido := st.pedido + Repeat(e, cantidad), total := total), Added(cantidad, e.item, e.precio, total))
  }

  datatype RemoveReply = NothingToRemove | InvalidNumber(items: nat) | Removed(item: string, total: int)

  /** eliminar_del_pedido, with the 1-based line number `numero` */
  function RemoveItem(st: LedgerState, numero: int): (LedgerState, RemoveReply) {
    if st.pedido == [] then (st, NothingToRemove)
    else if numero < 1 || numero > |st.pedido| then (st, InvalidNumber(|st.pedido|))
    else
      var gone := st.pedido[numero - 1];
      var total := st.total - gone.precio;
      (st.(pedido := st.pedido[..numero - 1] + st.pedido[numero..], total := total), Removed(gone.item, total))
  }

  datatype PayReply = NothingToPay | AlreadyPaid | PaymentProcessed(total: int)

  /** procesar_pago */
  function Pay(st: LedgerState): (LedgerState, PayReply) {
    if st.pedido == [] then (st, NothingToPay)
    else if st.pagado then (st, AlreadyPaid)
    else (st.(pagado := true), PaymentProcessed(st.total))
  }

  /** One numbered line of the order listing. */
  datatype ViewLine = ViewLine(numero: nat, item: string, precio: nat)

  datatype OrderView = EmptyOrder | Listing(lines: seq<ViewLine>, total: int, pagado: bool)

  /** ver_pedido_actual: an empty order, or every line numbered from 1 in
      order of addition, with the total and the paid flag. */
  function View(st: LedgerState): (r: OrderView)
    ensures r.EmptyOrder? <==> st.pedido == []
    ensures r.Listing? ==> |r.lines| == |st.pedido| && r.total == st.total && r.pagado == st.pagado
    ensures r.Listing? ==> forall i :: 0 <= i < |r.lines| ==>
      r.lines[i] == ViewLine(i + 1, st.pedido[i].item, st.pedido[i].precio)
  {
    if st.pedido == [] then EmptyOrder
    else Listing(seq(|st.pedido|, i requires 0 <= i < |st.pedido| =>
                   ViewLine(i + 1, st.pedido[i].item, st.pedido[i].precio)),
                 st.total, st.pagado)
  }

  datatype PaymentStatus = NoActiveOrder | PaidUp | Pending(total: int)

  /** verificar_estado_pago */
  function Status(st: LedgerState): (r: PaymentStatus)
    ensures r.NoActiveOrder? <==> st.pedido == []
    ensures r.PaidUp? <==> st.pedido != [] && st.pagado
    ensures r.Pending? ==> r.total == st.total
  {
    if st.pedido == [] then NoActiveOrder
    else if st.pagado then PaidUp
    else Pending(st.total)
  }

  /** A call of one ledger tool. */
  datatype Op = AddOp(item: string, cantidad: int) | RemoveOp(numero: int) | PayOp | ViewOp | StatusOp

  /** The ledger after one tool call; viewing and status checks leave it as it is. */
  function Apply(precios: Catalogue, st: LedgerState, op: Op): LedgerState {
    match op
    case AddOp(item, cantidad) => AddItem(precios, st, item, cantidad).0
    case RemoveOp(numero) => RemoveItem(st, numero).0
    case PayOp => Pay(st).0
    case ViewOp => st
    case StatusOp => st
  }

  /** The ledger after a sequence of tool calls, in the order they were made. */
  function Run(precios: Catalogue, st: LedgerState, ops: seq<Op>): LedgerState
    decreases |ops|
  {
    if ops == [] then st else Run(precios, Apply(precios, st, ops[0]), ops[1..])
  }

  // ---------------------------------------------------------------------------
  // Sums
  // ---------------------------------------------------------------------------

  lemma SumAppend(xs: seq<OrderItem>, e: OrderItem)
    ensures Sum(xs + [e]) == Sum(xs) + e.precio
  {
    assert (xs + [e])[..|xs|] == xs;
  }

  lemma {:induction false} SumConcat(xs: seq<OrderItem>, ys: seq<OrderItem>)
    ensures Sum(xs + ys) == Sum(xs) + Sum(ys)
    decreases |ys|
  {
    if ys != [] {
      var init, last := ys[..|ys| - 1], ys[|ys| - 1];
      assert ys == init + [last];
      assert xs + ys == (xs + init) + [last];
      SumConcat(xs, init);
      SumAppend(xs + init, last);
      SumAppend(init, last);
    } else {
      assert xs + ys == xs;
    }
  }

  lemma {:induction false} SumRepeat(e: OrderItem, n: int)
    ensures Sum(Repeat(e, n)) == Times(n) * e.precio
    decreases Times(n)
  {
    if n > 0 {
      assert Repeat(e, n) == Repeat(e, n - 1) + [e];
      SumRepeat(e, n - 1);
      SumAppend(Repeat(e, n - 1), e);
    }
  }

  /** Taking line `i` out of an order lowers the sum by that line's price. */
  lemma {:induction false} SumRemoveAt(xs: seq<OrderItem>, i: nat)
    requires i < |xs|
    ensures Sum(xs[..i] + xs[i + 1..]) == Sum(xs) - xs[i].precio
  {
    var front, mid, back := xs[..i], [xs[i]], xs[i + 1..];
    assert xs == front + (mid + back);
    SumConcat(front, mid + back);
    SumConcat(mid, back);
    SumConcat(front, back);
    assert Sum(mid) == xs[i].precio by { SumAppend([], xs[i]); assert [] + [xs[i]] == mid; }
  }

  // ---------------------------------------------------------------------------
  // Properties of the ledger tools
  // ---------------------------------------------------------------------------

  /** Adding resolves the request to the first catalogue entry, in catalogue
      order, that matches it; when nothing matches the reply is an error. */
  lemma AddResolvesFirstMatch(precios: Catalogue, st: LedgerState, item: string, cantidad: int)
    requires forall e :: e in precios ==> Truthy(e)
    ensures var r := AddItem(precios, st, item, cantidad).1;
      && (r.Added? <==> exists j :: 0 <= j < |precios| && Matches(precios[j].0, item))
      && (r.Added? ==> exists i :: 0 <= i < |precios| && (r.item, r.precio) == precios[i]
                          && Matches(precios[i].0, item)
                          && forall j :: 0 <= j < i ==> !Matches(precios[j].0, item))
      && (r.NotOnMenu? ==> r.requested == item)
  {
    match FirstMatch(precios, item)
    case None =>
    case Some(i) => assert precios[i] in precios;
  }

  /** A successful add appends exactly `cantidad` copies of the resolved line
      and raises the total by `cantidad` times its price; a failed one changes
      nothing. */
  lemma AddAppendsCopies(precios: Catalogue, st: LedgerState, item: string, cantidad: int)
    ensures var (st', r) := AddItem(precios, st, item, cantidad);
      && (r.NotOnMenu? ==> st' == st)
      && (r.Added? ==> && st'.pedido == st.pedido + Repeat(OrderItem(r.item, r.precio), cantidad)
                       && st'.total == st.total + Times(cantidad) * r.precio
                       && st'.pagado == st.pagado
                       && r.total == st'.total && r.cantidad == cantidad)
  {
  }

  /** With a quantity of zero or less the add tool changes nothing, yet still
      reports success whenever the name resolves. */
  lemma NonPositiveQuantityAddsNothing(precios: Catalogue, st: LedgerState, item: string, cantidad: int)
    requires cantidad <= 0
    ensures AddItem(precios, st, item, cantidad).0 == st
    ensures AddItem(precios, st, item, cantidad).1.Added? <==> Resolve(precios, item).Some?
  {
    assert st.pedido + Repeat(OrderItem("", 0), cantidad) == st.pedido;
  }

  /** An empty name is a substring of every key, so it resolves to the first entry. */
  lemma EmptyNameMatchesFirst()
    ensures Resolve(Precios, "") == Some(OrderItem("tabla de quesos y fiambres", 18000))
  {
    EmptyIsContained(Lower(Precios[0].0));
    assert Lower("") == "";
  }

  lemma AddKeepsConsistent(precios: Catalogue, st: LedgerState, item: string, cantidad: int)
    requires Consistent(st)
    ensures Consistent(AddItem(precios, st, item, cantidad).0)
  {
    match Resolve(precios, item)
    case None =>
    case Some(e) =>
      SumConcat(st.pedido, Repeat(e, cantidad));
      SumRepeat(e, cantidad);
  }

  /** Removing from an empty order, or by a number outside 1..length, is an
      error that leaves the ledger unchanged. */
  lemma RemoveRejects(st: LedgerState, numero: int)
    ensures var (st', r) := RemoveItem(st, numero);
      && (st.pedido == [] <==> r.NothingToRemove?)
      && (r.InvalidNumber? <==> st.pedido != [] && (numero < 1 || numero > |st.pedido|))
      && (r.InvalidNumber? ==> r.items == |st.pedido|)
      && (!r.Removed? ==> st' == st)
  {
  }

  /** Otherwise removing deletes exactly line `numero`, keeps the other lines in
      their order, and lowers the total by that line's price. */
  lemma RemoveDeletesLine(st: LedgerState, numero: int)
    requires 1 <= numero <= |st.pedido|
    ensures var (st', r) := RemoveItem(st, numero);
      && r == Removed(st.pedido[numero - 1].item, st'.total)
      && |st'.pedido| == |st.pedido| - 1
      && (forall j :: 0 <= j < numero - 1 ==> st'.pedido[j] == st.pedido[j])
      && (forall j :: numero - 1 <= j < |st'.pedido| ==> st'.pedido[j] == st.pedido[j + 1])
      && st'.total == st.total - st.pedido[numero - 1].precio
      && st'.pagado == st.pagado
  {
  }

  lemma RemoveKeepsConsistent(st: LedgerState, numero: int)
    requires Consistent(st)
    ensures Consistent(RemoveItem(st, numero).0)
  {
    if st.pedido != [] && 1 <= numero <= |st.pedido| {
      SumRemoveAt(st.pedido, numero - 1);
    }
  }

  /** Paying an empty order is an error, paying twice is a no-op that says so,
      and otherwise paying sets the paid flag and nothing else. */
  lemma PayOutcomes(st: LedgerState)
    ensures var (st', r) := Pay(st);
      && (r.NothingToPay? <==> st.pedido == [])
      && (r.AlreadyPaid? <==> st.pedido != [] && st.pagado)
      && (r.PaymentProcessed? ==> st' == st.(pagado := true) && r.total == st.total && !st.pagado)
      && (!r.PaymentProcessed? ==> st' == st)
  {
  }

  /** A second payment returns AlreadyPaid and changes nothing. */
  lemma PayIdempotent(st: LedgerState)
    requires st.pedido != []
    ensures Pay(Pay(st).0) == (Pay(st).0, AlreadyPaid)
  {
  }

  /** No tool ever clears the paid flag, and every tool keeps the total equal
      to the sum of the line prices. */
  lemma ApplyPreserves(precios: Catalogue, st: LedgerState, op: Op)
    ensures st.pagado ==> Apply(precios, st, op).pagado
    ensures Consistent(st) ==> Consistent(Apply(precios, st, op))
    ensures Apply(precios, st, op).pagado && !st.pagado ==> op.PayOp? && st.pedido != []
  {
    match op
    case AddOp(item, cantidad) =>
      if Consistent(st) { AddKeepsConsistent(precios, st, item, cantidad); }
    case RemoveOp(numero) =>
      if Consistent(st) { RemoveKeepsConsistent(st, numero); }
    case PayOp =>
    case ViewOp =>
    case StatusOp =>
  }

  /** For any sequence of tool calls: the total stays the sum of the remaining
      line prices, and once paid the ledger stays paid. */
  lemma {:induction false} RunPreserves(precios: Catalogue, st: LedgerState, ops: seq<Op>)
    ensures Consistent(st) ==> Consistent(Run(precios, st, ops))
    ensures st.pagado ==> Run(precios, st, ops).pagado
    decreases |ops|
  {
    if ops != [] {
      ApplyPreserves(precios, st, ops[0]);
      RunPreserves(precios, Apply(precios, st, ops[0]), ops[1..]);
    }
  }

  /** A worked session: adding two of a dish, removing line 1 and paying
      leaves one line, its price as the total, and the order paid. */
  lemma AddTwoRemoveOnePay(precios: Catalogue, item: string, e: OrderItem)
    requires Resolve(precios, item) == Some(e)
    ensures var (s1, r1) := AddItem(precios, Inicial, item, 2);
      && r1 == Added(2, e.item, e.precio, 2 * e.precio)
      && var (s2, r2) := RemoveItem(s1, 1);
      && r2 == Removed(e.item, e.precio)
      && var (s3, r3) := Pay(s2);
      && r3 == PaymentProcessed(e.precio)
      && s3 == LedgerState([e], e.precio, true)
  {
    assert Repeat(e, 2) == [e, e];
    var (s1, r1) := AddItem(precios, Inicial, item, 2);
    assert s1 == LedgerState([e, e], 2 * e.precio, false);
    assert RemoveItem(s1, 1).0.pedido == [e];
  }

  /** The same session on the real menu: two cheese boards (36000), then one
      removed (18000), then paid. */
  lemma CheeseBoardScenario()
    ensures var (s1, r1) := AddItem(Precios, Inicial, "TABLA", 2);
      && r1 == Added(2, "tabla de quesos y fiambres", 18000, 36000)
      && var (s2, r2) := RemoveItem(s1, 1);
      && r2 == Removed("tabla de quesos y fiambres", 18000)
      && var (s3, r3) := Pay(s2);
      && r3 == PaymentProcessed(18000)
      && s3 == LedgerState([OrderItem("tabla de quesos y fiambres", 18000)], 18000, true)
  {
    CheeseBoardResolves();
    AddTwoRemoveOnePay(Precios, "TABLA", OrderItem("tabla de quesos y fiambres", 18000));
  }

  /** A request written in capitals resolves to the first catalogue entry. */
  lemma CheeseBoardResolves()
    ensures Resolve(Precios, "TABLA") == Some(OrderItem("tabla de quesos y fiambres", 18000))
  {
    CheeseBoardMatchesFirst();
  }

  lemma CheeseBoardMatchesFirst()
    ensures Matches(Precios[0].0, "TABLA")
  {
    var key := Precios[0].0;
    assert Lower("TABLA") == "tabla";
    assert Lower(key)[0..5] == "tabla";
    assert OccursAt(Lower(key), Lower("TABLA"), 0);
  }
}
