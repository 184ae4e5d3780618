/**
 * The ledger tools of `MozoVirtualAgent` (src/agents/mozo_virtual_agent.py),
 * which change the agent's order list, running total and paid flag in place.
 * Each method is proved to leave the agent in the state, and to give the
 * reply, that the functions of module Orders compute from the old state.
 */
module MozoAgent {
  import opened Wrappers
  import opened Text
  import opened Orders

  class MozoVirtualAgent {
    /** The price catalogue, in insertion order. */
    const precios: Catalogue
    /** The order lines, in order of addition. */
    var pedidoActual: seq<OrderItem>
    /** The running total. */
    var totalPedido: int
    /** Whether the order has been paid; no tool ever sets it back. */
    var pagado: bool

    /** The ledger as a value. */
    function State(): LedgerState
      reads this
    {
      LedgerState(pedidoActual, totalPedido, pagado)
    }

    /** The running total is the sum of the line prices. */
    predicate Valid()
      reads this
    {
      Consistent(State())
    }

    /** A new agent: the shipped catalogue, an empty order, a zero total, unpaid. */
    constructor ()
      ensures precios == Precios
      ensures State() == Inicial && Valid()
    {
      precios := Precios;
      pedidoActual := [];
      totalPedido := 0;
      pagado := false;
    }

    /** The name-resolution scan of agregar_al_pedido: the first catalogue
        entry whose key and the request contain one another after
        lower-casing, kept only when it is truthy. */
    method BuscarItem(item: string) returns (r: Option<OrderItem>)
      ensures r == Resolve(precios, item)
    {
      var i := 0;
      while i < |precios|
        invariant 0 <= i <= |precios|
        invariant forall j :: 0 <= j < i ==> !Matches(precios[j].0, item)
      {
        var (nombre, precio) := precios[i];
        if Contains(Lower(item), Lower(nombre)) || Contains(Lower(nombre), Lower(item)) {
          if nombre != "" && precio != 0 {
            r := Some(OrderItem(nombre, precio));
          } else {
            r := None;
          }
          return;
        }
        i := i + 1;
      }
      r := None;
    }

    /** agregar_al_pedido: resolve the request, then append `cantidad` copies
        one at a time, raising the total by the price each time. */
    method AgregarAlPedido(item: string, cantidad: int) returns (r: AddReply)
      modifies this
      ensures (State(), r) == AddItem(precios, old(State()), item, cantidad)
      ensures old(Valid()) ==> Valid()
    {
      var found := BuscarItem(item);
      if found.None? {
        r := NotOnMenu(item);
        return;
      }
      var e := found.value;
      AppendCopies(e, cantidad);
      r := Added(cantidad, e.item, e.precio, totalPedido);
      if old(Valid()) { AddKeepsConsistent(precios, old(State()), item, cantidad); }
    }

    /** The `for _ in range(cantidad)` loop of agregar_al_pedido: append one
        copy and add its price, `cantidad` times (no times when it is not
        positive). */
    method AppendCopies(e: OrderItem, cantidad: int)
      modifies this
      ensures pedidoActual == old(pedidoActual) + Repeat(e, cantidad)
      ensures totalPedido == old(totalPedido) + Times(cantidad) * e.precio
      ensures pagado == old(pagado)
    {
      var k := 0;
      while k < cantidad
        invariant 0 <= k <= Times(cantidad)
        invariant pedidoActual == old(pedidoActual) + Repeat(e, k)
        invariant totalPedido == old(totalPedido) + k * e.precio
        invariant pagado == old(pagado)
      {
        pedidoActual := pedidoActual + [e];
        totalPedido := totalPedido + e.precio;
        k := k + 1;
        assert Repeat(e, k) == Repeat(e, k - 1) + [e];
      }
    }

    /** eliminar_del_pedido: take out line `numeroItem` (counted from 1) and
        lower the total by its price, or reject the request. */
    method EliminarDelPedido(numeroItem: int) returns (r: RemoveReply)
      modifies this
      ensures (State(), r) == RemoveItem(old(State()), numeroItem)
      ensures old(Valid()) ==> Valid()
    {
      if pedidoActual == [] {
        return NothingToRemove;
      }
      if numeroItem < 1 || numeroItem > |pedidoActual| {
        return InvalidNumber(|pedidoActual|);
      }
      var eliminado := pedidoActual[numeroItem - 1];
      pedidoActual := pedidoActual[..numeroItem - 1] + pedidoActual[numeroItem..];
      totalPedido := totalPedido - eliminado.precio;
      r := Removed(eliminado.item, totalPedido);
      if old(Valid()) { RemoveKeepsConsistent(old(State()), numeroItem); }
    }

    /** procesar_pago: set the paid flag of a non-empty, unpaid order. */
    method ProcesarPago() returns (r: PayReply)
      modifies this
      ensures (State(), r) == Pay(old(State()))
      ensures old(Valid()) ==> Valid()
    {
      if pedidoActual == [] {
        return NothingToPay;
      }
      if pagado {
        return AlreadyPaid;
      }
      pagado := true;
      r := PaymentProcessed(totalPedido);
    }

    /** ver_pedido_actual: number the lines from 1 in a loop. */
    method VerPedidoActual() returns (r: OrderView)
      ensures r == View(State())
    {
      if pedidoActual == [] {
        return EmptyOrder;
      }
      var lines: seq<ViewLine> := [];
      var i := 0;
      while i < |pedidoActual|
        invariant 0 <= i <= |pedidoActual| && |lines| == i
        invariant forall j :: 0 <= j < i ==>
          lines[j] == ViewLine(j + 1, pedidoActual[j].item, pedidoActual[j].precio)
      {
        lines := lines + [ViewLine(i + 1, pedidoActual[i].item, pedidoActual[i].precio)];
        i := i + 1;
      }
      r := Listing(lines, totalPedido, pagado);
    }

    /** verificar_estado_pago */
    method VerificarEstadoPago() returns (r: PaymentStatus)
      ensures r == Status(State())
    {
      if pedidoActual == [] {
        return NoActiveOrder;
      }
      if pagado {
        return PaidUp;
      }
      return Pending(totalPedido);
    }
  }
}
