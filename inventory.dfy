/** Stock entries as the server returns them, and the list patches the screens apply to their
    local copies after a load, a removal or a transfer. */
module Inventory {
  import opened Wrappers
  import opened Seqs

  /** A part in someone's personal stock; `createdAt` is the day of creation as a day number. */
  datatype StockItem = StockItem(id: string, codigo: string, nombre: string, cantidad: int, createdAt: int)

  /** A part known to the catalog. */
  datatype CatalogEntry = CatalogEntry(codigo: string, nombre: string)

  predicate Positive(item: StockItem) {
    item.cantidad > 0
  }

  /** The entries with a positive quantity, in server order. */
  function Available(items: seq<StockItem>): (r: seq<StockItem>)
    ensures IsSubsequence(r, items)
    ensures forall x :: x in r <==> x in items && x.cantidad > 0
    ensures forall k :: 0 <= k < |items| ==>
              multiset(r)[items[k]] == if items[k].cantidad > 0 then multiset(items)[items[k]] else 0
  {
    FilterIsSubsequence(items, Positive);
    FilterMultiset(items, Positive);
    Filter(items, Positive)
  }

  /** Every entry whose id differs from `id`, in order. */
  function RemoveId(items: seq<StockItem>, id: string): (r: seq<StockItem>)
    ensures IsSubsequence(r, items)
    ensures forall x :: x in r <==> x in items && x.id != id
    ensures forall k :: 0 <= k < |items| ==>
              multiset(r)[items[k]] == if items[k].id != id then multiset(items)[items[k]] else 0
  {
    FilterIsSubsequence(items, (x: StockItem) => x.id != id);
    FilterMultiset(items, (x: StockItem) => x.id != id);
    Filter(items, (x: StockItem) => x.id != id)
  }

  function WithCantidad(id: string, q: int): StockItem -> StockItem {
    (x: StockItem) => if x.id == id then x.(cantidad := q) else x
  }

  /** Every entry with the given id has its quantity replaced by `q`; nothing else changes. */
  function SetCantidad(items: seq<StockItem>, id: string, q: int): (r: seq<StockItem>)
    ensures |r| == |items|
    ensures forall k :: 0 <= k < |r| ==> r[k].(cantidad := items[k].cantidad) == items[k]
    ensures forall k :: 0 <= k < |r| ==> r[k].cantidad == if items[k].id == id then q else items[k].cantidad
  {
    Map(items, WithCantidad(id, q))
  }

  /** The server's answer to a removal of one unit. */
  datatype RemovalReply = RemovalFailed | Eliminated | Reduced(cantidad: int)

  /** A list after a removal reply: a deleted entry leaves the list; a reduced one takes the new
      quantity, and then every entry without a positive quantity is dropped. */
  function AfterRemoval(items: seq<StockItem>, id: string, reply: RemovalReply): seq<StockItem> {
    match reply
    case RemovalFailed => items
    case Eliminated => RemoveId(items, id)
    case Reduced(q) => Available(SetCantidad(items, id, q))
  }

  /** A list after a successful transfer, given the quantity left at the origin: zero removes
      the entry, anything else replaces its quantity (no positivity filter here). */
  function AfterTransfer(items: seq<StockItem>, id: string, origin: int): seq<StockItem> {
    if origin == 0 then RemoveId(items, id) else SetCantidad(items, id, origin)
  }

  /** A removal leaves every other positive entry in place and adds nothing foreign; the removed
      id survives only after a reduction to a positive quantity, and then with that quantity. */
  lemma AfterRemovalEffect(items: seq<StockItem>, id: string, reply: RemovalReply)
    requires reply != RemovalFailed
    ensures forall x :: x in items && x.id != id && x.cantidad > 0 ==> x in AfterRemoval(items, id, reply)
    ensures forall y :: y in AfterRemoval(items, id, reply) && y.id != id ==> y in items
    ensures forall y :: y in AfterRemoval(items, id, reply) && y.id == id ==>
              reply.Reduced? && reply.cantidad > 0 && exists x :: x in items && y == x.(cantidad := reply.cantidad)
  {
    if reply.Reduced? {
      var patched := SetCantidad(items, id, reply.cantidad);
      forall x | x in items && x.id != id && x.cantidad > 0
        ensures x in AfterRemoval(items, id, reply)
      {
        var k :| 0 <= k < |items| && items[k] == x;
        assert patched[k] == x;
      }
      forall y | y in AfterRemoval(items, id, reply)
        ensures y.id != id ==> y in items
        ensures y.id == id ==> reply.cantidad > 0 && exists x :: x in items && y == x.(cantidad := reply.cantidad)
      {
        var k :| 0 <= k < |patched| && patched[k] == y;
        assert patched[k].(cantidad := items[k].cantidad) == items[k];
      }
    }
  }

  /** A transfer leaves every other entry in place and adds nothing foreign; the transferred id
      survives only when the origin kept units, and then with exactly that quantity at the
      same positions. */
  lemma AfterTransferEffect(items: seq<StockItem>, id: string, origin: int)
    ensures forall x :: x in items && x.id != id ==> x in AfterTransfer(items, id, origin)
    ensures forall y :: y in AfterTransfer(items, id, origin) && y.id != id ==> y in items
    ensures forall y :: y in AfterTransfer(items, id, origin) && y.id == id ==>
              origin != 0 && exists x :: x in items && y == x.(cantidad := origin)
    ensures origin != 0 ==> |AfterTransfer(items, id, origin)| == |items|
  {
    if origin != 0 {
      var patched := SetCantidad(items, id, origin);
      forall x | x in items && x.id != id
        ensures x in patched
      {
        var k :| 0 <= k < |items| && items[k] == x;
        assert patched[k] == x;
      }
      forall y | y in patched
        ensures y.id != id ==> y in items
        ensures y.id == id ==> exists x :: x in items && y == x.(cantidad := origin)
      {
        var k :| 0 <= k < |patched| && patched[k] == y;
        assert patched[k].(cantidad := items[k].cantidad) == items[k];
      }
    }
  }

  predicate AllPositive(items: seq<StockItem>) {
    forall k :: 0 <= k < |items| ==> items[k].cantidad > 0
  }

  /** Lists that hold only positive entries keep doing so after a removal, and after a transfer
      whose origin quantity is not negative. */
  lemma ReconciliationKeepsPositive(items: seq<StockItem>, id: string, reply: RemovalReply, origin: int)
    requires AllPositive(items)
    ensures AllPositive(AfterRemoval(items, id, reply))
    ensures origin >= 0 ==> AllPositive(AfterTransfer(items, id, origin))
  {
    var r := AfterRemoval(items, id, reply);
    forall k | 0 <= k < |r|
      ensures r[k].cantidad > 0
    {
      assert r[k] in r;
    }
  }

  /** Patching both the visible list and the full list the same way keeps the visible one an
      order-preserving sublist of the full one. */
  lemma ReconciliationKeepsSublist(view: seq<StockItem>, all: seq<StockItem>, id: string, reply: RemovalReply, origin: int)
    requires IsSubsequence(view, all)
    ensures IsSubsequence(AfterRemoval(view, id, reply), AfterRemoval(all, id, reply))
    ensures IsSubsequence(AfterTransfer(view, id, origin), AfterTransfer(all, id, origin))
  {
    FilterMonotone(view, all, (x: StockItem) => x.id != id);
    MapMonotone(view, all, WithCantidad(id, origin));
    if reply.Reduced? {
      MapMonotone(view, all, WithCantidad(id, reply.cantidad));
      FilterMonotone(SetCantidad(view, id, reply.cantidad), SetCantidad(all, id, reply.cantidad), Positive);
    }
  }
}
