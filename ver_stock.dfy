/** The personal-stock screen: the full list loaded from the server, the visible list after
    the search and date filters, and the local patches after a removal or a transfer. */
module StockView {
  import opened Wrappers
  import opened Seqs
  import opened Text
  import opened Numbers
  import opened Inventory

  /** The code filter of the search box: case-insensitive substring of the code. */
  predicate CodeMatches(item: StockItem, busqueda: string) {
    Contains(Lower(item.codigo), Lower(busqueda))
  }

  /** The date filter: created on one of the days from `desde` to `hasta`, both included. */
  predicate CreatedWithin(item: StockItem, desde: int, hasta: int) {
    desde <= item.createdAt <= hasta
  }

  /** The list aplicarFiltros shows: the code filter when the trimmed search text is not blank,
      then the date filter when both dates are set. */
  function StockFilter(all: seq<StockItem>, busqueda: string, fechaInicio: Option<int>, fechaFin: Option<int>): seq<StockItem> {
    var byCode := if Trim(busqueda) != "" then Filter(all, (x: StockItem) => CodeMatches(x, busqueda)) else all;
    if fechaInicio.Some? && fechaFin.Some? then Filter(byCode, (x: StockItem) => CreatedWithin(x, fechaInicio.value, fechaFin.value))
    else byCode
  }

  /** The filtered list is an order-preserving sublist of the full list, and it holds exactly the
      entries that pass every active filter, each as many times as the full list does. */
  lemma StockFilterSpec(all: seq<StockItem>, busqueda: string, fechaInicio: Option<int>, fechaFin: Option<int>)
    ensures IsSubsequence(StockFilter(all, busqueda, fechaInicio, fechaFin), all)
    ensures forall x :: x in StockFilter(all, busqueda, fechaInicio, fechaFin) <==>
              x in all
              && (Trim(busqueda) != "" ==> CodeMatches(x, busqueda))
              && (fechaInicio.Some? && fechaFin.Some? ==> CreatedWithin(x, fechaInicio.value, fechaFin.value))
    ensures forall x :: multiset(StockFilter(all, busqueda, fechaInicio, fechaFin))[x] ==
              if (Trim(busqueda) != "" ==> CodeMatches(x, busqueda))
                 && (fechaInicio.Some? && fechaFin.Some? ==> CreatedWithin(x, fechaInicio.value, fechaFin.value))
              then multiset(all)[x] else 0
  {
    var code := (x: StockItem) => CodeMatches(x, busqueda);
    var byCode := if Trim(busqueda) != "" then Filter(all, code) else all;
    if Trim(busqueda) != "" {
      FilterIsSubsequence(all, code);
    } else {
      SubsequenceReflexive(all);
    }
    if fechaInicio.Some? && fechaFin.Some? {
      var date := (x: StockItem) => CreatedWithin(x, fechaInicio.value, fechaFin.value);
      FilterIsSubsequence(byCode, date);
      SubsequenceTransitive(Filter(byCode, date), byCode, all);
    }
    StockFilterCount(all, busqueda, fechaInicio, fechaFin);
  }

  /** Each entry passing the active filters is shown as many times as the full list holds it,
      and no other entry is shown. */
  lemma StockFilterCount(all: seq<StockItem>, busqueda: string, fechaInicio: Option<int>, fechaFin: Option<int>)
    ensures forall x :: multiset(StockFilter(all, busqueda, fechaInicio, fechaFin))[x] ==
              if (Trim(busqueda) != "" ==> CodeMatches(x, busqueda))
                 && (fechaInicio.Some? && fechaFin.Some? ==> CreatedWithin(x, fechaInicio.value, fechaFin.value))
              then multiset(all)[x] else 0
  {
    var code := (x: StockItem) => CodeMatches(x, busqueda);
    var byCode := if Trim(busqueda) != "" then Filter(all, code) else all;
    if Trim(busqueda) != "" {
      FilterMultiset(all, code);
    }
    if fechaInicio.Some? && fechaFin.Some? {
      FilterMultiset(byCode, (x: StockItem) => CreatedWithin(x, fechaInicio.value, fechaFin.value));
    }
  }

  /** With no active filter the whole list is shown. */
  lemma NoFilterShowsAll(all: seq<StockItem>, busqueda: string)
    requires Trim(busqueda) == ""
    ensures StockFilter(all, busqueda, None, None) == all
    ensures forall d :: StockFilter(all, busqueda, Some(d), None) == all
  {
  }

  /** The transfer targets: every user except those named like the current user. */
  function OtherUsers(users: seq<string>, me: string): (r: seq<string>)
    ensures IsSubsequence(r, users)
    ensures forall k :: 0 <= k < |r| ==> r[k] != me
    ensures forall k :: 0 <= k < |users| && users[k] != me ==> users[k] in r
    ensures forall k :: 0 <= k < |users| ==>
              multiset(r)[users[k]] == if users[k] != me then multiset(users)[users[k]] else 0
  {
    FilterIsSubsequence(users, (u: string) => u != me);
    FilterMultiset(users, (u: string) => u != me);
    Filter(users, (u: string) => u != me)
  }

  /** What confirmarCantidadPersonalizada decides for the typed amount. */
  datatype AmountDecision = InvalidAmount | AboveAvailable(available: int) | TransferAmount(amount: int)

  function CustomAmountDecision(input: string, available: int): (d: AmountDecision)
    ensures d.TransferAmount? <==> ParseInt(input).Some? && 0 < ParseInt(input).value <= available
    ensures d.TransferAmount? ==> d.amount == ParseInt(input).value
    ensures d == InvalidAmount <==> ParseInt(input).None? || ParseInt(input).value <= 0
    ensures d.AboveAvailable? ==> d.available == available
  {
    match ParseInt(input)
    case None => InvalidAmount
    case Some(n) =>
      if n <= 0 then InvalidAmount
      else if n > available then AboveAvailable(available)
      else TransferAmount(n)
  }

  /** Typing any amount from 1 to the available quantity transfers exactly that amount. */
  lemma TypedAmountIsTransferred(n: nat, available: int)
    requires 1 <= n <= available
    ensures CustomAmountDecision(NatToString(n), available) == TransferAmount(n)
  {
    ParseNatToString(n);
  }

  /** What preguntarCantidad does for an entry: a single unit moves at once, otherwise the
      amount dialog opens. */
  datatype AmountPrompt = TransferSingleUnit | AskForAmount

  function PreguntarCantidad(item: StockItem): (p: AmountPrompt)
    ensures p == TransferSingleUnit <==> item.cantidad == 1
  {
    if item.cantidad == 1 then TransferSingleUnit else AskForAmount
  }

  /** Whether abrirModalTransferir opens the user picker. */
  datatype TransferDialog = UsersStillLoading | NoUsersAvailable | OpenPicker

  function AbrirModalTransferir(cargandoUsuarios: bool, usuarios: seq<string>): (d: TransferDialog)
    ensures d == OpenPicker <==> !cargandoUsuarios && |usuarios| > 0
    ensures cargandoUsuarios ==> d == UsersStillLoading
    ensures !cargandoUsuarios && |usuarios| == 0 ==> d == NoUsersAvailable
  {
    if cargandoUsuarios then UsersStillLoading
    else if |usuarios| == 0 then NoUsersAvailable
    else OpenPicker
  }

  datatype TransferRequest = TransferRequest(codigo: string, cantidad: int, usuarioOrigen: string, usuarioDestino: string)

  /** The server's answer to a transfer: a failure, or the quantity left at the origin. */
  datatype TransferReply = TransferFailed | OriginLeft(cantidad: int)

  datatype PatchOutcome = NotFound | Rejected | Applied

  predicate HasId(item: StockItem, id: string) {
    item.id == id
  }

  /** The lookup test of the removal and transfer handlers. */
  function IdIs(id: string): StockItem -> bool {
    (x: StockItem) => HasId(x, id)
  }

  class StockViewer {
    var stock: seq<StockItem>
    var todoElStock: seq<StockItem>
    var busqueda: string
    var fechaInicio: Option<int>
    var fechaFin: Option<int>
    var usuarios: seq<string>
    var cargandoUsuarios: bool

    /** The visible list is always an order-preserving sublist of the full list. */
    predicate Valid()
      reads this
    {
      IsSubsequence(stock, todoElStock)
    }

    constructor ()
      ensures Valid()
      ensures stock == [] && todoElStock == [] && busqueda == "" && fechaInicio == None && fechaFin == None
      ensures usuarios == [] && !cargandoUsuarios
    {
      stock, todoElStock := [], [];
      busqueda, fechaInicio, fechaFin := "", None, None;
      usuarios, cargandoUsuarios := [], false;
    }

    /** cargarStock: with a session and a server list, both lists become its positive entries;
        otherwise nothing changes. */
    method CargarStock(authenticated: bool, reply: Option<seq<StockItem>>)
      requires Valid()
      modifies this`stock, this`todoElStock
      ensures Valid()
      ensures authenticated && reply.Some? ==> stock == Available(reply.value) && todoElStock == stock
      ensures !(authenticated && reply.Some?) ==> stock == old(stock) && todoElStock == old(todoElStock)
    {
      if authenticated && reply.Some? {
        var filtrado := Available(reply.value);
        stock := filtrado;
        todoElStock := filtrado;
        SubsequenceReflexive(filtrado);
      }
    }

    /** cargarUsuarios: without a token nothing happens; otherwise the list becomes the other
        users, or empty when the request fails, and loading ends. */
    method CargarUsuarios(hasToken: bool, me: string, reply: Option<seq<string>>)
      modifies this`usuarios, this`cargandoUsuarios
      ensures !hasToken ==> usuarios == old(usuarios) && cargandoUsuarios == old(cargandoUsuarios)
      ensures hasToken ==> !cargandoUsuarios && usuarios == (if reply.Some? then OtherUsers(reply.value, me) else [])
    {
      if !hasToken {
        return;
      }
      cargandoUsuarios := true;
      if reply.Some? {
        usuarios := OtherUsers(reply.value, me);
      } else {
        usuarios := [];
      }
      cargandoUsuarios := false;
    }

    /** aplicarFiltros: the visible list is recomputed from the full list, which is unchanged. */
    method AplicarFiltros()
      requires Valid()
      modifies this`stock
      ensures Valid()
      ensures stock == StockFilter(todoElStock, busqueda, fechaInicio, fechaFin)
    {
      var stockFiltrado := todoElStock;
      var texto := busqueda;
      if Trim(texto) != "" {
        stockFiltrado := Filter(stockFiltrado, (x: StockItem) => CodeMatches(x, texto));
      }
      if fechaInicio.Some? && fechaFin.Some? {
        var desde, hasta := fechaInicio.value, fechaFin.value;
        stockFiltrado := Filter(stockFiltrado, (x: StockItem) => CreatedWithin(x, desde, hasta));
      }
      StockFilterSpec(todoElStock, busqueda, fechaInicio, fechaFin);
      stock := stockFiltrado;
    }

    /** limpiarFiltros: search and dates are cleared and the full list is shown. */
    method LimpiarFiltros()
      modifies this`busqueda, this`fechaInicio, this`fechaFin, this`stock
      ensures Valid()
      ensures busqueda == "" && fechaInicio == None && fechaFin == None
      ensures stock == todoElStock
    {
      fechaInicio, fechaFin := None, None;
      busqueda := "";
      stock := todoElStock;
      SubsequenceReflexive(stock);
    }

    /** eliminarRepuesto: an id absent from the visible list is an error and nothing changes; a
        failed request changes nothing; otherwise both lists take the same patch. */
    method EliminarRepuesto(id: string, reply: RemovalReply) returns (outcome: PatchOutcome)
      requires Valid()
      modifies this`stock, this`todoElStock
      ensures Valid()
      ensures outcome == NotFound <==> forall k :: 0 <= k < |old(stock)| ==> old(stock)[k].id != id
      ensures outcome == Rejected <==> outcome != NotFound && reply == RemovalFailed
      ensures outcome == Applied ==> stock == AfterRemoval(old(stock), id, reply) && todoElStock == AfterRemoval(old(todoElStock), id, reply)
      ensures outcome != Applied ==> stock == old(stock) && todoElStock == old(todoElStock)
    {
      var found := Find(stock, (x: StockItem) => HasId(x, id));
      if found.None? {
        return NotFound;
      }
      if reply == RemovalFailed {
        return Rejected;
      }
      ReconciliationKeepsSublist(stock, todoElStock, id, reply, 0);
      stock, todoElStock := AfterRemoval(stock, id, reply), AfterRemoval(todoElStock, id, reply);
      outcome := Applied;
    }

    /** realizarTransferencia: an id absent from the visible list is an error and no request is
        made; otherwise the request names the entry's code, and a successful reply patches both
        lists the same way. */
    method RealizarTransferencia(id: string, cantidadATransferir: int, usuarioDestino: string, me: string, reply: TransferReply)
      returns (request: Option<TransferRequest>)
      requires Valid()
      modifies this`stock, this`todoElStock
      ensures Valid()
      ensures request.None? <==> forall k :: 0 <= k < |old(stock)| ==> old(stock)[k].id != id
      ensures request.Some? ==>
                (exists k :: 0 <= k < |old(stock)| && old(stock)[k].id == id
                   && request.value == TransferRequest(old(stock)[k].codigo, cantidadATransferir, me, usuarioDestino))
      ensures request.Some? ==>
                Find(old(stock), IdIs(id)).Some?
                && request.value.codigo == old(stock)[Find(old(stock), IdIs(id)).value].codigo
      ensures request.Some? && reply.OriginLeft? ==>
                stock == AfterTransfer(old(stock), id, reply.cantidad) && todoElStock == AfterTransfer(old(todoElStock), id, reply.cantidad)
      ensures request.None? || reply == TransferFailed ==> stock == old(stock) && todoElStock == old(todoElStock)
    {
      var found := Find(stock, IdIs(id));
      if found.None? {
        return None;
      }
      var item := stock[found.value];
      request := Some(TransferRequest(item.codigo, cantidadATransferir, me, usuarioDestino));
      if reply.OriginLeft? {
        ReconciliationKeepsSublist(stock, todoElStock, id, RemovalFailed, reply.cantidad);
        stock, todoElStock := AfterTransfer(stock, id, reply.cantidad), AfterTransfer(todoElStock, id, reply.cantidad);
      }
    }
  }
}
