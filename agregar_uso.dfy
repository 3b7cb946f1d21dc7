/** The usage-entry form: seven text fields, the user's available stock, four suggestion
    panels, and the ordered checks that guard the submission of a usage record. */
module RecordUsage {
  import opened Wrappers
  import opened Seqs
  import opened Text
  import opened Numbers
  import opened Inventory
  import opened Autocomplete

  /** The option lists of the constrained fields. */
  datatype FormOptions = FormOptions(maquinas: seq<string>, clientes: seq<string>, tiposConsumo: seq<string>)

  /** The lists the form declares. */
  const DeclaredOptions: FormOptions :=
    FormOptions(["Moneda", "Billete"],
                ["Walmart", "Loomis", "Monticello", "Enjoy", "BCI Talca", "BCI Arica"],
                ["Consumo", "Facturable"])

  function Codigo(item: StockItem): string {
    item.codigo
  }

  /** The seven text fields of the form. */
  datatype UsoFields = UsoFields(codigo: string, cliente: string, maquina: string, lugarUso: string,
                                 cantidad: string, nombreRepuesto: string, tipoConsumo: string)

  /** The record sent to the server. */
  datatype UsoPayload = UsoPayload(codigo: string, nombre: string, maquina: string, lugarUso: string,
                                   cliente: string, cantidad: int, tipoConsumo: string)

  datatype UsoError =
    | NotAuthenticated
    | MissingFields
    | QuantityNotPositive
    | InvalidCliente
    | InvalidMaquina
    | InvalidTipoConsumo
    | NotInStock
    | InsufficientStock(available: int)

  predicate AllFilled(f: UsoFields) {
    f.codigo != "" && f.cliente != "" && f.maquina != "" && f.lugarUso != "" && f.cantidad != "" && f.tipoConsumo != ""
  }

  function HasCodigo(codigo: string): StockItem -> bool {
    (x: StockItem) => x.codigo == codigo
  }

  /** The checks of handleGuardar, in order: authentication, required fields, positive
      quantity, client, machine type, consumption type, presence in stock and available
      quantity. The first failure is reported and nothing is sent; a payload is produced only
      when every check passes, and its quantity is at most what the first stock entry with that
      exact code holds. */
  function ValidateUso(authenticated: bool, opciones: FormOptions, f: UsoFields, stock: seq<StockItem>): (r: Result<UsoPayload, UsoError>)
    ensures r == Err(NotAuthenticated) <==> !authenticated
    ensures r == Err(MissingFields) <==> authenticated && !AllFilled(f)
    ensures r == Err(QuantityNotPositive) <==> authenticated && AllFilled(f) && !PositiveQuantity(f.cantidad)
    ensures r == Err(InvalidCliente) <==>
              authenticated && AllFilled(f) && PositiveQuantity(f.cantidad) && !IsOption(opciones.clientes, f.cliente)
    ensures r == Err(InvalidMaquina) <==>
              authenticated && AllFilled(f) && PositiveQuantity(f.cantidad) && IsOption(opciones.clientes, f.cliente)
              && !IsOption(opciones.maquinas, f.maquina)
    ensures r == Err(InvalidTipoConsumo) <==>
              authenticated && AllFilled(f) && PositiveQuantity(f.cantidad) && IsOption(opciones.clientes, f.cliente)
              && IsOption(opciones.maquinas, f.maquina) && !IsOption(opciones.tiposConsumo, f.tipoConsumo)
    ensures r == Err(NotInStock) <==>
              authenticated && AllFilled(f) && PositiveQuantity(f.cantidad) && IsOption(opciones.clientes, f.cliente)
              && IsOption(opciones.maquinas, f.maquina) && IsOption(opciones.tiposConsumo, f.tipoConsumo)
              && forall k :: 0 <= k < |stock| ==> stock[k].codigo != f.codigo
    ensures r.Ok? ==>
              authenticated && AllFilled(f) && IsOption(opciones.clientes, f.cliente)
              && IsOption(opciones.maquinas, f.maquina) && IsOption(opciones.tiposConsumo, f.tipoConsumo)
              && (exists k :: 0 <= k < |stock| && stock[k].codigo == f.codigo
                    && (forall j :: 0 <= j < k ==> stock[j].codigo != f.codigo)
                    && r.value == UsoPayload(f.codigo, if f.nombreRepuesto != "" then f.nombreRepuesto else stock[k].nombre,
                                             f.maquina, f.lugarUso, f.cliente, ParseNumber(f.cantidad).value, f.tipoConsumo)
                    && 0 < r.value.cantidad <= stock[k].cantidad)
    ensures r.Err? && r.error.InsufficientStock? ==>
              exists k :: 0 <= k < |stock| && stock[k].codigo == f.codigo
                 && (forall j :: 0 <= j < k ==> stock[j].codigo != f.codigo)
                 && r.error.available == stock[k].cantidad < ParseNumber(f.cantidad).value
  {
    match FormCheck(authenticated, opciones, f)
    case Err(e) => Err(e)
    case Ok(cantidad) => StockCheck(stock, f, cantidad)
  }

  /** The checks of handleGuardar that do not look at the stock, in order; on success the
      numeric quantity. */
  function FormCheck(authenticated: bool, opciones: FormOptions, f: UsoFields): (r: Result<int, UsoError>)
    ensures r == Err(NotAuthenticated) <==> !authenticated
    ensures r == Err(MissingFields) <==> authenticated && !AllFilled(f)
    ensures r == Err(QuantityNotPositive) <==> authenticated && AllFilled(f) && !PositiveQuantity(f.cantidad)
    ensures r == Err(InvalidCliente) <==>
              authenticated && AllFilled(f) && PositiveQuantity(f.cantidad) && !IsOption(opciones.clientes, f.cliente)
    ensures r == Err(InvalidMaquina) <==>
              authenticated && AllFilled(f) && PositiveQuantity(f.cantidad) && IsOption(opciones.clientes, f.cliente)
              && !IsOption(opciones.maquinas, f.maquina)
    ensures r == Err(InvalidTipoConsumo) <==>
              authenticated && AllFilled(f) && PositiveQuantity(f.cantidad) && IsOption(opciones.clientes, f.cliente)
              && IsOption(opciones.maquinas, f.maquina) && !IsOption(opciones.tiposConsumo, f.tipoConsumo)
    ensures r.Ok? <==>
              authenticated && AllFilled(f) && PositiveQuantity(f.cantidad) && IsOption(opciones.clientes, f.cliente)
              && IsOption(opciones.maquinas, f.maquina) && IsOption(opciones.tiposConsumo, f.tipoConsumo)
    ensures r.Ok? ==> r.value == ParseNumber(f.cantidad).value
  {
    if !authenticated then Err(NotAuthenticated)
    else if !AllFilled(f) then Err(MissingFields)
    else if !PositiveQuantity(f.cantidad) then Err(QuantityNotPositive)
    else if !IsOption(opciones.clientes, f.cliente) then Err(InvalidCliente)
    else if !IsOption(opciones.maquinas, f.maquina) then Err(InvalidMaquina)
    else if !IsOption(opciones.tiposConsumo, f.tipoConsumo) then Err(InvalidTipoConsumo)
    else Ok(ParseNumber(f.cantidad).value)
  }

  /** The stock checks of handleGuardar: the first entry whose code is exactly the typed one
      must exist and hold at least the quantity; the payload falls back to that entry's name. */
  function StockCheck(stock: seq<StockItem>, f: UsoFields, cantidad: int): (r: Result<UsoPayload, UsoError>)
    ensures r == Err(NotInStock) <==> forall k :: 0 <= k < |stock| ==> stock[k].codigo != f.codigo
    ensures r.Err? ==> r.error == NotInStock || r.error.InsufficientStock?
    ensures r.Ok? ==>
              exists k :: 0 <= k < |stock| && stock[k].codigo == f.codigo
                 && (forall j :: 0 <= j < k ==> stock[j].codigo != f.codigo)
                 && r.value == UsoPayload(f.codigo, if f.nombreRepuesto != "" then f.nombreRepuesto else stock[k].nombre,
                                          f.maquina, f.lugarUso, f.cliente, cantidad, f.tipoConsumo)
                 && r.value.cantidad <= stock[k].cantidad
    ensures r.Err? && r.error.InsufficientStock? ==>
              exists k :: 0 <= k < |stock| && stock[k].codigo == f.codigo
                 && (forall j :: 0 <= j < k ==> stock[j].codigo != f.codigo)
                 && r.error.available == stock[k].cantidad < cantidad
  {
    match Find(stock, HasCodigo(f.codigo))
    case None => Err(NotInStock)
    case Some(k) =>
      var item := stock[k];
      if cantidad > item.cantidad then Err(InsufficientStock(item.cantidad))
      else Ok(UsoPayload(f.codigo, if f.nombreRepuesto != "" then f.nombreRepuesto else item.nombre,
                         f.maquina, f.lugarUso, f.cliente, cantidad, f.tipoConsumo))
  }

  /** The code is matched exactly: a stock entry whose code differs only in case is not found. */
  lemma CodeMatchIsCaseSensitive(opciones: FormOptions, f: UsoFields, item: StockItem)
    requires AllFilled(f) && PositiveQuantity(f.cantidad)
    requires IsOption(opciones.clientes, f.cliente) && IsOption(opciones.maquinas, f.maquina)
    requires IsOption(opciones.tiposConsumo, f.tipoConsumo)
    requires item.codigo != f.codigo
    ensures ValidateUso(true, opciones, f, [item]) == Err(NotInStock)
  {
  }

  /** At most one of the four suggestion panels is open. */
  predicate AtMostOne(a: bool, b: bool, c: bool, d: bool) {
    !(a && b) && !(a && c) && !(a && d) && !(b && c) && !(b && d) && !(c && d)
  }

  class UsageForm {
    const opciones: FormOptions
    var codigo: string
    var cliente: string
    var maquina: string
    var lugarUso: string
    var cantidad: string
    var nombreRepuesto: string
    var tipoConsumo: string
    var stockDisponible: seq<StockItem>
    var sugerenciasCodigo: seq<StockItem>
    var sugerenciasMaquina: seq<string>
    var sugerenciasCliente: seq<string>
    var sugerenciasTipoConsumo: seq<string>
    var mostrarSugCodigo: bool
    var mostrarSugMaquina: bool
    var mostrarSugCliente: bool
    var mostrarSugTipoConsumo: bool

    function Fields(): UsoFields
      reads this
    {
      UsoFields(codigo, cliente, maquina, lugarUso, cantidad, nombreRepuesto, tipoConsumo)
    }

    predicate AtMostOnePanel()
      reads this
    {
      AtMostOne(mostrarSugCodigo, mostrarSugMaquina, mostrarSugCliente, mostrarSugTipoConsumo)
    }

    constructor ()
      ensures opciones == DeclaredOptions
      ensures Fields() == UsoFields("", "", "", "", "", "", "") && stockDisponible == []
      ensures sugerenciasCodigo == [] && sugerenciasMaquina == [] && sugerenciasCliente == [] && sugerenciasTipoConsumo == []
      ensures !mostrarSugCodigo && !mostrarSugMaquina && !mostrarSugCliente && !mostrarSugTipoConsumo
      ensures AtMostOnePanel()
    {
      opciones := DeclaredOptions;
      codigo, cliente, maquina, lugarUso, cantidad, nombreRepuesto, tipoConsumo := "", "", "", "", "", "", "";
      stockDisponible := [];
      sugerenciasCodigo, sugerenciasMaquina, sugerenciasCliente, sugerenciasTipoConsumo := [], [], [], [];
      mostrarSugCodigo, mostrarSugMaquina, mostrarSugCliente, mostrarSugTipoConsumo := false, false, false, false;
    }

    /** The stock load on focus: with a session and a server list, the available stock becomes
        its positive entries; otherwise nothing changes. */
    method CargarStock(authenticated: bool, reply: Option<seq<StockItem>>)
      modifies this`stockDisponible
      ensures stockDisponible == if authenticated && reply.Some? then Available(reply.value) else old(stockDisponible)
    {
      if authenticated && reply.Some? {
        stockDisponible := Available(reply.value);
      }
    }

    /** handleCodigoChange: the code is stored and the part name cleared; an empty code hides
        its panel only; otherwise the panel lists the matching stock entries and the other
        panels close. */
    method HandleCodigoChange(text: string)
      requires AtMostOnePanel()
      modifies this`codigo, this`nombreRepuesto, this`sugerenciasCodigo
      modifies this`mostrarSugCodigo, this`mostrarSugMaquina, this`mostrarSugCliente, this`mostrarSugTipoConsumo
      ensures AtMostOnePanel()
      ensures codigo == text && nombreRepuesto == ""
      ensures text == "" ==>
                (sugerenciasCodigo == [] && !mostrarSugCodigo && mostrarSugMaquina == old(mostrarSugMaquina)
                 && mostrarSugCliente == old(mostrarSugCliente) && mostrarSugTipoConsumo == old(mostrarSugTipoConsumo))
      ensures text != "" ==>
                (sugerenciasCodigo == Suggestions(stockDisponible, Codigo, text) && mostrarSugCodigo == (|sugerenciasCodigo| > 0)
                 && !mostrarSugMaquina && !mostrarSugCliente && !mostrarSugTipoConsumo)
    {
      codigo := text;
      nombreRepuesto := "";
      if |text| < 1 {
        sugerenciasCodigo := [];
        mostrarSugCodigo := false;
        return;
      }
      var sugerencias := Suggestions(stockDisponible, Codigo, text);
      sugerenciasCodigo := sugerencias;
      mostrarSugCodigo := |sugerencias| > 0;
      mostrarSugMaquina, mostrarSugCliente, mostrarSugTipoConsumo := false, false, false;
    }

    /** seleccionarCodigo: code and part name are set and only the code panel closes. */
    method SeleccionarCodigo(codigoSel: string, nombreSel: string)
      requires AtMostOnePanel()
      modifies this`codigo, this`nombreRepuesto, this`mostrarSugCodigo
      ensures AtMostOnePanel()
      ensures codigo == codigoSel && nombreRepuesto == nombreSel && !mostrarSugCodigo
    {
      codigo := codigoSel;
      nombreRepuesto := nombreSel;
      mostrarSugCodigo := false;
    }

    /** handleClienteChange: a keystroke that is neither empty nor the beginning of a client
        changes nothing; an empty text hides the client panel only; otherwise the panel lists
        the matching clients and the other panels close. */
    method HandleClienteChange(text: string)
      requires AtMostOnePanel()
      modifies this`cliente, this`sugerenciasCliente
      modifies this`mostrarSugCodigo, this`mostrarSugMaquina, this`mostrarSugCliente, this`mostrarSugTipoConsumo
      ensures AtMostOnePanel()
      ensures OptionKeystroke(opciones.clientes, text, false) == Rejected ==>
                (cliente == old(cliente) && sugerenciasCliente == old(sugerenciasCliente)
                 && mostrarSugCliente == old(mostrarSugCliente) && mostrarSugCodigo == old(mostrarSugCodigo)
                 && mostrarSugMaquina == old(mostrarSugMaquina) && mostrarSugTipoConsumo == old(mostrarSugTipoConsumo))
      ensures OptionKeystroke(opciones.clientes, text, false) == Cleared ==>
                (cliente == "" && sugerenciasCliente == [] && !mostrarSugCliente && mostrarSugCodigo == old(mostrarSugCodigo)
                 && mostrarSugMaquina == old(mostrarSugMaquina) && mostrarSugTipoConsumo == old(mostrarSugTipoConsumo))
      ensures OptionKeystroke(opciones.clientes, text, false).Suggest? ==>
                (cliente == text && sugerenciasCliente == OptionKeystroke(opciones.clientes, text, false).sugerencias
                 && mostrarSugCliente == (|sugerenciasCliente| > 0)
                 && !mostrarSugCodigo && !mostrarSugMaquina && !mostrarSugTipoConsumo)
    {
      var effect := OptionKeystroke(opciones.clientes, text, false);
      if effect == Rejected {
        return;
      }
      cliente := text;
      if !effect.Suggest? {
        sugerenciasCliente := [];
        mostrarSugCliente := false;
        return;
      }
      sugerenciasCliente := effect.sugerencias;
      mostrarSugCliente := |effect.sugerencias| > 0;
      mostrarSugCodigo, mostrarSugMaquina, mostrarSugTipoConsumo := false, false, false;
    }

    /** seleccionarCliente: the client is set and only its panel closes. */
    method SeleccionarCliente(valor: string)
      requires AtMostOnePanel()
      modifies this`cliente, this`mostrarSugCliente
      ensures AtMostOnePanel()
      ensures cliente == valor && !mostrarSugCliente
    {
      cliente := valor;
      mostrarSugCliente := false;
    }

    /** handleMaquinaChange: the same guard and panel rules as for the client, over the
        machine types. */
    method HandleMaquinaChange(text: string)
      requires AtMostOnePanel()
      modifies this`maquina, this`sugerenciasMaquina
      modifies this`mostrarSugCodigo, this`mostrarSugMaquina, this`mostrarSugCliente, this`mostrarSugTipoConsumo
      ensures AtMostOnePanel()
      ensures OptionKeystroke(opciones.maquinas, text, false) == Rejected ==>
                (maquina == old(maquina) && sugerenciasMaquina == old(sugerenciasMaquina)
                 && mostrarSugMaquina == old(mostrarSugMaquina) && mostrarSugCodigo == old(mostrarSugCodigo)
                 && mostrarSugCliente == old(mostrarSugCliente) && mostrarSugTipoConsumo == old(mostrarSugTipoConsumo))
      ensures OptionKeystroke(opciones.maquinas, text, false) == Cleared ==>
                (maquina == "" && sugerenciasMaquina == [] && !mostrarSugMaquina && mostrarSugCodigo == old(mostrarSugCodigo)
                 && mostrarSugCliente == old(mostrarSugCliente) && mostrarSugTipoConsumo == old(mostrarSugTipoConsumo))
      ensures OptionKeystroke(opciones.maquinas, text, false).Suggest? ==>
                (maquina == text && sugerenciasMaquina == OptionKeystroke(opciones.maquinas, text, false).sugerencias
                 && mostrarSugMaquina == (|sugerenciasMaquina| > 0)
                 && !mostrarSugCodigo && !mostrarSugCliente && !mostrarSugTipoConsumo)
    {
      var effect := OptionKeystroke(opciones.maquinas, text, false);
      if effect == Rejected {
        return;
      }
      maquina := text;
      if !effect.Suggest? {
        sugerenciasMaquina := [];
        mostrarSugMaquina := false;
        return;
      }
      sugerenciasMaquina := effect.sugerencias;
      mostrarSugMaquina := |effect.sugerencias| > 0;
      mostrarSugCodigo, mostrarSugCliente, mostrarSugTipoConsumo := false, false, false;
    }

    /** seleccionarMaquina: the machine type is set and only its panel closes. */
    method SeleccionarMaquina(valor: string)
      requires AtMostOnePanel()
      modifies this`maquina, this`mostrarSugMaquina
      ensures AtMostOnePanel()
      ensures maquina == valor && !mostrarSugMaquina
    {
      maquina := valor;
      mostrarSugMaquina := false;
    }

    /** handleTipoConsumoChange: the same guard as the other option fields, but an empty text
        shows every consumption type in declared order; in both accepted cases the other
        panels close. */
    method HandleTipoConsumoChange(text: string)
      requires AtMostOnePanel()
      modifies this`tipoConsumo, this`sugerenciasTipoConsumo
      modifies this`mostrarSugCodigo, this`mostrarSugMaquina, this`mostrarSugCliente, this`mostrarSugTipoConsumo
      ensures AtMostOnePanel()
      ensures OptionKeystroke(opciones.tiposConsumo, text, true) == Rejected ==>
                (tipoConsumo == old(tipoConsumo) && sugerenciasTipoConsumo == old(sugerenciasTipoConsumo)
                 && mostrarSugTipoConsumo == old(mostrarSugTipoConsumo) && mostrarSugCodigo == old(mostrarSugCodigo)
                 && mostrarSugMaquina == old(mostrarSugMaquina) && mostrarSugCliente == old(mostrarSugCliente))
      ensures OptionKeystroke(opciones.tiposConsumo, text, true) == ShowAll ==>
                (tipoConsumo == "" && sugerenciasTipoConsumo == opciones.tiposConsumo && mostrarSugTipoConsumo)
      ensures OptionKeystroke(opciones.tiposConsumo, text, true).Suggest? ==>
                (tipoConsumo == text && sugerenciasTipoConsumo == OptionKeystroke(opciones.tiposConsumo, text, true).sugerencias
                 && mostrarSugTipoConsumo == (|sugerenciasTipoConsumo| > 0))
      ensures OptionKeystroke(opciones.tiposConsumo, text, true) != Rejected ==>
                !mostrarSugCodigo && !mostrarSugMaquina && !mostrarSugCliente
    {
      var effect := OptionKeystroke(opciones.tiposConsumo, text, true);
      if effect == Rejected {
        return;
      }
      tipoConsumo := text;
      if !effect.Suggest? {
        sugerenciasTipoConsumo := opciones.tiposConsumo;
        mostrarSugTipoConsumo := true;
      } else {
        sugerenciasTipoConsumo := effect.sugerencias;
        mostrarSugTipoConsumo := |effect.sugerencias| > 0;
      }
      mostrarSugCodigo, mostrarSugMaquina, mostrarSugCliente := false, false, false;
    }

    /** handleTipoConsumoFocus: every consumption type is shown and the other panels close. */
    method HandleTipoConsumoFocus()
      modifies this`sugerenciasTipoConsumo
      modifies this`mostrarSugCodigo, this`mostrarSugMaquina, this`mostrarSugCliente, this`mostrarSugTipoConsumo
      ensures AtMostOnePanel()
      ensures sugerenciasTipoConsumo == opciones.tiposConsumo && mostrarSugTipoConsumo
      ensures !mostrarSugCodigo && !mostrarSugMaquina && !mostrarSugCliente
    {
      sugerenciasTipoConsumo := opciones.tiposConsumo;
      mostrarSugTipoConsumo := true;
      mostrarSugCodigo, mostrarSugMaquina, mostrarSugCliente := false, false, false;
    }

    /** seleccionarTipoConsumo: the consumption type is set and only its panel closes. */
    method SeleccionarTipoConsumo(valor: string)
      requires AtMostOnePanel()
      modifies this`tipoConsumo, this`mostrarSugTipoConsumo
      ensures AtMostOnePanel()
      ensures tipoConsumo == valor && !mostrarSugTipoConsumo
    {
      tipoConsumo := valor;
      mostrarSugTipoConsumo := false;
    }

    /** cerrarTodasLasSugerencias: every panel closes; nothing else changes. */
    method CerrarTodasLasSugerencias()
      modifies this`mostrarSugCodigo, this`mostrarSugMaquina, this`mostrarSugCliente, this`mostrarSugTipoConsumo
      ensures AtMostOnePanel()
      ensures !mostrarSugCodigo && !mostrarSugMaquina && !mostrarSugCliente && !mostrarSugTipoConsumo
    {
      mostrarSugCodigo, mostrarSugMaquina, mostrarSugCliente, mostrarSugTipoConsumo := false, false, false, false;
    }

    /** handleGuardar: the checks decide the outcome and nothing is sent on a failure; when the
        server accepts the record all seven fields are cleared and the available stock is
        reloaded when the reload succeeds. */
    method HandleGuardar(authenticated: bool, serverOk: bool, reload: Option<seq<StockItem>>)
      returns (r: Result<UsoPayload, UsoError>)
      modifies this`codigo, this`cliente, this`maquina, this`lugarUso, this`cantidad, this`nombreRepuesto, this`tipoConsumo
      modifies this`stockDisponible
      ensures r == ValidateUso(authenticated, opciones, old(Fields()), old(stockDisponible))
      ensures r.Ok? && serverOk ==> Fields() == UsoFields("", "", "", "", "", "", "")
      ensures r.Ok? && serverOk && reload.Some? ==> stockDisponible == Available(reload.value)
      ensures !(r.Ok? && serverOk) ==> Fields() == old(Fields())
      ensures !(r.Ok? && serverOk && reload.Some?) ==> stockDisponible == old(stockDisponible)
    {
      r := ValidateUso(authenticated, opciones, Fields(), stockDisponible);
      if r.Ok? && serverOk {
        ClearAfterSave(reload);
      }
    }

    /** The reset after a saved record: the seven fields are cleared and the available stock
        is reloaded when the reload succeeds. */
    method ClearAfterSave(reload: Option<seq<StockItem>>)
      modifies this`codigo, this`cliente, this`maquina, this`lugarUso, this`cantidad, this`nombreRepuesto, this`tipoConsumo
      modifies this`stockDisponible
      ensures Fields() == UsoFields("", "", "", "", "", "", "")
      ensures stockDisponible == if reload.Some? then Available(reload.value) else old(stockDisponible)
    {
      codigo, cliente, maquina, lugarUso, cantidad, nombreRepuesto, tipoConsumo := "", "", "", "", "", "", "";
      if reload.Some? {
        stockDisponible := Available(reload.value);
      }
    }
  }
}
