/** The personal-stock entry form: a part code typed against the catalog and the user's own
    stock, a part name that is locked once it comes from either list, a duplicate-name warning,
    and the checks that guard the submission of a part. */
module PartsStock {
  import opened Wrappers
  import opened Seqs
  import opened Text
  import opened Numbers
  import opened Inventory
  import opened Autocomplete

  function EntryCodigo(c: CatalogEntry): string {
    c.codigo
  }

  /** Codes compared as the form compares them: ignoring case. */
  predicate SameCode(a: string, b: string) {
    Lower(a) == Lower(b)
  }

  function StockCodeIs(code: string): StockItem -> bool {
    (x: StockItem) => SameCode(x.codigo, code)
  }

  function EntryCodeIs(code: string): CatalogEntry -> bool {
    (x: CatalogEntry) => SameCode(x.codigo, code)
  }

  /** validarCodigo: the code names, ignoring case, a catalog entry or an entry of the user's
      stock. */
  function ValidarCodigo(catalog: seq<CatalogEntry>, stock: seq<StockItem>, code: string): (r: bool)
    ensures r <==> (exists k :: 0 <= k < |catalog| && SameCode(catalog[k].codigo, code))
                   || (exists k :: 0 <= k < |stock| && SameCode(stock[k].codigo, code))
  {
    Find(catalog, EntryCodeIs(code)).Some? || Find(stock, StockCodeIs(code)).Some?
  }

  /** A stock entry that makes the typed name a duplicate: the same name once lower-cased and
      trimmed, under a code that differs from the current one (compared exactly). */
  predicate NameClash(item: StockItem, text: string, codigo: string) {
    Trim(Lower(item.nombre)) == Trim(Lower(text)) && item.codigo != codigo
  }

  function ClashesWith(text: string, codigo: string): StockItem -> bool {
    (x: StockItem) => NameClash(x, text, codigo)
  }

  /** The duplicate-name flag of handleCambioNombre. */
  function DuplicateName(stock: seq<StockItem>, text: string, codigo: string): (r: bool)
    ensures r <==> Trim(text) != "" && exists k :: 0 <= k < |stock| && NameClash(stock[k], text, codigo)
  {
    Trim(text) != "" && Find(stock, ClashesWith(text, codigo)).Some?
  }

  /** The part of the form a code change decides. */
  datatype CodeEdit = CodeEdit(codigo: string, nombre: string, bloqueado: bool,
                               sugerencias: seq<CatalogEntry>, mostrar: bool)

  /** What handleCambioCodigo leaves in the form. The code is stored trimmed. A code the user
      already holds, ignoring case, takes that entry's name, locks it and clears the panel,
      without consulting the catalog. Otherwise a non-empty code over a non-empty catalog lists
      the catalog entries containing it, ignoring case, in catalog order; and an exact catalog
      match, ignoring case, takes the catalog's name, locks it and clears the panel. In every
      other case the name is cleared and unlocked. */
  function CodeChange(stock: seq<StockItem>, catalog: seq<CatalogEntry>, text: string): CodeEdit
  {
    var codigo := Trim(text);
    match Find(stock, StockCodeIs(codigo))
    case Some(i) => CodeEdit(codigo, stock[i].nombre, true, [], false)
    case None => CatalogLookup(catalog, codigo)
  }

  /** The part of handleCambioCodigo that consults the catalog, for a code the user does not
      hold. */
  function CatalogLookup(catalog: seq<CatalogEntry>, codigo: string): CodeEdit {
    match Find(catalog, EntryCodeIs(codigo))
    case Some(j) => CodeEdit(codigo, catalog[j].nombre, true, [], false)
    case None =>
      var filtrados := if |codigo| >= 1 && |catalog| > 0 then Suggestions(catalog, EntryCodigo, codigo) else [];
      CodeEdit(codigo, "", false, filtrados, |filtrados| > 0)
  }

  /** The code is stored trimmed; the name is locked exactly when the code validates, and then
      the panel is empty and the name is that of the first stock match or, failing one, of the
      first catalog match; an unlocked name is empty and the panel lists the catalog entries
      containing a non-empty code, shown exactly when there are some. */
  lemma CodeChangeSpec(stock: seq<StockItem>, catalog: seq<CatalogEntry>, text: string)
    ensures CodeChange(stock, catalog, text).codigo == Trim(text)
    ensures CodeChange(stock, catalog, text).bloqueado <==> ValidarCodigo(catalog, stock, Trim(text))
    ensures CodeChange(stock, catalog, text).bloqueado ==>
              CodeChange(stock, catalog, text).sugerencias == [] && !CodeChange(stock, catalog, text).mostrar
    ensures Find(stock, StockCodeIs(Trim(text))).Some? ==>
              CodeChange(stock, catalog, text).nombre == stock[Find(stock, StockCodeIs(Trim(text))).value].nombre
    ensures Find(stock, StockCodeIs(Trim(text))).None? && Find(catalog, EntryCodeIs(Trim(text))).Some? ==>
              CodeChange(stock, catalog, text).nombre == catalog[Find(catalog, EntryCodeIs(Trim(text))).value].nombre
    ensures !CodeChange(stock, catalog, text).bloqueado ==>
              CodeChange(stock, catalog, text).nombre == ""
              && CodeChange(stock, catalog, text).sugerencias ==
                   (if Trim(text) != "" && |catalog| > 0 then Suggestions(catalog, EntryCodigo, Trim(text)) else [])
              && CodeChange(stock, catalog, text).mostrar == (|CodeChange(stock, catalog, text).sugerencias| > 0)
  {
  }

  /** A locked name always comes with a code the submission accepts. */
  lemma LockedCodeIsValid(stock: seq<StockItem>, catalog: seq<CatalogEntry>, text: string)
    requires CodeChange(stock, catalog, text).bloqueado
    ensures ValidarCodigo(catalog, stock, Trim(CodeChange(stock, catalog, text).codigo))
  {
    CodeChangeSpec(stock, catalog, text);
    TrimIdempotent(text);
  }

  /** While the name is unlocked, every suggestion contains the code but none is the code
      itself, ignoring case. */
  lemma OpenSuggestionsAreNotExact(stock: seq<StockItem>, catalog: seq<CatalogEntry>, text: string)
    requires !CodeChange(stock, catalog, text).bloqueado
    ensures forall k :: 0 <= k < |CodeChange(stock, catalog, text).sugerencias| ==>
              CodeChange(stock, catalog, text).sugerencias[k] in catalog
              && Contains(Lower(CodeChange(stock, catalog, text).sugerencias[k].codigo), Lower(Trim(text)))
              && !SameCode(CodeChange(stock, catalog, text).sugerencias[k].codigo, Trim(text))
  {
    CodeChangeSpec(stock, catalog, text);
    var r := CodeChange(stock, catalog, text);
    forall k | 0 <= k < |r.sugerencias|
      ensures r.sugerencias[k] in catalog && !SameCode(r.sugerencias[k].codigo, Trim(text))
    {
      var j :| 0 <= j < |catalog| && catalog[j] == r.sugerencias[k];
      assert !ValidarCodigo(catalog, stock, Trim(text));
    }
  }

  /** A suggestion taken from the catalog is a code the submission accepts. */
  lemma SelectedSuggestionIsValid(catalog: seq<CatalogEntry>, stock: seq<StockItem>, k: nat)
    requires k < |catalog|
    ensures ValidarCodigo(catalog, stock, catalog[k].codigo)
  {
    assert SameCode(catalog[k].codigo, catalog[k].codigo);
  }

  /** The three text fields of the form. */
  datatype RepuestoFields = RepuestoFields(codigo: string, nombre: string, cantidad: string)

  /** The part sent to the server. */
  datatype RepuestoPayload = RepuestoPayload(codigo: string, nombre: string, cantidad: int)

  datatype RepuestoError = MissingFields | QuantityNotPositive | UnknownCode

  predicate Filled(f: RepuestoFields) {
    Trim(f.codigo) != "" && Trim(f.nombre) != "" && f.cantidad != ""
  }

  /** The checks of agregarRepuesto, in order: a blank trimmed code or name or an empty
      quantity; a quantity that is not a number greater than zero; a trimmed code that
      validarCodigo refuses. The duplicate-name flag plays no part. The payload carries the
      trimmed code and name and the numeric quantity. */
  function ValidateRepuesto(catalog: seq<CatalogEntry>, stock: seq<StockItem>, f: RepuestoFields): (r: Result<RepuestoPayload, RepuestoError>)
    ensures r == Err(MissingFields) <==> !Filled(f)
    ensures r == Err(QuantityNotPositive) <==> Filled(f) && !PositiveQuantity(f.cantidad)
    ensures r == Err(UnknownCode) <==> Filled(f) && PositiveQuantity(f.cantidad) && !ValidarCodigo(catalog, stock, Trim(f.codigo))
    ensures r.Ok? ==> ValidarCodigo(catalog, stock, r.value.codigo) && r.value.cantidad > 0
                      && r.value == RepuestoPayload(Trim(f.codigo), Trim(f.nombre), ParseNumber(f.cantidad).value)
  {
    var codigoLimpio := Trim(f.codigo);
    var nombreLimpio := Trim(f.nombre);
    if codigoLimpio == "" || nombreLimpio == "" || f.cantidad == "" then Err(MissingFields)
    else
      var cantidadNumerica := ParseNumber(f.cantidad);
      if cantidadNumerica.None? || cantidadNumerica.value <= 0 then Err(QuantityNotPositive)
      else if !ValidarCodigo(catalog, stock, codigoLimpio) then Err(UnknownCode)
      else Ok(RepuestoPayload(codigoLimpio, nombreLimpio, cantidadNumerica.value))
  }

  /** A quantity made only of white space passes the required-field check, since that check does
      not trim it, and is then refused as a quantity of zero. */
  lemma BlankQuantityIsNotPositive(catalog: seq<CatalogEntry>, stock: seq<StockItem>, f: RepuestoFields)
    requires Trim(f.codigo) != "" && Trim(f.nombre) != ""
    requires f.cantidad != "" && Trim(f.cantidad) == ""
    ensures ValidateRepuesto(catalog, stock, f) == Err(QuantityNotPositive)
  {
    assert ParseNumber(f.cantidad) == Some(0);
  }

  /** A code that validates and a positive quantity are sent trimmed, whatever the name. */
  lemma PaddedEntryIsSentTrimmed(catalog: seq<CatalogEntry>, stock: seq<StockItem>, codigo: string, nombre: string, n: nat)
    requires n > 0 && Trim(nombre) != ""
    requires ValidarCodigo(catalog, stock, Trim(codigo)) && Trim(codigo) != ""
    ensures ValidateRepuesto(catalog, stock, RepuestoFields(" " + codigo + " ", nombre, NatToString(n)))
            == Ok(RepuestoPayload(Trim(codigo), Trim(nombre), n))
  {
    TrimPadded(codigo);
    ParseNatToString(n);
  }

  class StockForm {
    var codigo: string
    var nombre: string
    var cantidad: string
    var sugerencias: seq<CatalogEntry>
    var mostrarSugerencias: bool
    var codigosDisponibles: seq<CatalogEntry>
    var stockExistente: seq<StockItem>
    var nombreDuplicado: bool
    var cargandoCodigos: bool
    var nombreBloqueado: bool

    function Fields(): RepuestoFields
      reads this
    {
      RepuestoFields(codigo, nombre, cantidad)
    }

    function CodeState(): CodeEdit
      reads this
    {
      CodeEdit(codigo, nombre, nombreBloqueado, sugerencias, mostrarSugerencias)
    }

    constructor ()
      ensures Fields() == RepuestoFields("", "", "")
      ensures sugerencias == [] && !mostrarSugerencias && codigosDisponibles == [] && stockExistente == []
      ensures !nombreDuplicado && !cargandoCodigos && !nombreBloqueado
    {
      codigo, nombre, cantidad := "", "", "";
      sugerencias, mostrarSugerencias := [], false;
      codigosDisponibles, stockExistente := [], [];
      nombreDuplicado, cargandoCodigos, nombreBloqueado := false, false, false;
    }

    /** cargarCodigosDisponibles: without a token nothing is loaded; otherwise the catalog is the
        server's list, or empty when the request fails, and the loading flag ends false. */
    method CargarCodigosDisponibles(hasToken: bool, reply: Option<seq<CatalogEntry>>)
      modifies this`codigosDisponibles, this`cargandoCodigos
      ensures hasToken ==> codigosDisponibles == (if reply.Some? then reply.value else []) && !cargandoCodigos
      ensures !hasToken ==> codigosDisponibles == old(codigosDisponibles) && cargandoCodigos == old(cargandoCodigos)
    {
      if !hasToken {
        return;
      }
      cargandoCodigos := true;
      if reply.Some? {
        codigosDisponibles := reply.value;
      } else {
        codigosDisponibles := [];
      }
      cargandoCodigos := false;
    }

    /** cargarStockExistente: without a session nothing is loaded; otherwise the user's stock is
        the server's list as sent, or empty when the request fails. */
    method CargarStockExistente(hasSession: bool, reply: Option<seq<StockItem>>)
      modifies this`stockExistente
      ensures stockExistente == if !hasSession then old(stockExistente) else if reply.Some? then reply.value else []
    {
      if !hasSession {
        return;
      }
      if reply.Some? {
        stockExistente := reply.value;
      } else {
        stockExistente := [];
      }
    }

    /** handleCambioCodigo, step by step with its early return. */
    method HandleCambioCodigo(text: string)
      modifies this`codigo, this`nombre, this`nombreBloqueado, this`sugerencias, this`mostrarSugerencias
      ensures CodeState() == CodeChange(stockExistente, codigosDisponibles, text)
    {
      var codigoLimpio := Trim(text);
      codigo := codigoLimpio;
      nombre := "";
      nombreBloqueado := false;
      var existeEnStock := Find(stockExistente, StockCodeIs(codigoLimpio));
      if existeEnStock.Some? {
        BloquearNombre(stockExistente[existeEnStock.value].nombre);
        return;
      }
      ConsultarCatalogo();
    }

    /** The catalog step of handleCambioCodigo: suggestions for the stored code, then the exact
        catalog match that locks the name. */
    method ConsultarCatalogo()
      requires !nombreBloqueado && nombre == ""
      modifies this`nombre, this`nombreBloqueado, this`sugerencias, this`mostrarSugerencias
      ensures CodeState() == CatalogLookup(codigosDisponibles, codigo)
    {
      if |codigo| >= 1 && |codigosDisponibles| > 0 {
        var filtrados := Suggestions(codigosDisponibles, EntryCodigo, codigo);
        sugerencias := filtrados;
        mostrarSugerencias := |filtrados| > 0;
      } else {
        sugerencias := [];
        mostrarSugerencias := false;
      }
      var codigoEncontrado := Find(codigosDisponibles, EntryCodeIs(codigo));
      if codigoEncontrado.Some? {
        BloquearNombre(codigosDisponibles[codigoEncontrado.value].nombre);
      }
    }

    /** The name comes from a known entry: it is set and locked, and the panel is cleared. */
    method BloquearNombre(n: string)
      modifies this`nombre, this`nombreBloqueado, this`sugerencias, this`mostrarSugerencias
      ensures nombre == n && nombreBloqueado && sugerencias == [] && !mostrarSugerencias
    {
      nombre := n;
      nombreBloqueado := true;
      sugerencias := [];
      mostrarSugerencias := false;
    }

    /** handleCambioNombre: ignored while the name is locked; otherwise the name is stored and
        the duplicate flag recomputed against the user's stock and the current code. */
    method HandleCambioNombre(text: string)
      modifies this`nombre, this`nombreDuplicado
      ensures nombreBloqueado ==> nombre == old(nombre) && nombreDuplicado == old(nombreDuplicado)
      ensures !nombreBloqueado ==> nombre == text && nombreDuplicado == DuplicateName(stockExistente, text, codigo)
    {
      if nombreBloqueado {
        return;
      }
      nombre := text;
      if Trim(text) != "" {
        var nombreExiste := Find(stockExistente, ClashesWith(text, codigo));
        nombreDuplicado := nombreExiste.Some?;
      } else {
        nombreDuplicado := false;
      }
    }

    /** seleccionarSugerencia: code and name come from the chosen entry, the name is locked and
        the panel is cleared. The new state does not depend on the old one. */
    method SeleccionarSugerencia(sugerencia: CatalogEntry)
      modifies this`codigo, this`nombre, this`nombreBloqueado, this`sugerencias, this`mostrarSugerencias
      ensures CodeState() == CodeEdit(sugerencia.codigo, sugerencia.nombre, true, [], false)
    {
      codigo := sugerencia.codigo;
      nombre := sugerencia.nombre;
      nombreBloqueado := true;
      mostrarSugerencias := false;
      sugerencias := [];
    }

    /** agregarRepuesto: the checks decide the outcome and nothing is sent on a failure. When the
        server accepts the part, code, name and quantity are cleared, the name is unlocked and
        the user's stock is reloaded (empty when the reload fails). */
    method AgregarRepuesto(serverOk: bool, reload: Option<seq<StockItem>>)
      returns (r: Result<RepuestoPayload, RepuestoError>)
      modifies this`codigo, this`nombre, this`cantidad, this`nombreBloqueado, this`stockExistente
      ensures r == ValidateRepuesto(codigosDisponibles, old(stockExistente), old(Fields()))
      ensures r.Ok? && serverOk ==>
                codigo == "" && nombre == "" && cantidad == "" && !nombreBloqueado
                && stockExistente == (if reload.Some? then reload.value else [])
      ensures !(r.Ok? && serverOk) ==>
                codigo == old(codigo) && nombre == old(nombre) && cantidad == old(cantidad)
                && nombreBloqueado == old(nombreBloqueado) && stockExistente == old(stockExistente)
    {
      r := ValidateRepuesto(codigosDisponibles, stockExistente, Fields());
      if r.Ok? && serverOk {
        ResetAfterAdd(reload);
      }
    }

    /** The reset after an accepted part, with the reload of the user's stock. */
    method ResetAfterAdd(reload: Option<seq<StockItem>>)
      modifies this`codigo, this`nombre, this`cantidad, this`nombreBloqueado, this`stockExistente
      ensures codigo == "" && nombre == "" && cantidad == "" && !nombreBloqueado
      ensures stockExistente == if reload.Some? then reload.value else []
    {
      codigo, nombre, cantidad := "", "", "";
      nombreBloqueado := false;
      if reload.Some? {
        stockExistente := reload.value;
      } else {
        stockExistente := [];
      }
    }
  }

  /** Choosing the same suggestion twice leaves the form as choosing it once. */
  method SelectTwice(form: StockForm, sugerencia: CatalogEntry) returns (once: CodeEdit, twice: CodeEdit)
    modifies form
    ensures once == twice == CodeEdit(sugerencia.codigo, sugerencia.nombre, true, [], false)
  {
    form.SeleccionarSugerencia(sugerencia);
    once := form.CodeState();
    form.SeleccionarSugerencia(sugerencia);
    twice := form.CodeState();
  }
}
