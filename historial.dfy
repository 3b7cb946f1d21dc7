/** The usage-history screen: the loaded usage records, the filter choices derived from them,
    the conjunctive filters, the consumption-type editor and the report outcome. */
module UsageHistory {
  import opened Wrappers
  import opened Seqs
  import opened Text
  import opened Numbers
  import Toasts

  /** One recorded usage; a field the server left out is the empty string, and `fecha` is the
      day of the usage as a day number. */
  datatype UsageRecord = UsageRecord(id: string, codigo: string, lugarUso: string, tipoConsumo: string, fecha: int)

  // Distinct, sorted filter choices

  predicate StrictlySorted(s: seq<string>) {
    forall i, j :: 0 <= i < j < |s| ==> Less(s[i], s[j])
  }

  /** `x` placed into a strictly sorted list, unless it is already there. */
  function Insert(s: seq<string>, x: string): (r: seq<string>)
    requires StrictlySorted(s)
    ensures StrictlySorted(r)
    ensures forall y :: y in r <==> y in s || y == x
  {
    if s == [] then [x]
    else if x == s[0] then s
    else if Less(x, s[0]) then
      forall j | 0 < j < |s| ensures Less(x, s[j]) {
        LessTransitive(x, s[0], s[j]);
      }
      [x] + s
    else
      LessTotal(x, s[0]);
      var tail := Insert(s[1..], x);
      assert forall j :: 0 <= j < |tail| ==> tail[j] in s[1..] || tail[j] == x;
      [s[0]] + tail
  }

  /** The non-empty values, without repetitions, in the default sort order: what
      `[...new Set(values.filter(Boolean))].sort()` yields. */
  function SortedDistinct(values: seq<string>): (r: seq<string>)
    ensures StrictlySorted(r)
    ensures forall v :: v in r <==> v in values && v != ""
  {
    if values == [] then []
    else if values[0] == "" then SortedDistinct(values[1..])
    else Insert(SortedDistinct(values[1..]), values[0])
  }

  /** A strictly sorted list repeats nothing. */
  lemma StrictlySortedIsDistinct(s: seq<string>)
    requires StrictlySorted(s)
    ensures forall i, j :: 0 <= i < |s| && 0 <= j < |s| && i != j ==> s[i] != s[j]
  {
    forall i, j | 0 <= i < |s| && 0 <= j < |s| && i != j
      ensures s[i] != s[j]
    {
      LessIrreflexive(s[i]);
    }
  }

  function Locales(records: seq<UsageRecord>): seq<string> {
    SortedDistinct(Map(records, (u: UsageRecord) => u.lugarUso))
  }

  function Codes(records: seq<UsageRecord>): seq<string> {
    SortedDistinct(Map(records, (u: UsageRecord) => u.codigo))
  }

  /** The place choices are exactly the places some record names, each once, sorted. */
  lemma LocalesSpec(records: seq<UsageRecord>)
    ensures StrictlySorted(Locales(records))
    ensures forall v :: v in Locales(records) <==> v != "" && exists k :: 0 <= k < |records| && records[k].lugarUso == v
  {
    var places := Map(records, (u: UsageRecord) => u.lugarUso);
    forall v
      ensures v in places <==> exists k :: 0 <= k < |records| && records[k].lugarUso == v
    {
      if v in places {
        var k :| 0 <= k < |places| && places[k] == v;
        assert records[k].lugarUso == v;
      }
    }
  }

  /** The code choices are exactly the codes some record names, each once, sorted. */
  lemma CodesSpec(records: seq<UsageRecord>)
    ensures StrictlySorted(Codes(records))
    ensures forall v :: v in Codes(records) <==> v != "" && exists k :: 0 <= k < |records| && records[k].codigo == v
  {
    var codes := Map(records, (u: UsageRecord) => u.codigo);
    forall v
      ensures v in codes <==> exists k :: 0 <= k < |records| && records[k].codigo == v
    {
      if v in codes {
        var k :| 0 <= k < |codes| && codes[k] == v;
        assert records[k].codigo == v;
      }
    }
  }

  // Filters

  datatype HistoryFilters = HistoryFilters(fechaInicio: Option<int>, fechaFin: Option<int>, local: string, codigo: string, tipo: string)

  /** A text filter on a record field: the field is present and contains the filter text,
      ignoring case. */
  predicate FieldMatches(field: string, filter: string) {
    field != "" && Contains(Lower(field), Lower(filter))
  }

  predicate DateActive(f: HistoryFilters) {
    f.fechaInicio.Some? && f.fechaFin.Some?
  }

  predicate WithinDates(u: UsageRecord, f: HistoryFilters)
    requires DateActive(f)
  {
    f.fechaInicio.value <= u.fecha <= f.fechaFin.value
  }

  /** A record passes every active filter; a text filter is active when it is not empty. */
  predicate Keep(u: UsageRecord, f: HistoryFilters) {
    (DateActive(f) ==> WithinDates(u, f))
    && (f.local != "" ==> FieldMatches(u.lugarUso, f.local))
    && (f.codigo != "" ==> FieldMatches(u.codigo, f.codigo))
    && (f.tipo != "" ==> FieldMatches(u.tipoConsumo, f.tipo))
  }

  function ByDates(s: seq<UsageRecord>, f: HistoryFilters): seq<UsageRecord> {
    if DateActive(f) then Filter(s, (u: UsageRecord) => DateActive(f) && WithinDates(u, f)) else s
  }

  function ByField(s: seq<UsageRecord>, field: UsageRecord -> string, filter: string): seq<UsageRecord> {
    if filter != "" then Filter(s, (u: UsageRecord) => FieldMatches(field(u), filter)) else s
  }

  function Lugar(u: UsageRecord): string { u.lugarUso }
  function Codigo(u: UsageRecord): string { u.codigo }
  function Tipo(u: UsageRecord): string { u.tipoConsumo }

  /** The list aplicarFiltro shows: dates, then place, then code, then type, each filter
      applied only when active. */
  function HistoryFilter(all: seq<UsageRecord>, f: HistoryFilters): seq<UsageRecord> {
    ByField(ByField(ByField(ByDates(all, f), Lugar, f.local), Codigo, f.codigo), Tipo, f.tipo)
  }

  /** One conditional filter step on top of a filter by `p` is a single filter by `p` and the
      step's condition. */
  lemma ByFieldStep(all: seq<UsageRecord>, p: UsageRecord -> bool, field: UsageRecord -> string, filter: string, q: UsageRecord -> bool)
    requires forall u :: q(u) == (p(u) && (filter != "" ==> FieldMatches(field(u), filter)))
    ensures ByField(Filter(all, p), field, filter) == Filter(all, q)
  {
    if filter != "" {
      FilterFilter(all, p, (u: UsageRecord) => FieldMatches(field(u), filter));
      FilterExtensional(all, (u: UsageRecord) => p(u) && FieldMatches(field(u), filter), q);
    } else {
      FilterExtensional(all, p, q);
    }
  }

  /** The successive filters of aplicarFiltro amount to one filter by the conjunction of the
      active conditions, so the result is an order-preserving sublist of the full list. */
  lemma HistoryFilterIsConjunction(all: seq<UsageRecord>, f: HistoryFilters)
    ensures HistoryFilter(all, f) == Filter(all, (u: UsageRecord) => Keep(u, f))
    ensures IsSubsequence(HistoryFilter(all, f), all)
    ensures forall u :: u in HistoryFilter(all, f) <==> u in all && Keep(u, f)
  {
    var p0 := (u: UsageRecord) => DateActive(f) ==> WithinDates(u, f);
    var p1 := (u: UsageRecord) => p0(u) && (f.local != "" ==> FieldMatches(u.lugarUso, f.local));
    var p2 := (u: UsageRecord) => p1(u) && (f.codigo != "" ==> FieldMatches(u.codigo, f.codigo));
    var p3 := (u: UsageRecord) => Keep(u, f);
    if DateActive(f) {
      FilterExtensional(all, (u: UsageRecord) => DateActive(f) && WithinDates(u, f), p0);
    } else {
      FilterKeepsAll(all, p0);
    }
    assert ByDates(all, f) == Filter(all, p0);
    ByFieldStep(all, p0, Lugar, f.local, p1);
    ByFieldStep(all, p1, Codigo, f.codigo, p2);
    ByFieldStep(all, p2, Tipo, f.tipo, p3);
    FilterIsSubsequence(all, p3);
  }

  /** With every filter cleared the whole list is shown. */
  lemma ClearedFiltersShowAll(all: seq<UsageRecord>)
    ensures HistoryFilter(all, HistoryFilters(None, None, "", "", "")) == all
  {
  }

  // Reports

  /** What enviarReportesSeparados reports, given whether each of the two requests (Consumo and
      Facturable) succeeded and how many records each sent. */
  datatype ReportOutcome =
    | NotAuthenticated
    | ConnectionError
    | BothSent(consumo: int, facturable: int)
    | NothingNew
    | OnlyConsumoSent(registros: int)
    | OnlyFacturableSent(registros: int)
    | BothFailed

  function ReportOutcomeOf(authenticated: bool, reachable: bool, consumoOk: bool, consumo: int, facturableOk: bool, facturable: int): (o: ReportOutcome)
    ensures !authenticated <==> o == NotAuthenticated
    ensures o.BothSent? <==> authenticated && reachable && consumoOk && facturableOk && consumo + facturable > 0
    ensures o == NothingNew <==> authenticated && reachable && consumoOk && facturableOk && consumo + facturable <= 0
    ensures o.OnlyConsumoSent? <==> authenticated && reachable && consumoOk && !facturableOk
    ensures o.OnlyFacturableSent? <==> authenticated && reachable && !consumoOk && facturableOk
    ensures o == BothFailed <==> authenticated && reachable && !consumoOk && !facturableOk
    ensures o.BothSent? ==> o == BothSent(consumo, facturable)
    ensures o.OnlyConsumoSent? ==> o.registros == consumo
    ensures o.OnlyFacturableSent? ==> o.registros == facturable
  {
    if !authenticated then NotAuthenticated
    else if !reachable then ConnectionError
    else if consumoOk && facturableOk then
      if consumo + facturable > 0 then BothSent(consumo, facturable) else NothingNew
    else if consumoOk then OnlyConsumoSent(consumo)
    else if facturableOk then OnlyFacturableSent(facturable)
    else BothFailed
  }

  /** The toast text and the explicit type passed with it ("" when none is given). */
  function ReportToast(o: ReportOutcome): (string, string) {
    match o
    case NotAuthenticated => ("Debes estar autenticado para enviar reportes", Toasts.ErrorType)
    case ConnectionError => ("Error de conexión al enviar reportes", Toasts.ErrorType)
    case BothSent(c, f) => ("Reportes enviados: " + IntToString(c) + " Consumo, " + IntToString(f) + " Facturable", "")
    case NothingNew => ("No hay registros nuevos para enviar", "")
    case OnlyConsumoSent(n) => ("Reporte de Consumo enviado (" + IntToString(n) + " registros). Error en Facturable", Toasts.ErrorType)
    case OnlyFacturableSent(n) => ("Reporte Facturable enviado (" + IntToString(n) + " registros). Error en Consumo", Toasts.ErrorType)
    case BothFailed => ("Error al enviar ambos reportes", Toasts.ErrorType)
  }

  /** Every outcome except an actual send is shown as an error toast; the "nothing new" notice
      carries no type and is classified as an error by its "no hay" keyword. */
  lemma ReportToastIsError(o: ReportOutcome)
    requires !o.BothSent?
    ensures Toasts.ResolveType(ReportToast(o).0, ReportToast(o).1) == Toasts.ErrorType
  {
    if o == NothingNew {
      Toasts.ClassifyNothingToSend();
    }
  }

  // Dates

  /** formatearFecha on a calendar date: day and one-based month padded to two digits, then the
      year, separated by slashes. */
  function FormatearFecha(day: nat, monthIndex: nat, year: int): string {
    PadTwo(NatToString(day)) + "/" + PadTwo(NatToString(monthIndex + 1)) + "/" + IntToString(year)
  }

  /** Two two-character fields and a tail joined by slashes can be read back field by field. */
  lemma SlashJoinFields(d: string, m: string, y: string)
    requires |d| == 2 && |m| == 2
    ensures var r := d + "/" + m + "/" + y;
      |r| == 6 + |y| && r[2] == '/' && r[5] == '/' && r[..2] == d && r[3..5] == m && r[6..] == y
  {
    var r := d + "/" + m + "/" + y;
    assert r[..2] == d;
    assert r[3..5] == m;
    assert r[6..] == y;
  }

  /** For a real calendar date the text is DD/MM/YYYY: reading the fields back gives the day,
      the one-based month and the year. */
  lemma FormatearFechaFields(day: nat, monthIndex: nat, year: int)
    requires 1 <= day <= 31 && monthIndex <= 11
    ensures var r := FormatearFecha(day, monthIndex, year);
      |r| >= 7 && r[2] == '/' && r[5] == '/'
      && AllDigits(r[..2]) && DigitsValue(r[..2]) == day
      && AllDigits(r[3..5]) && DigitsValue(r[3..5]) == monthIndex + 1
      && ParseInt(r[6..]) == Some(year)
  {
    PadTwoNat(day);
    PadTwoNat(monthIndex + 1);
    ParseIntToString(year);
    SlashJoinFields(PadTwo(NatToString(day)), PadTwo(NatToString(monthIndex + 1)), IntToString(year));
  }

  // Screen state

  /** The consumption-type change sent for one record. */
  datatype EditRequest = EditRequest(id: string, tipoConsumo: string)

  class HistoryScreen {
    var usos: seq<UsageRecord>
    var todosLosUsos: seq<UsageRecord>
    var fechaInicio: Option<int>
    var fechaFin: Option<int>
    var filtroLocal: string
    var filtroCodigo: string
    var filtroTipoConsumo: string
    var localesDisponibles: seq<string>
    var codigosDisponibles: seq<string>
    var usoEditando: Option<UsageRecord>
    var nuevoTipoConsumo: string

    function Filters(): HistoryFilters
      reads this
    {
      HistoryFilters(fechaInicio, fechaFin, filtroLocal, filtroCodigo, filtroTipoConsumo)
    }

    constructor ()
      ensures usos == [] && todosLosUsos == [] && localesDisponibles == [] && codigosDisponibles == []
      ensures Filters() == HistoryFilters(None, None, "", "", "")
      ensures usoEditando == None && nuevoTipoConsumo == ""
    {
      usos, todosLosUsos := [], [];
      fechaInicio, fechaFin := None, None;
      filtroLocal, filtroCodigo, filtroTipoConsumo := "", "", "";
      localesDisponibles, codigosDisponibles := [], [];
      usoEditando, nuevoTipoConsumo := None, "";
    }

    /** cargarUsos: with a session and a server list, both lists become that list and the
        filter choices are recomputed from it; otherwise nothing changes. */
    method CargarUsos(authenticated: bool, reply: Option<seq<UsageRecord>>)
      modifies this`usos, this`todosLosUsos, this`localesDisponibles, this`codigosDisponibles
      ensures authenticated && reply.Some? ==>
                usos == reply.value && todosLosUsos == reply.value
                && localesDisponibles == Locales(reply.value) && codigosDisponibles == Codes(reply.value)
      ensures !(authenticated && reply.Some?) ==>
                usos == old(usos) && todosLosUsos == old(todosLosUsos)
                && localesDisponibles == old(localesDisponibles) && codigosDisponibles == old(codigosDisponibles)
    {
      if authenticated && reply.Some? {
        var data := reply.value;
        usos, todosLosUsos := data, data;
        localesDisponibles := Locales(data);
        codigosDisponibles := Codes(data);
      }
    }

    /** aplicarFiltro: the visible list is the full list through every active filter. */
    method AplicarFiltro()
      modifies this`usos
      ensures usos == HistoryFilter(todosLosUsos, Filters())
    {
      var f := Filters();
      var usosFiltrados := todosLosUsos;
      usosFiltrados := ByDates(usosFiltrados, f);
      usosFiltrados := ByField(usosFiltrados, Lugar, filtroLocal);
      usosFiltrados := ByField(usosFiltrados, Codigo, filtroCodigo);
      usosFiltrados := ByField(usosFiltrados, Tipo, filtroTipoConsumo);
      usos := usosFiltrados;
    }

    /** limpiarFiltros: all five filter inputs are cleared and the full list is shown. */
    method LimpiarFiltros()
      modifies this`fechaInicio, this`fechaFin, this`filtroLocal, this`filtroCodigo, this`filtroTipoConsumo, this`usos
      ensures Filters() == HistoryFilters(None, None, "", "", "")
      ensures usos == todosLosUsos
    {
      fechaInicio, fechaFin := None, None;
      filtroLocal, filtroCodigo, filtroTipoConsumo := "", "", "";
      usos := todosLosUsos;
    }

    /** editarTipoConsumo: the record is taken for editing, with its type or 'Consumo'. */
    method EditarTipoConsumo(uso: UsageRecord)
      modifies this`usoEditando, this`nuevoTipoConsumo
      ensures usoEditando == Some(uso)
      ensures nuevoTipoConsumo == if uso.tipoConsumo != "" then uso.tipoConsumo else "Consumo"
    {
      usoEditando := Some(uso);
      nuevoTipoConsumo := if uso.tipoConsumo != "" then uso.tipoConsumo else "Consumo";
    }

    /** confirmarEdicion: no request without a record or with an empty type; otherwise the
        record's id and the new type are sent, and a successful reply ends the editing. */
    method ConfirmarEdicion(serverOk: bool) returns (request: Option<EditRequest>)
      modifies this`usoEditando
      ensures request.None? <==> old(usoEditando).None? || old(nuevoTipoConsumo) == ""
      ensures request.Some? ==> request.value == EditRequest(old(usoEditando).value.id, old(nuevoTipoConsumo))
      ensures usoEditando == if request.Some? && serverOk then None else old(usoEditando)
    {
      if usoEditando.None? || nuevoTipoConsumo == "" {
        return None;
      }
      request := Some(EditRequest(usoEditando.value.id, nuevoTipoConsumo));
      if serverOk {
        usoEditando := None;
      }
    }
  }
}
