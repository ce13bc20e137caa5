/** The administrator's dashboard: the list of every report with optional status and type
    filters, and the per-status statistics shown above it. */
module DashboardAdmin {
  import opened Common
  import opened SupabaseHelpers
  import opened FormularioReportes

  const ESTADOS := ["Pendiente", "En Proceso", "Resuelto", "Cancelado"]
  const TIPOS := ["Urgente", "Importante", "Informativo", "Emergencia"]

  const ERROR_CARGA := "Error al cargar reportes"

  // ---------------------------------------------------------------------------------------
  // Filters

  /** A tap on a status or type chip: the selected value is cleared, another one selected. */
  function Toggle(current: Option<string>, value: string): (r: Option<string>)
    ensures r.None? <==> current == Some(value)
    ensures r.Some? ==> r.value == value
  {
    if current == Some(value) then None else Some(value)
  }

  /** Two taps on the same chip give back the selection, when the chip was selected or nothing was. */
  lemma ToggleTwice(current: Option<string>, value: string)
    requires current.None? || current == Some(value)
    ensures Toggle(Toggle(current, value), value) == current
  {
  }

  /** The filter object: `estado` only when a status is selected, `tipo_incidente` only when a
      type is selected. */
  function FiltrosDe(filtroEstado: Option<string>, filtroTipo: Option<string>): (f: Filtros)
    ensures Truthy(f.estado) <==> Present(filtroEstado)
    ensures Truthy(f.tipo_incidente) <==> Present(filtroTipo)
    ensures Present(filtroEstado) ==> f.estado == Str(filtroEstado.value)
    ensures Present(filtroTipo) ==> f.tipo_incidente == Str(filtroTipo.value)
    ensures f.desde == Undefined && f.hasta == Undefined && f.limit == Undefined
  {
    Filtros(if Present(filtroEstado) then Str(filtroEstado.value) else Undefined,
            if Present(filtroTipo) then Str(filtroTipo.value) else Undefined,
            Undefined, Undefined, Undefined)
  }

  /** The dashboard's query carries an `estado` clause exactly when a status is selected and a
      `tipo_incidente` clause exactly when a type is selected, in that order, and nothing else. */
  lemma DashboardQuery(filtroEstado: Option<string>, filtroTipo: Option<string>)
    ensures FilterClauses(FiltrosDe(filtroEstado, filtroTipo)) ==
      (if Present(filtroEstado) then [Eq("estado", filtroEstado.value)] else []) +
      (if Present(filtroTipo) then [Eq("tipo_incidente", filtroTipo.value)] else [])
  {
    var f := FiltrosDe(filtroEstado, filtroTipo);
    assert EstadoClause(f) == Eq("estado", ValText(f.estado));
    assert Present(filtroEstado) ==> ValText(f.estado) == filtroEstado.value;
    assert Present(filtroTipo) ==> ValText(f.tipo_incidente) == filtroTipo.value;
  }

  /** The listing after a load: an array reply as the list, any other reply as the empty list;
      a failure as the empty list and its message, or a fixed message when it has none. */
  function CargarResultado(outcome: Outcome<Json>): (r: (seq<Json>, Option<string>))
    ensures outcome.Ok? && outcome.value.JArray? ==> r == (outcome.value.items, None)
    ensures outcome.Ok? && !outcome.value.JArray? ==> r == ([], None)
    ensures outcome.Fail? ==> r.0 == [] && r.1 == Some(if outcome.failure.message != "" then outcome.failure.message else ERROR_CARGA)
    ensures r.1.Some? ==> r.1.value != ""
  {
    match outcome
    case Ok(doc) => (if doc.JArray? then doc.items else [], None)
    case Fail(f) => ([], Some(OrElse(Some(f.message), ERROR_CARGA)))
  }

  // ---------------------------------------------------------------------------------------
  // Statistics

  /** `acc[r.estado]`: object keys are text, so the status is read as `String(r.estado)`;
      anything but an object has no `estado`. */
  function EstadoKey(r: Json): (k: string)
    requires !r.JNull? && !r.JUndefined?
    ensures r.JObject? && Get(r.row, "estado").Str? ==> k == Get(r.row, "estado").s
    ensures r.JObject? && !("estado" in r.row) ==> k == "undefined"
    ensures !r.JObject? ==> k == "undefined"
  {
    if r.JObject? then ValText(Get(r.row, "estado")) else "undefined"
  }

  /** No report is `null` or `undefined` (reading its `estado` would throw). */
  predicate Readable(reportes: seq<Json>)
  {
    forall i :: 0 <= i < |reportes| ==> !reportes[i].JNull? && !reportes[i].JUndefined?
  }

  /** The number of reports whose status key is `k`. */
  function Count(reportes: seq<Json>, k: string): nat
    requires Readable(reportes)
    decreases |reportes|
  {
    if reportes == [] then 0
    else Count(reportes[..|reportes| - 1], k) + (if EstadoKey(reportes[|reportes| - 1]) == k then 1 else 0)
  }

  /** `porEstado?.[k] || 0`: a status nobody has shows 0. */
  function Shown(porEstado: map<string, nat>, k: string): nat
  {
    if k in porEstado then porEstado[k] else 0
  }

  /** `estadisticas`: the total, and the `reduce` that counts reports per status. */
  method Estadisticas(reportes: seq<Json>) returns (total: nat, porEstado: map<string, nat>)
    requires Readable(reportes)
    ensures total == |reportes|
    ensures forall k :: Shown(porEstado, k) == Count(reportes, k)
    ensures forall k :: k in porEstado <==> Count(reportes, k) > 0
  {
    total := |reportes|;
    porEstado := map[];
    var i := 0;
    while i < |reportes|
      invariant 0 <= i <= |reportes|
      invariant Readable(reportes[..i])
      invariant forall k :: Shown(porEstado, k) == Count(reportes[..i], k)
      invariant forall k :: k in porEstado <==> Count(reportes[..i], k) > 0
    {
      var key := EstadoKey(reportes[i]);
      porEstado := porEstado[key := (if key in porEstado then porEstado[key] else 0) + 1];
      assert reportes[..i + 1][..i] == reportes[..i];
      i := i + 1;
    }
    assert reportes[..i] == reportes;
  }

  /** The sum of the counts over a list of keys. */
  function Total(keys: seq<string>, reportes: seq<Json>): nat
    requires Readable(reportes)
    decreases |keys|
  {
    if keys == [] then 0 else Count(reportes, keys[0]) + Total(keys[1..], reportes)
  }

  predicate Distinct(keys: seq<string>)
  {
    forall i, j :: 0 <= i < j < |keys| ==> keys[i] != keys[j]
  }

  lemma {:induction false} TotalStep(keys: seq<string>, reportes: seq<Json>, r: Json)
    requires Readable(reportes) && !r.JNull? && !r.JUndefined? && Distinct(keys)
    ensures Readable(reportes + [r])
    ensures Total(keys, reportes + [r]) == Total(keys, reportes) + (if EstadoKey(r) in keys then 1 else 0)
    decreases |keys|
  {
    var s := reportes + [r];
    assert forall i :: 0 <= i < |s| ==> s[i] == if i < |reportes| then reportes[i] else r;
    assert s[..|s| - 1] == reportes;
    if keys != [] {
      assert Distinct(keys[1..]) by {
        forall i, j | 0 <= i < j < |keys[1..]| ensures keys[1..][i] != keys[1..][j] {
          assert keys[1..][i] == keys[i + 1] && keys[1..][j] == keys[j + 1];
        }
      }
      TotalStep(keys[1..], reportes, r);
      assert keys == [keys[0]] + keys[1..];
      if EstadoKey(r) == keys[0] {
        assert EstadoKey(r) !in keys[1..] by {
          forall j | 0 <= j < |keys[1..]| ensures keys[1..][j] != keys[0] {
            assert keys[1..][j] == keys[j + 1];
          }
        }
      }
    }
  }

  /** The per-status counts, over any list of distinct keys that names every status present,
      add up to the number of reports. */
  lemma {:induction false} CountsSumToTotal(keys: seq<string>, reportes: seq<Json>)
    requires Readable(reportes) && Distinct(keys)
    requires forall i :: 0 <= i < |reportes| ==> EstadoKey(reportes[i]) in keys
    ensures Total(keys, reportes) == |reportes|
    decreases |reportes|
  {
    if reportes == [] {
      TotalEmpty(keys);
    } else {
      var init := reportes[..|reportes| - 1];
      var last := reportes[|reportes| - 1];
      assert reportes == init + [last];
      TotalStep(keys, init, last);
      assert forall i :: 0 <= i < |init| ==> init[i] == reportes[i];
      CountsSumToTotal(keys, init);
    }
  }

  lemma {:induction false} TotalEmpty(keys: seq<string>)
    ensures Total(keys, []) == 0
    decreases |keys|
  {
    if keys != [] {
      TotalEmpty(keys[1..]);
    }
  }

  // ---------------------------------------------------------------------------------------
  // Agreement with the form

  /** The form sends its type ids capitalised, and each lands on one of the dashboard's type
      filters; the dashboard's fourth type, "Emergencia", is never sent by the form. */
  lemma FormTypesAreFilterable()
    ensures forall i :: 0 <= i < |TIPOS_INCIDENTE| ==> Capitalize(TIPOS_INCIDENTE[i]) == TIPOS[i]
    ensures forall i :: 0 <= i < |TIPOS_INCIDENTE| ==> Capitalize(TIPOS_INCIDENTE[i]) != "Emergencia"
  {
    assert Capitalize("urgente") == "Urgente";
    assert Capitalize("importante") == "Importante";
    assert Capitalize("informativo") == "Informativo";
  }

  // ---------------------------------------------------------------------------------------
  // The component state

  class Dashboard {
    var reportes: seq<Json>
    var loading: bool
    var error: Option<string>
    var filtroEstado: Option<string>
    var filtroTipo: Option<string>

    constructor ()
      ensures reportes == [] && loading && error == None && filtroEstado == None && filtroTipo == None
    {
      reportes := [];
      loading := true;
      error := None;
      filtroEstado := None;
      filtroTipo := None;
    }

    /** A tap on a status chip of the filter modal. */
    method ToggleEstado(estado: string)
      modifies this
      ensures filtroEstado == Toggle(old(filtroEstado), estado)
      ensures filtroTipo == old(filtroTipo) && reportes == old(reportes)
      ensures loading == old(loading) && error == old(error)
    {
      filtroEstado := if filtroEstado == Some(estado) then None else Some(estado);
    }

    /** A tap on a type chip of the filter modal. */
    method ToggleTipo(tipo: string)
      modifies this
      ensures filtroTipo == Toggle(old(filtroTipo), tipo)
      ensures filtroEstado == old(filtroEstado) && reportes == old(reportes)
      ensures loading == old(loading) && error == old(error)
    {
      filtroTipo := if filtroTipo == Some(tipo) then None else Some(tipo);
    }

    /** "Limpiar": both filters back to none. */
    method Limpiar()
      modifies this
      ensures filtroEstado == None && filtroTipo == None
      ensures reportes == old(reportes) && error == old(error) && loading == old(loading)
    {
      filtroEstado := None;
      filtroTipo := None;
    }

    /** `cargarReportes`: the filter object from the current selection, the URL it fetches, and
        the list and error from the reply `response`; loading ends false. */
    method CargarReportes(base: string, enc: string -> string, response: Response) returns (url: string)
      modifies this
      ensures url == base + REPORTES + Query([OrderDesc(TS)] + FilterClauses(FiltrosDe(old(filtroEstado), old(filtroTipo))), enc)
      ensures (reportes, error) == CargarResultado(ObtenerTodosReportes(response))
      ensures !loading
      ensures filtroEstado == old(filtroEstado) && filtroTipo == old(filtroTipo)
    {
      loading := true;
      error := None;
      var filtros := FiltrosDe(filtroEstado, filtroTipo);
      url := ObtenerTodosUrl(base, filtros, enc);
      var outcome := ObtenerTodosReportes(response);
      if outcome.Ok? {
        reportes := if outcome.value.JArray? then outcome.value.items else [];
      } else {
        error := Some(if outcome.failure.message != "" then outcome.failure.message else ERROR_CARGA);
        reportes := [];
      }
      loading := false;
    }
  }
}
