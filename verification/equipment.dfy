/**
 * The equipment screens of the front end: the inventory counters, the
 * inventory filters and the location column, and the guards and request
 * body of the "new equipment" form.
 */
module Equipment {
  import opened Wrappers
  import opened Text
  import opened Seqs
  import opened Dict
  import opened Values

  /**
   * An equipment row of the inventory table. A column the list endpoint did
   * not return is added with None in every row, so every field is optional.
   */
  datatype Equipment = Equipment(
    id: Option<int>,
    codigoInventario: Option<string>,
    numeroSerie: Option<string>,
    tipo: Option<string>,
    marca: Option<string>,
    estado: Option<string>,
    ubicacionDescripcion: Option<string>,
    vidaUtilMeses: Option<int>)

  // ---------------------------------------------------------------------
  // Inventory counters
  // ---------------------------------------------------------------------

  /** `estado_lower`: the state lower-cased, a missing state read as "". */
  function EstadoLower(e: Equipment): string
  {
    Lower(e.estado.GetOr(""))
  }

  predicate IsOperativo(e: Equipment)
  {
    EstadoLower(e) == "operativo"
  }

  predicate IsInMaintenance(e: Equipment)
  {
    Contains(EstadoLower(e), "manten")
  }

  predicate IsDadoDeBaja(e: Equipment)
  {
    Contains(EstadoLower(e), "baja")
  }

  /** "Operativos": rows whose state is exactly "operativo", in any case. */
  function Operativos(es: seq<Equipment>): nat
  {
    Count(es, IsOperativo)
  }

  /** "En mantenimiento": rows whose state contains "manten", in any case. */
  function EnMantenimiento(es: seq<Equipment>): nat
  {
    Count(es, IsInMaintenance)
  }

  /** "Dados de baja": rows whose state contains "baja", in any case. */
  function DadosDeBaja(es: seq<Equipment>): nat
  {
    Count(es, IsDadoDeBaja)
  }

  /** The state "operativo" holds neither "manten" nor "baja". */
  lemma OperativoIsNeitherOther()
    ensures !Contains("operativo", "manten")
    ensures !Contains("operativo", "baja")
  {
    assert 'm' !in "operativo" && 'b' !in "operativo";
    NotContainsFirstChar("operativo", "manten");
    NotContainsFirstChar("operativo", "baja");
  }

  /**
   * An operational row is never also counted as in maintenance or as
   * retired, so each of those counters adds to "Operativos" without
   * exceeding the total.
   */
  lemma CountersWithinTotal(es: seq<Equipment>)
    ensures Operativos(es) + EnMantenimiento(es) <= |es|
    ensures Operativos(es) + DadosDeBaja(es) <= |es|
  {
    OperativoIsNeitherOther();
    CountDisjoint(es, IsOperativo, IsInMaintenance);
    CountDisjoint(es, IsOperativo, IsDadoDeBaja);
  }

  /**
   * A state whose lower-cased text holds both "manten" and "baja", in either
   * order (such as "Mantenimiento de baja"), is counted both as in
   * maintenance and as retired: the two counters overlap.
   */
  lemma MaintenanceAndRetiredOverlap(e: Equipment, a: string, b: string, c: string, d: string)
    requires EstadoLower(e) == a + "manten" + b
    requires EstadoLower(e) == c + "baja" + d
    ensures IsInMaintenance(e) && IsDadoDeBaja(e)
  {
    ContainsInfix(a, "manten", b);
    ContainsInfix(c, "baja", d);
  }

  // ---------------------------------------------------------------------
  // Inventory filters
  // ---------------------------------------------------------------------

  /** The search text occurs, ignoring case, in the row's inventory code or serial number as printed. */
  predicate MatchesSearch(texto: string, e: Equipment)
  {
    ContainsIgnoreCase(CellText(e.codigoInventario), texto) || ContainsIgnoreCase(CellText(e.numeroSerie), texto)
  }

  /** The type selection keeps the row (an empty selection keeps every row). */
  predicate PassesTipo(tipos: seq<string>, e: Equipment)
  {
    tipos == [] || IsIn(e.tipo, tipos)
  }

  /** The state selection keeps the row (an empty selection keeps every row). */
  predicate PassesEstado(estados: seq<string>, e: Equipment)
  {
    estados == [] || IsIn(e.estado, estados)
  }

  /** The row is listed under the type selection, the state selection and the search text (an empty text searches nothing). */
  predicate IsShown(tipos: seq<string>, estados: seq<string>, texto: string, e: Equipment)
  {
    PassesTipo(tipos, e) && PassesEstado(estados, e) && (texto == "" || MatchesSearch(texto, e))
  }

  /** `ubicacion_actual`: the location description, or "Sin ubicación registrada" when there is none. */
  function UbicacionActual(e: Equipment): (s: string)
    ensures e.ubicacionDescripcion.Some? ==> s == e.ubicacionDescripcion.value
    ensures e.ubicacionDescripcion.None? ==> s == "Sin ubicaci\U{00F3}n registrada"
  {
    e.ubicacionDescripcion.GetOr("Sin ubicaci\U{00F3}n registrada")
  }

  /**
   * `df_filtrado` of the inventory: the type mask, the state mask and the
   * search mask, each applied only when its input is non-empty, then the
   * `ubicacion_actual` column. Exactly the rows that pass all three stay,
   * in their original order.
   */
  method FilterInventory(es: seq<Equipment>, tipos: seq<string>, estados: seq<string>, texto: string)
    returns (shown: seq<Equipment>, ubicaciones: seq<string>)
    ensures shown == Filter(es, (e: Equipment) => IsShown(tipos, estados, texto, e))
    ensures forall e :: e in shown <==> e in es && IsShown(tipos, estados, texto, e)
    ensures IsSubsequence(shown, es)
    ensures ubicaciones == UbicacionesOf(shown)
  {
    var byTipo := (e: Equipment) => PassesTipo(tipos, e);
    var byTipoEstado := (e: Equipment) => PassesTipo(tipos, e) && PassesEstado(estados, e);
    var keep := (e: Equipment) => IsShown(tipos, estados, texto, e);
    shown := es;
    if tipos != [] {
      shown := Filter(shown, (e: Equipment) => IsIn(e.tipo, tipos));
      FilterSame(es, (e: Equipment) => IsIn(e.tipo, tipos), byTipo);
    } else {
      FilterKeepsAll(es, byTipo);
    }
    assert shown == Filter(es, byTipo);
    if estados != [] {
      shown := Filter(shown, (e: Equipment) => IsIn(e.estado, estados));
      FilterFilter(es, byTipo, (e: Equipment) => IsIn(e.estado, estados), byTipoEstado);
    } else {
      FilterSame(es, byTipo, byTipoEstado);
    }
    assert shown == Filter(es, byTipoEstado);
    if texto != "" {
      shown := Filter(shown, (e: Equipment) => MatchesSearch(texto, e));
      FilterFilter(es, byTipoEstado, (e: Equipment) => MatchesSearch(texto, e), keep);
    } else {
      FilterSame(es, byTipoEstado, keep);
    }
    FilterMembership(es, keep);
    FilterIsSubsequence(es, keep);
    ubicaciones := UbicacionesOf(shown);
  }

  /** The `ubicacion_actual` column of the shown rows, row by row. */
  function UbicacionesOf(shown: seq<Equipment>): (ubicaciones: seq<string>)
    ensures |ubicaciones| == |shown|
    ensures forall i :: 0 <= i < |shown| ==> ubicaciones[i] == UbicacionActual(shown[i])
  {
    seq(|shown|, i requires 0 <= i < |shown| => UbicacionActual(shown[i]))
  }

  // ---------------------------------------------------------------------
  // "New equipment" form
  // ---------------------------------------------------------------------

  /** A location the form offers: its id (None for the placeholder) and its description. */
  datatype Location = Location(id: Option<int>, descripcion: string)

  /** The placeholder offered when there are no locations. */
  const NoLocations := Location(None, "Sin ubicaciones disponibles")

  /** `ubicacion_options`: the fetched locations, or the placeholder alone when there are none. */
  function LocationOptions(locations: seq<Location>): (options: seq<Location>)
    ensures |options| >= 1
    ensures locations != [] ==> options == locations
    ensures locations == [] ==> options == [NoLocations] && forall o :: o in options ==> o.id.None?
  {
    if locations == [] then [NoLocations] else locations
  }

  /** The submit button is disabled exactly when the selected location has no id. */
  predicate SubmitDisabled(selected: Location)
  {
    selected.id.None?
  }

  /** With no locations every option disables the submit button, so nothing can be registered. */
  lemma NoLocationsNoSubmit(locations: seq<Location>, choice: nat)
    requires locations == [] && choice < |LocationOptions(locations)|
    ensures SubmitDisabled(LocationOptions(locations)[choice])
  {
  }

  /** The inputs of the "new equipment" form. */
  datatype EquipmentForm = EquipmentForm(
    codigo: string,
    serie: string,
    tipo: string,
    marca: string,
    estado: string,
    ubicacion: Location,
    vidaUtil: nat,
    observaciones: string)

  /** What pressing (or not pressing) the submit button leads to. */
  datatype CreateOutcome =
    | NotSubmitted
    | InvalidLocation
    | MissingFields
    | Send(payload: Dict<Value>)

  /** The error shown for a rejected form. */
  function ErrorText(outcome: CreateOutcome): Option<string>
  {
    match outcome
    case InvalidLocation => Some("Debes escoger una ubicaci\U{00F3}n v\U{00E1}lida.")
    case MissingFields => Some("Por favor completa todos los campos obligatorios.")
    case _ => None
  }

  /** Some required text field is empty. */
  predicate HasEmptyField(form: EquipmentForm)
  {
    form.codigo == "" || form.serie == "" || form.tipo == "" || form.marca == ""
  }

  /** The JSON body of a valid form; an empty observation is sent as null. */
  function EquipmentPayload(form: EquipmentForm, ubicacion: int): (payload: Dict<Value>)
    ensures Keys(payload) == ["codigo_inventario", "numero_serie", "tipo", "marca", "estado", "id_ubicacion_actual", "vida_util_meses", "observaciones"]
    ensures DistinctKeys(payload)
  {
    [ ("codigo_inventario", Str(form.codigo)),
      ("numero_serie", Str(form.serie)),
      ("tipo", Str(form.tipo)),
      ("marca", Str(form.marca)),
      ("estado", Str(form.estado)),
      ("id_ubicacion_actual", Int(ubicacion)),
      ("vida_util_meses", Int(form.vidaUtil)),
      ("observaciones", if form.observaciones == "" then Null else Str(form.observaciones)) ]
  }

  /** Each input is sent under its column name; the observation is null exactly when it was left empty. */
  lemma EquipmentPayloadCarriesInputs(form: EquipmentForm, ubicacion: int)
    ensures Get(EquipmentPayload(form, ubicacion), "codigo_inventario") == Some(Str(form.codigo))
    ensures Get(EquipmentPayload(form, ubicacion), "numero_serie") == Some(Str(form.serie))
    ensures Get(EquipmentPayload(form, ubicacion), "tipo") == Some(Str(form.tipo))
    ensures Get(EquipmentPayload(form, ubicacion), "marca") == Some(Str(form.marca))
    ensures Get(EquipmentPayload(form, ubicacion), "estado") == Some(Str(form.estado))
    ensures Get(EquipmentPayload(form, ubicacion), "id_ubicacion_actual") == Some(Int(ubicacion))
    ensures Get(EquipmentPayload(form, ubicacion), "vida_util_meses") == Some(Int(form.vidaUtil))
    ensures Get(EquipmentPayload(form, ubicacion), "observaciones") == Some(Null) <==> form.observaciones == ""
    ensures form.observaciones != "" ==> Get(EquipmentPayload(form, ubicacion), "observaciones") == Some(Str(form.observaciones))
  {
    var payload := EquipmentPayload(form, ubicacion);
    GetAt(payload, 0);
    GetAt(payload, 1);
    GetAt(payload, 2);
    GetAt(payload, 3);
    GetAt(payload, 4);
    GetAt(payload, 5);
    GetAt(payload, 6);
    GetAt(payload, 7);
  }

  /**
   * The end of `_render_create_tab`: nothing happens unless the button was
   * pressed; then a location without id is refused, then any empty required
   * field is refused, and only then the body is sent.
   */
  method SubmitEquipment(form: EquipmentForm, pressed: bool) returns (outcome: CreateOutcome)
    ensures outcome.NotSubmitted? <==> !pressed
    ensures outcome.InvalidLocation? <==> pressed && form.ubicacion.id.None?
    ensures outcome.MissingFields? <==> pressed && form.ubicacion.id.Some? && HasEmptyField(form)
    ensures outcome.Send? <==> pressed && !SubmitDisabled(form.ubicacion) && !HasEmptyField(form)
    ensures outcome.Send? ==> outcome.payload == EquipmentPayload(form, form.ubicacion.id.value)
    ensures ErrorText(outcome).Some? <==> outcome.InvalidLocation? || outcome.MissingFields?
  {
    if !pressed {
      return NotSubmitted;
    }
    var ubicacion := form.ubicacion.id;
    if ubicacion.None? {
      return InvalidLocation;
    }
    if form.codigo == "" || form.serie == "" || form.tipo == "" || form.marca == "" {
      return MissingFields;
    }
    outcome := Send(EquipmentPayload(form, ubicacion.value));
  }
}
