/**
 * The maintenance screens of the front end: the history counters, filters
 * and equipment name, the calendar's date-range selection, and the
 * "schedule maintenance" form's check and request body.
 */
module Maintenance {
  import opened Wrappers
  import opened Text
  import opened Seqs
  import opened Dict
  import opened Values

  // ---------------------------------------------------------------------
  // Dates
  // ---------------------------------------------------------------------

  /** A calendar day (`datetime.date`). */
  datatype Date = Date(year: nat, month: nat, day: nat)

  /** `a <= b` on days: by year, then month, then day. */
  predicate DateLe(a: Date, b: Date)
  {
    a.year < b.year || (a.year == b.year && (a.month < b.month || (a.month == b.month && a.day <= b.day)))
  }

  /** `DateLe` is a total order. */
  lemma DateLeIsTotalOrder()
    ensures forall a :: DateLe(a, a)
    ensures forall a, b :: DateLe(a, b) || DateLe(b, a)
    ensures forall a, b :: DateLe(a, b) && DateLe(b, a) ==> a == b
    ensures forall a, b, c :: DateLe(a, b) && DateLe(b, c) ==> DateLe(a, c)
  {
  }

  /** Zero-padded decimal numeral of at least `width` digits. */
  function Padded(n: nat, width: nat): string
  {
    var digits := NatToString(n);
    if |digits| >= width then digits else Zeros(width - |digits|) + digits
  }

  /**
   * A padded numeral has at least `width` digits, exactly `width` when the
   * number fits, and it reads back as the number.
   */
  lemma PaddedReadsBack(n: nat, width: nat)
    ensures |Padded(n, width)| >= width && IsDigitString(Padded(n, width))
    ensures |NatToString(n)| <= width ==> |Padded(n, width)| == width
    ensures ParseNat(Padded(n, width)) == n
  {
    var digits := NatToString(n);
    ParseNatToString(n);
    if |digits| < width {
      var z := width - |digits|;
      assert Padded(n, width) == Zeros(z) + digits;
      ParseLeadingZeros(z, digits);
    }
  }

  /** `date.isoformat()`: YYYY-MM-DD. */
  function IsoDate(d: Date): string
  {
    Padded(d.year, 4) + "-" + Padded(d.month, 2) + "-" + Padded(d.day, 2)
  }

  /**
   * The ISO text of a valid day is ten characters, `-` at positions 4 and 7,
   * and its three digit groups read back as the year, the month and the day.
   */
  lemma IsoDateFields(d: Date)
    requires 1 <= d.year <= 9999 && 1 <= d.month <= 12 && 1 <= d.day <= 31
    ensures |IsoDate(d)| == 10 && IsoDate(d)[4] == '-' && IsoDate(d)[7] == '-'
    ensures IsDigitString(IsoDate(d)[..4]) && IsDigitString(IsoDate(d)[5..7]) && IsDigitString(IsoDate(d)[8..])
    ensures ParseNat(IsoDate(d)[..4]) == d.year
    ensures ParseNat(IsoDate(d)[5..7]) == d.month
    ensures ParseNat(IsoDate(d)[8..]) == d.day
  {
    assert Pow10(4) == 10000 && Pow10(2) == 100;
    NatToStringLength(d.year, 4);
    NatToStringLength(d.month, 2);
    NatToStringLength(d.day, 2);
    PaddedReadsBack(d.year, 4);
    PaddedReadsBack(d.month, 2);
    PaddedReadsBack(d.day, 2);
    var y, m, dd := Padded(d.year, 4), Padded(d.month, 2), Padded(d.day, 2);
    var s := IsoDate(d);
    assert s == y + "-" + m + "-" + dd;
    assert s[..4] == y && s[5..7] == m && s[8..] == dd;
  }

  // ---------------------------------------------------------------------
  // Records
  // ---------------------------------------------------------------------

  /**
   * A maintenance row as the list endpoint returns it. A column the endpoint
   * did not return reads as None; `fechaProgramada` is None as well when the
   * text does not parse as a date (`errors="coerce"`).
   */
  datatype MaintenanceRecord = MaintenanceRecord(
    id: Option<int>,
    idEquipo: Option<int>,
    equipoNombre: Option<string>,
    tipo: Option<string>,
    estado: Option<string>,
    prioridad: Option<string>,
    fechaProgramada: Option<Date>)

  // ---------------------------------------------------------------------
  // History counters
  // ---------------------------------------------------------------------

  predicate IsPreventivo(r: MaintenanceRecord)
  {
    r.tipo == Some("preventivo")
  }

  predicate IsCorrectivo(r: MaintenanceRecord)
  {
    r.tipo == Some("correctivo")
  }

  /** "Preventivos": rows whose type is exactly "preventivo". */
  function Preventivos(rs: seq<MaintenanceRecord>): nat
  {
    Count(rs, IsPreventivo)
  }

  /** "Correctivos": rows whose type is exactly "correctivo". */
  function Correctivos(rs: seq<MaintenanceRecord>): nat
  {
    Count(rs, IsCorrectivo)
  }

  /** No row is both, so the two counters add up to at most the total. */
  lemma TypeCountersWithinTotal(rs: seq<MaintenanceRecord>)
    ensures Preventivos(rs) + Correctivos(rs) <= |rs|
  {
    CountDisjoint(rs, IsPreventivo, IsCorrectivo);
  }

  // ---------------------------------------------------------------------
  // History filters and equipment name
  // ---------------------------------------------------------------------

  /** `astype(str)` of the equipment id: its numeral, or "None" when missing. */
  function IdText(id: Option<int>): string
  {
    match id
    case Some(i) => IntToString(i)
    case None => "None"
  }

  /** The text occurs, ignoring case, in the equipment name or the equipment id as printed. */
  predicate MatchesEquipo(texto: string, r: MaintenanceRecord)
  {
    ContainsIgnoreCase(CellText(r.equipoNombre), texto) || ContainsIgnoreCase(IdText(r.idEquipo), texto)
  }

  /** The type selection keeps the row (an empty selection keeps every row). */
  predicate PassesTipo(tipos: seq<string>, r: MaintenanceRecord)
  {
    tipos == [] || IsIn(r.tipo, tipos)
  }

  /** The state selection keeps the row (an empty selection keeps every row). */
  predicate PassesEstado(estados: seq<string>, r: MaintenanceRecord)
  {
    estados == [] || IsIn(r.estado, estados)
  }

  /** `texto_equipo.strip()`: the equipment text without surrounding whitespace. */
  function StrippedEquipo(textoEquipo: string): string
  {
    Strip(textoEquipo, Whitespace)
  }

  /**
   * The row is listed under the type selection, the state selection and the
   * equipment text; the text is matched after stripping surrounding
   * whitespace, and an empty text filters nothing.
   */
  predicate IsShown(tipos: seq<string>, estados: seq<string>, textoEquipo: string, r: MaintenanceRecord)
  {
    && PassesTipo(tipos, r)
    && PassesEstado(estados, r)
    && (textoEquipo == "" || MatchesEquipo(StrippedEquipo(textoEquipo), r))
  }

  /**
   * `df_filtrado` of the history: the type mask, the state mask and the
   * equipment mask, each applied only when its input is non-empty. Exactly
   * the rows that pass all three stay, in their original order.
   */
  method FilterHistory(rs: seq<MaintenanceRecord>, tipos: seq<string>, estados: seq<string>, textoEquipo: string)
    returns (shown: seq<MaintenanceRecord>)
    ensures shown == Filter(rs, (r: MaintenanceRecord) => IsShown(tipos, estados, textoEquipo, r))
    ensures forall r :: r in shown <==> r in rs && IsShown(tipos, estados, textoEquipo, r)
    ensures IsSubsequence(shown, rs)
  {
    var byTipo := (r: MaintenanceRecord) => PassesTipo(tipos, r);
    var byTipoEstado := (r: MaintenanceRecord) => PassesTipo(tipos, r) && PassesEstado(estados, r);
    var keep := (r: MaintenanceRecord) => IsShown(tipos, estados, textoEquipo, r);
    shown := rs;
    if tipos != [] {
      shown := Filter(shown, (r: MaintenanceRecord) => IsIn(r.tipo, tipos));
      FilterSame(rs, (r: MaintenanceRecord) => IsIn(r.tipo, tipos), byTipo);
    } else {
      FilterKeepsAll(rs, byTipo);
    }
    assert shown == Filter(rs, byTipo);
    if estados != [] {
      shown := Filter(shown, (r: MaintenanceRecord) => IsIn(r.estado, estados));
      FilterFilter(rs, byTipo, (r: MaintenanceRecord) => IsIn(r.estado, estados), byTipoEstado);
    } else {
      FilterSame(rs, byTipo, byTipoEstado);
    }
    assert shown == Filter(rs, byTipoEstado);
    if textoEquipo != "" {
      var texto := StrippedEquipo(textoEquipo);
      shown := Filter(shown, (r: MaintenanceRecord) => MatchesEquipo(texto, r));
      FilterFilter(rs, byTipoEstado, (r: MaintenanceRecord) => MatchesEquipo(texto, r), keep);
    } else {
      FilterSame(rs, byTipoEstado, keep);
    }
    FilterMembership(rs, keep);
    FilterIsSubsequence(rs, keep);
  }

  /** An equipment text made only of whitespace strips to "", which every row contains, so it filters nothing. */
  lemma BlankEquipoTextKeepsAll(tipos: seq<string>, estados: seq<string>, textoEquipo: string, r: MaintenanceRecord)
    requires forall i :: 0 <= i < |textoEquipo| ==> textoEquipo[i] in Whitespace
    ensures IsShown(tipos, estados, textoEquipo, r) <==> PassesTipo(tipos, r) && PassesEstado(estados, r)
  {
    var texto := Strip(textoEquipo, Whitespace);
    StripAll(textoEquipo, Whitespace);
    assert Lower(texto) == "";
    assert "" <= Lower(CellText(r.equipoNombre));
  }

  /** A row without an equipment name is found by the text "none", because the missing name prints as "None". */
  lemma MissingNameMatchesNone(r: MaintenanceRecord)
    requires r.equipoNombre.None?
    ensures MatchesEquipo("none", r)
  {
    assert Lower("None") == "none";
    assert "none" <= Lower(CellText(r.equipoNombre));
  }

  /** The name shown for the row's equipment: its name, or "Equipo #" and the id when the name is missing or empty. */
  function EquipoNombre(r: MaintenanceRecord): (name: string)
    ensures r.equipoNombre.Some? && r.equipoNombre.value != "" ==> name == r.equipoNombre.value
    ensures r.equipoNombre.None? || r.equipoNombre.value == "" ==> name == "Equipo #" + IdText(r.idEquipo)
  {
    if r.equipoNombre.Some? && r.equipoNombre.value != "" then r.equipoNombre.value
    else "Equipo #" + IdText(r.idEquipo)
  }

  /** A fallback name always shows the equipment id it stands for. */
  lemma FallbackNameShowsId(r: MaintenanceRecord)
    requires r.equipoNombre.None? || r.equipoNombre.value == ""
    ensures Contains(EquipoNombre(r), IdText(r.idEquipo))
  {
    ContainsInfix("Equipo #", IdText(r.idEquipo), "");
    assert "Equipo #" + IdText(r.idEquipo) + "" == EquipoNombre(r);
  }

  // ---------------------------------------------------------------------
  // Calendar
  // ---------------------------------------------------------------------

  /** What the calendar tab shows. */
  datatype CalendarView =
    | NoRecords          // "No hay mantenimientos registrados."
    | MissingColumn      // warning: no fecha_programada column
    | NoScheduled        // "No hay mantenimientos programados."
    | RangeError         // "La fecha 'Desde' no puede ser mayor que 'Hasta'."
    | Scheduled(rows: seq<MaintenanceRecord>)

  predicate HasFecha(r: MaintenanceRecord)
  {
    r.fechaProgramada.Some?
  }

  /** The row is scheduled on a day from `desde` to `hasta`, both included. */
  predicate InRange(desde: Date, hasta: Date, r: MaintenanceRecord)
  {
    r.fechaProgramada.Some? && DateLe(desde, r.fechaProgramada.value) && DateLe(r.fechaProgramada.value, hasta)
  }

  /**
   * `_render_calendar_tab` up to the selected rows: no records, no
   * `fecha_programada` column (`hasFechaColumn` false), no row with a date,
   * a reversed range, or the dated rows inside the range, in order.
   */
  function Calendar(rs: seq<MaintenanceRecord>, hasFechaColumn: bool, desde: Date, hasta: Date): (view: CalendarView)
    ensures view.NoRecords? <==> rs == []
    ensures view.MissingColumn? <==> rs != [] && !hasFechaColumn
    ensures view.NoScheduled? <==> rs != [] && hasFechaColumn && forall r :: r in rs ==> !HasFecha(r)
    ensures view.RangeError? <==> rs != [] && hasFechaColumn && (exists r :: r in rs && HasFecha(r)) && !DateLe(desde, hasta)
    ensures view.Scheduled? ==> view.rows == Filter(rs, (r: MaintenanceRecord) => InRange(desde, hasta, r))
    ensures view.Scheduled? ==> forall r :: r in view.rows <==> r in rs && InRange(desde, hasta, r)
    ensures view.Scheduled? ==> IsSubsequence(view.rows, rs)
  {
    if rs == [] then NoRecords
    else if !hasFechaColumn then MissingColumn
    else
      var cal := Filter(rs, HasFecha);
      FilterMembership(rs, HasFecha);
      if cal == [] then NoScheduled
      else
        assert cal[0] in cal;
        if !DateLe(desde, hasta) then RangeError
        else
          var inRange := (r: MaintenanceRecord) => InRange(desde, hasta, r);
          FilterFilter(rs, HasFecha, inRange, inRange);
          FilterMembership(rs, inRange);
          FilterIsSubsequence(rs, inRange);
          Scheduled(Filter(cal, inRange))
  }

  /** The day of a dated row. */
  function Day(r: MaintenanceRecord): Date
    requires HasFecha(r)
  {
    r.fechaProgramada.value
  }

  /** The earliest day among the dated rows (`min_date`, the default "Desde"). */
  function MinDate(cal: seq<MaintenanceRecord>): (d: Date)
    requires cal != [] && forall i :: 0 <= i < |cal| ==> HasFecha(cal[i])
    ensures exists i :: 0 <= i < |cal| && Day(cal[i]) == d
    ensures forall i :: 0 <= i < |cal| ==> DateLe(d, Day(cal[i]))
  {
    if |cal| == 1 then Day(cal[0])
    else
      var rest := MinDate(cal[1..]);
      assert forall i :: 1 <= i < |cal| ==> cal[1..][i - 1] == cal[i];
      if DateLe(Day(cal[0]), rest) then Day(cal[0]) else rest
  }

  /** The latest day among the dated rows (`max_date`, the default "Hasta"). */
  function MaxDate(cal: seq<MaintenanceRecord>): (d: Date)
    requires cal != [] && forall i :: 0 <= i < |cal| ==> HasFecha(cal[i])
    ensures exists i :: 0 <= i < |cal| && Day(cal[i]) == d
    ensures forall i :: 0 <= i < |cal| ==> DateLe(Day(cal[i]), d)
  {
    if |cal| == 1 then Day(cal[0])
    else
      var rest := MaxDate(cal[1..]);
      assert forall i :: 1 <= i < |cal| ==> cal[1..][i - 1] == cal[i];
      if DateLe(rest, Day(cal[0])) then Day(cal[0]) else rest
  }

  /** With the default range, from the earliest to the latest day, the calendar shows every dated row. */
  lemma DefaultRangeShowsAll(rs: seq<MaintenanceRecord>)
    requires exists r :: r in rs && HasFecha(r)
    ensures Filter(rs, HasFecha) != []
    ensures Calendar(rs, true, MinDate(Filter(rs, HasFecha)), MaxDate(Filter(rs, HasFecha))) == Scheduled(Filter(rs, HasFecha))
  {
    var cal := Filter(rs, HasFecha);
    FilterMembership(rs, HasFecha);
    var r0 :| r0 in rs && HasFecha(r0);
    assert r0 in cal;
    var desde, hasta := MinDate(cal), MaxDate(cal);
    var inRange := (r: MaintenanceRecord) => InRange(desde, hasta, r);
    var i1 :| 0 <= i1 < |cal| && Day(cal[i1]) == desde;
    DateLeIsTotalOrder();
    assert DateLe(desde, hasta) by {
      assert DateLe(desde, Day(cal[i1])) && DateLe(Day(cal[i1]), hasta);
    }
    FilterKeepsAll(cal, inRange);
  }

  // ---------------------------------------------------------------------
  // "Schedule maintenance" form
  // ---------------------------------------------------------------------

  /** `maintenance_type`: "Preventivo" is preventive, every other label corrective. */
  function MaintenanceType(typeLabel: string): (t: string)
    ensures t == "preventivo" <==> typeLabel == "Preventivo"
    ensures t == "preventivo" || t == "correctivo"
  {
    if typeLabel == "Preventivo" then "preventivo" else "correctivo"
  }

  /** On the two labels the form offers, the type is the label lower-cased. */
  lemma OfferedTypesAreLowercased()
    ensures MaintenanceType("Preventivo") == Lower("Preventivo")
    ensures MaintenanceType("Correctivo") == Lower("Correctivo")
  {
    assert Lower("Preventivo") == "preventivo";
    assert Lower("Correctivo") == "correctivo";
  }

  /** The inputs of the "schedule maintenance" form. */
  datatype ScheduleForm = ScheduleForm(equipmentId: int, typeLabel: string, priorityLabel: string, scheduled: Option<Date>)

  const MissingEquipmentMessage := "Debe indicar un ID de equipo."

  /** The JSON body of the form; `now` is the submission time as ISO text. */
  function SchedulePayload(form: ScheduleForm, now: string): (payload: Dict<Value>)
    ensures DistinctKeys(payload)
    ensures Keys(payload) == ["id_equipo", "tipo_mantenimiento", "estado_mantenimiento", "prioridad", "fecha_solicitud",
                              "fecha_programada", "fecha_inicio", "fecha_fin", "costo_mano_obra", "costo_repuestos"]
  {
    [ ("id_equipo", Int(form.equipmentId)),
      ("tipo_mantenimiento", Str(MaintenanceType(form.typeLabel))),
      ("estado_mantenimiento", Str("solicitado")),
      ("prioridad", Str(Lower(form.priorityLabel))),
      ("fecha_solicitud", Str(now)),
      ("fecha_programada", match form.scheduled case Some(d) => Str(IsoDate(d)) case None => Null),
      ("fecha_inicio", Null),
      ("fecha_fin", Null),
      ("costo_mano_obra", Null),
      ("costo_repuestos", Null) ]
  }

  /**
   * A new request is for the chosen equipment, of the mapped type, in state
   * "solicitado", with the lower-cased priority; it has not started, ended
   * or cost anything yet.
   */
  lemma SchedulePayloadFields(form: ScheduleForm, now: string)
    ensures Get(SchedulePayload(form, now), "id_equipo") == Some(Int(form.equipmentId))
    ensures Get(SchedulePayload(form, now), "tipo_mantenimiento") == Some(Str(MaintenanceType(form.typeLabel)))
    ensures Get(SchedulePayload(form, now), "estado_mantenimiento") == Some(Str("solicitado"))
    ensures Get(SchedulePayload(form, now), "prioridad") == Some(Str(Lower(form.priorityLabel)))
    ensures Get(SchedulePayload(form, now), "fecha_solicitud") == Some(Str(now))
    ensures Get(SchedulePayload(form, now), "fecha_programada") == Some(Null) <==> form.scheduled.None?
    ensures form.scheduled.Some? ==> Get(SchedulePayload(form, now), "fecha_programada") == Some(Str(IsoDate(form.scheduled.value)))
    ensures Get(SchedulePayload(form, now), "fecha_inicio") == Some(Null)
    ensures Get(SchedulePayload(form, now), "fecha_fin") == Some(Null)
    ensures Get(SchedulePayload(form, now), "costo_mano_obra") == Some(Null)
    ensures Get(SchedulePayload(form, now), "costo_repuestos") == Some(Null)
  {
    var payload := SchedulePayload(form, now);
    GetAt(payload, 0);
    GetAt(payload, 1);
    GetAt(payload, 2);
    GetAt(payload, 3);
    GetAt(payload, 4);
    GetAt(payload, 5);
    GetAt(payload, 6);
    GetAt(payload, 7);
    GetAt(payload, 8);
    GetAt(payload, 9);
  }

  /**
   * Submitting the form: an equipment id of 0 collects the one error and
   * sends nothing; any other id sends the request body.
   */
  method SubmitSchedule(form: ScheduleForm, now: string) returns (errores: seq<string>, payload: Option<Dict<Value>>)
    ensures errores == [] <==> form.equipmentId != 0
    ensures errores != [] ==> errores == [MissingEquipmentMessage]
    ensures payload.Some? <==> errores == []
    ensures payload.Some? ==> payload.value == SchedulePayload(form, now)
  {
    errores := [];
    if form.equipmentId == 0 {
      errores := errores + [MissingEquipmentMessage];
    }
    if errores != [] {
      return errores, None;
    }
    payload := Some(SchedulePayload(form, now));
  }
}
