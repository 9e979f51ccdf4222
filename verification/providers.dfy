/**
 * The provider screens of the front end: the overview counters and list
 * filters, the provider selector, and the validation and request payload of
 * the create and update forms. Network calls and rendering are left out: the
 * forms end in the request they would send (or the errors they would show).
 */
module Providers {
  import opened Wrappers
  import opened Text
  import opened Seqs
  import opened Dict
  import opened Values

  /**
   * A provider row of the overview table. A column the list endpoint did not
   * return is added with None in every row, so every field is optional.
   */
  datatype Provider = Provider(
    id: Option<int>,
    ruc: Option<string>,
    razonSocial: Option<string>,
    nombreComercial: Option<string>,
    direccion: Option<string>,
    telefono: Option<string>,
    email: Option<string>,
    estado: Option<bool>)

  // ---------------------------------------------------------------------
  // Overview counters
  // ---------------------------------------------------------------------

  /** The row's estado is True (not False, not missing). */
  predicate IsActive(p: Provider)
  {
    p.estado == Some(true)
  }

  /** "Activos": `df["estado"].sum()`, which counts the True cells and skips missing ones. */
  function Activos(providers: seq<Provider>): nat
  {
    Count(providers, IsActive)
  }

  /** "Inactivos": the total minus the active ones. */
  function Inactivos(providers: seq<Provider>): int
  {
    |providers| - Activos(providers)
  }

  /** The inactive count is never negative and counts exactly the rows whose estado is False or missing. */
  lemma InactivosCountsTheRest(providers: seq<Provider>)
    ensures 0 <= Inactivos(providers)
    ensures Inactivos(providers) == Count(providers, (p: Provider) => p.estado != Some(true))
  {
    CountComplement(providers, IsActive, (p: Provider) => p.estado != Some(true));
  }

  // ---------------------------------------------------------------------
  // Overview filters
  // ---------------------------------------------------------------------

  /** The search text occurs, ignoring case, in the row's RUC or razón social as printed. */
  predicate MatchesSearch(texto: string, p: Provider)
  {
    ContainsIgnoreCase(CellText(p.ruc), texto) || ContainsIgnoreCase(CellText(p.razonSocial), texto)
  }

  /** The row stays in the list under the "only active" switch and the search text (an empty text searches nothing). */
  predicate IsShown(soloActivos: bool, texto: string, p: Provider)
  {
    (!soloActivos || IsActive(p)) && (texto == "" || MatchesSearch(texto, p))
  }

  /**
   * `df_filtrado` of the overview: first the "only active" mask, then the
   * search mask when there is a search text. Exactly the rows that pass
   * both stay, in their original order.
   */
  method FilterProviders(providers: seq<Provider>, soloActivos: bool, texto: string) returns (shown: seq<Provider>)
    ensures shown == Filter(providers, (p: Provider) => IsShown(soloActivos, texto, p))
    ensures forall p :: p in shown <==> p in providers && IsShown(soloActivos, texto, p)
    ensures IsSubsequence(shown, providers)
  {
    var keep := (p: Provider) => IsShown(soloActivos, texto, p);
    var search := (p: Provider) => MatchesSearch(texto, p);
    shown := providers;
    if soloActivos {
      shown := Filter(shown, IsActive);
    }
    if texto != "" {
      shown := Filter(shown, search);
    }
    if soloActivos && texto != "" {
      FilterFilter(providers, IsActive, search, keep);
    } else if soloActivos {
      FilterSame(providers, IsActive, keep);
    } else if texto != "" {
      FilterSame(providers, search, keep);
    } else {
      FilterKeepsAll(providers, keep);
    }
    assert shown == Filter(providers, keep);
    FilterMembership(providers, keep);
    FilterIsSubsequence(providers, keep);
  }

  /** A row with neither RUC nor razón social is found by the search "none", because the missing cells print as "None". */
  lemma MissingCellsMatchNone(p: Provider)
    requires p.ruc.None? && p.razonSocial.None?
    ensures MatchesSearch("none", p)
  {
    assert Lower("None") == "none";
    assert "none" <= Lower(CellText(p.ruc));
  }

  // ---------------------------------------------------------------------
  // Provider selector
  // ---------------------------------------------------------------------

  /**
   * `_render_provider_selector`: None for an empty list, otherwise the
   * provider at the position picked in the select box (`choice` ranges
   * over the positions of the list).
   */
  function SelectProvider(providers: seq<Provider>, choice: nat): (selected: Option<Provider>)
    requires providers != [] ==> choice < |providers|
    ensures selected.None? <==> providers == []
    ensures selected.Some? ==> selected.value in providers && selected.value == providers[choice]
  {
    if providers == [] then None else Some(providers[choice])
  }

  // ---------------------------------------------------------------------
  // Create and update forms
  // ---------------------------------------------------------------------

  /** The inputs of the provider form. */
  datatype ProviderForm = ProviderForm(
    ruc: string,
    razonSocial: string,
    nombreComercial: string,
    direccion: string,
    telefono: string,
    email: string,
    estado: bool)

  /** A failed check of the provider form; `Message` is the text shown for it. */
  datatype ProviderError = BadRuc | MissingRazonSocial | MissingNombreComercial | MissingDireccion | MissingTelefono | MissingEmail

  function Message(e: ProviderError): string
  {
    match e
    case BadRuc => "El RUC debe tener 11 d\U{00ED}gitos num\U{00E9}ricos."
    case MissingRazonSocial => "La raz\U{00F3}n social es obligatoria."
    case MissingNombreComercial => "El nombre comercial es obligatorio."
    case MissingDireccion => "La direcci\U{00F3}n es obligatoria."
    case MissingTelefono => "El tel\U{00E9}fono es obligatorio."
    case MissingEmail => "El correo electr\U{00F3}nico es obligatorio."
  }

  /** Every check of the form, in the order the checks run. */
  const ProviderChecks := [BadRuc, MissingRazonSocial, MissingNombreComercial, MissingDireccion, MissingTelefono, MissingEmail]

  /** The RUC check as written: empty, not 11 characters long, or not all digits. */
  predicate RucRejected(ruc: string)
  {
    ruc == "" || |ruc| != 11 || !IsDigitString(ruc)
  }

  /** A RUC is accepted exactly when it is eleven digits. */
  lemma RucAcceptedIff(ruc: string)
    ensures !RucRejected(ruc) <==> |ruc| == 11 && forall i :: 0 <= i < 11 ==> IsDigit(ruc[i])
  {
  }

  /** The form fails check `e`. */
  predicate Fails(form: ProviderForm, e: ProviderError)
  {
    match e
    case BadRuc => RucRejected(form.ruc)
    case MissingRazonSocial => form.razonSocial == ""
    case MissingNombreComercial => form.nombreComercial == ""
    case MissingDireccion => form.direccion == ""
    case MissingTelefono => form.telefono == ""
    case MissingEmail => form.email == ""
  }

  /** `Fails` as a mask over the checks. */
  function FailsOn(form: ProviderForm): ProviderError -> bool
  {
    e => Fails(form, e)
  }

  /** Every check is in the list of checks the form runs. */
  lemma EveryCheckRuns(e: ProviderError)
    ensures e in ProviderChecks
  {
    match e
    case BadRuc => assert ProviderChecks[0] == e;
    case MissingRazonSocial => assert ProviderChecks[1] == e;
    case MissingNombreComercial => assert ProviderChecks[2] == e;
    case MissingDireccion => assert ProviderChecks[3] == e;
    case MissingTelefono => assert ProviderChecks[4] == e;
    case MissingEmail => assert ProviderChecks[5] == e;
  }

  /** The form passes every check. */
  predicate IsValidForm(form: ProviderForm)
  {
    && !RucRejected(form.ruc)
    && form.razonSocial != ""
    && form.nombreComercial != ""
    && form.direccion != ""
    && form.telefono != ""
    && form.email != ""
  }

  /**
   * The `errores` list of either form: one error per failed check, in the
   * fixed order of the checks, and none when the form is valid.
   */
  method CollectProviderErrors(form: ProviderForm) returns (errores: seq<ProviderError>)
    ensures errores == Filter(ProviderChecks, FailsOn(form))
  {
    var fails := FailsOn(form);
    var checks := ProviderChecks;
    errores := [];
    errores := errores + (if RucRejected(form.ruc) then [BadRuc] else []);
    ChecksStep(checks, 0, errores, fails);
    errores := errores + (if form.razonSocial == "" then [MissingRazonSocial] else []);
    ChecksStep(checks, 1, errores, fails);
    errores := errores + (if form.nombreComercial == "" then [MissingNombreComercial] else []);
    ChecksStep(checks, 2, errores, fails);
    errores := errores + (if form.direccion == "" then [MissingDireccion] else []);
    ChecksStep(checks, 3, errores, fails);
    errores := errores + (if form.telefono == "" then [MissingTelefono] else []);
    ChecksStep(checks, 4, errores, fails);
    errores := errores + (if form.email == "" then [MissingEmail] else []);
    ChecksStep(checks, 5, errores, fails);
  }

  /**
   * The failed checks, in check order, are exactly the checks the form
   * fails; there are none exactly when the form is valid.
   */
  lemma {:induction false} FailedChecksMeaning(form: ProviderForm)
    ensures forall e :: e in Filter(ProviderChecks, FailsOn(form)) <==> Fails(form, e)
    ensures Filter(ProviderChecks, FailsOn(form)) == [] <==> IsValidForm(form)
    ensures IsSubsequence(Filter(ProviderChecks, FailsOn(form)), ProviderChecks)
  {
    var failed := Filter(ProviderChecks, FailsOn(form));
    FilterMembership(ProviderChecks, FailsOn(form));
    FilterIsSubsequence(ProviderChecks, FailsOn(form));
    forall e ensures e in failed <==> Fails(form, e) {
      EveryCheckRuns(e);
    }
    if !IsValidForm(form) {
      var e :| e in ProviderChecks && Fails(form, e);
      assert e in failed;
    }
  }

  /** After check `k`, the errors collected so far are the failed checks among the first `k + 1`. */
  lemma {:induction false} ChecksStep(checks: seq<ProviderError>, k: nat, errores: seq<ProviderError>, fails: ProviderError -> bool)
    requires k < |checks|
    requires errores == Filter(checks[..k], fails) + (if fails(checks[k]) then [checks[k]] else [])
    ensures errores == Filter(checks[..k + 1], fails)
    ensures k + 1 == |checks| ==> errores == Filter(checks, fails)
  {
    assert checks[..k + 1] == checks[..k] + [checks[k]];
    assert k + 1 == |checks| ==> checks[..k + 1] == checks;
    FilterSnoc(checks[..k], checks[k], fails);
  }

  /** The JSON body both forms send: the seven inputs under their column names, in this order. */
  function PayloadOf(form: ProviderForm): (payload: Dict<Value>)
    ensures Keys(payload) == ["ruc", "razon_social", "nombre_comercial", "direccion", "telefono", "email", "estado"]
    ensures DistinctKeys(payload)
  {
    [ ("ruc", Str(form.ruc)),
      ("razon_social", Str(form.razonSocial)),
      ("nombre_comercial", Str(form.nombreComercial)),
      ("direccion", Str(form.direccion)),
      ("telefono", Str(form.telefono)),
      ("email", Str(form.email)),
      ("estado", Bool(form.estado)) ]
  }

  /** Each input is sent unchanged under its own column name. */
  lemma PayloadCarriesInputs(form: ProviderForm)
    ensures Get(PayloadOf(form), "ruc") == Some(Str(form.ruc))
    ensures Get(PayloadOf(form), "razon_social") == Some(Str(form.razonSocial))
    ensures Get(PayloadOf(form), "nombre_comercial") == Some(Str(form.nombreComercial))
    ensures Get(PayloadOf(form), "direccion") == Some(Str(form.direccion))
    ensures Get(PayloadOf(form), "telefono") == Some(Str(form.telefono))
    ensures Get(PayloadOf(form), "email") == Some(Str(form.email))
    ensures Get(PayloadOf(form), "estado") == Some(Bool(form.estado))
  {
    var payload := PayloadOf(form);
    GetAt(payload, 0);
    GetAt(payload, 1);
    GetAt(payload, 2);
    GetAt(payload, 3);
    GetAt(payload, 4);
    GetAt(payload, 5);
    GetAt(payload, 6);
  }

  /** The request a submitted form sends to the gateway: POST for a new provider, PUT for an existing one. */
  datatype ProviderRequest = ProviderRequest(verb: string, path: string, payload: Dict<Value>)

  /** Which form was submitted: the create form, or the update form of the selected provider. */
  datatype FormTarget = Create | Update(selected: Provider)

  /** `f"{selected['id_proveedor']}"`: the id's decimal text, or "None" for a null id. */
  function IdText(id: Option<int>): string
  {
    match id
    case Some(i) => IntToString(i)
    case None => "None"
  }

  /** The PUT path ends in the selected provider's id, which reads back from it. */
  lemma UpdatePathNamesId(i: nat)
    ensures |"/providers/" + IdText(Some(i))| > 11
    ensures IsDigitString(("/providers/" + IdText(Some(i)))[11..])
    ensures ParseNat(("/providers/" + IdText(Some(i)))[11..]) == i
  {
    var path := "/providers/" + IdText(Some(i));
    assert path[11..] == NatToString(i);
    ParseNatToString(i);
  }

  /**
   * Submitting the create form or the update form of the selected provider:
   * the same checks decide, and only a form with no errors sends a request,
   * whose body is the form's seven inputs.
   */
  method SubmitProviderForm(form: ProviderForm, target: FormTarget) returns (errores: seq<ProviderError>, request: Option<ProviderRequest>)
    ensures errores == Filter(ProviderChecks, FailsOn(form))
    ensures request.Some? <==> IsValidForm(form)
    ensures request.Some? <==> errores == []
    ensures request.Some? ==> request.value.payload == PayloadOf(form)
    ensures request.Some? && target.Create? ==> request.value.verb == "POST" && request.value.path == "/providers/"
    ensures request.Some? && target.Update? ==>
      request.value.verb == "PUT" && request.value.path == "/providers/" + IdText(target.selected.id)
  {
    errores := CollectProviderErrors(form);
    FailedChecksMeaning(form);
    if errores != [] {
      return errores, None;
    }
    var payload := PayloadOf(form);
    match target
    case Create =>
      request := Some(ProviderRequest("POST", "/providers/", payload));
    case Update(selected) =>
      request := Some(ProviderRequest("PUT", "/providers/" + IdText(selected.id), payload));
  }

  /**
   * `_render_update_tab` from the list fetched to the request: an empty list
   * stops before the form; otherwise the provider picked in the selector is
   * the one whose id the PUT names, and the form's checks decide whether it
   * is sent.
   */
  method SubmitUpdateTab(providers: seq<Provider>, choice: nat, form: ProviderForm)
    returns (selected: Option<Provider>, errores: seq<ProviderError>, request: Option<ProviderRequest>)
    requires providers != [] ==> choice < |providers|
    ensures selected == SelectProvider(providers, choice)
    ensures providers == [] ==> errores == [] && request.None?
    ensures providers != [] ==> errores == Filter(ProviderChecks, FailsOn(form))
    ensures request.Some? <==> providers != [] && IsValidForm(form)
    ensures request.Some? ==>
      && request.value.verb == "PUT"
      && request.value.path == "/providers/" + IdText(providers[choice].id)
      && request.value.payload == PayloadOf(form)
  {
    if providers == [] {
      return None, [], None;
    }
    selected := SelectProvider(providers, choice);
    errores, request := SubmitProviderForm(form, Update(selected.value));
  }
}
