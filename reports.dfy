/**
 * The report documents the CRXcavator service returns, and the reduction of one
 * such document to the flat record that `ChromeExtension.get_risk_info` builds
 * (ChromeExtensions.py:64-118).
 *
 * Every optional key of the document is an `Option` field (`None` = key absent).
 * The reduction does not invent defaults for the keys the source reads without
 * a presence check: those inputs produce a `Crash`, the exception Python raises.
 */
module Reports {
  import opened Wrappers

  /** A decoded JSON value. Objects are maps; numbers are integers in this model. */
  datatype Json =
    | Null
    | Bool(b: bool)
    | Num(n: int)
    | Str(s: string)
    | Arr(items: seq<Json>)
    | Obj(fields: map<string, Json>)

  /** Python truthiness of a decoded JSON value. */
  predicate Truthy(j: Json) {
    match j
    case Null => false
    case Bool(b) => b
    case Num(n) => n != 0
    case Str(s) => s != ""
    case Arr(items) => items != []
    case Obj(fields) => fields != map[]
  }

  /** One of the `csp`, `permissions`, `webstore` sub-dicts of `risk`. */
  datatype SubScore = SubScore(total: Option<Json>)

  /** The `data.risk` dict; each field is `None` when its key is absent. */
  datatype Risk = Risk(
    total: Option<Json>,
    csp: Option<SubScore>,
    permissions: Option<SubScore>,
    webstore: Option<SubScore>)

  /**
   * The `data` dict of a report. `dangerousfunctions` keeps its keys in
   * document order, as the decoded Python dict does.
   */
  datatype ReportData = ReportData(
    risk: Option<Risk>,
    extcalls: Option<Json>,
    dangerousfunctions: Option<seq<(string, Json)>>,
    entrypoints: Option<Json>,
    manifest: Option<Json>,
    webstore: Option<Json>)

  /**
   * A report document. `Empty` is the empty dict `{}` ("no data");
   * `Report` is a dict with at least one key, of which `version` and `data`
   * are the ones the reduction reads.
   */
  datatype RawReport =
    | Empty
    | Report(version: Option<Json>, data: Option<ReportData>)

  /** The keys a record can hold. */
  datatype Key =
    | ExtensionId | Version | TotalRisk | URLs | DangerousFns | Entrypoints
    | CspRisk | PermissionsRisk | WebstoreRisk | Manifest
    | Name | ShortDescription | LastUpdated | OfferedBy | Rating | RatingUsers
    | Users | Size | Type | PermissionWarnings | Email | Address | PrivacyPolicy

  /** The key's name in the record, in the CSV header, and in the listing dict. */
  function KeyName(k: Key): string {
    match k
    case ExtensionId => "extension_id"
    case Version => "version"
    case TotalRisk => "total_risk"
    case URLs => "URLs"
    case DangerousFns => "dangerous_fns"
    case Entrypoints => "entrypoints"
    case CspRisk => "csp_risk"
    case PermissionsRisk => "permissions_risk"
    case WebstoreRisk => "webstore_risk"
    case Manifest => "manifest"
    case Name => "name"
    case ShortDescription => "short_description"
    case LastUpdated => "last_updated"
    case OfferedBy => "offered_by"
    case Rating => "rating"
    case RatingUsers => "rating_users"
    case Users => "users"
    case Size => "size"
    case Type => "type"
    case PermissionWarnings => "permission_warnings"
    case Email => "email"
    case Address => "address"
    case PrivacyPolicy => "privacy_policy"
  }

  /**
   * The flat record: key to value. `None` is Python's `None`, whether the
   * source wrote it as a default or copied a JSON `null` from the report;
   * a record never holds `Some(Null)` (see `PyValues`).
   */
  type Record = map<Key, Option<Json>>

  /** A value copied out of the decoded report: JSON `null` is Python's `None`. */
  function Py(o: Option<Json>): Option<Json> {
    if o == Some(Null) then None else o
  }

  /** A copied value that reads as Python `None`: its key is absent or it is JSON `null`. */
  predicate IsNone(o: Option<Json>) {
    o.None? || o.value.Null?
  }

  /** The record encodes Python `None` one way only: no value is `Some(Null)`. */
  predicate PyValues(rec: Record) {
    forall k :: k in rec ==> rec[k] != Some(Null)
  }

  /** The exceptions the reduction raises, in the order the source evaluates its accesses. */
  datatype Crash =
    | MissingData                      // report['data'], :69
    | MissingVersion                   // report['version'], :72
    | MissingRisk                      // risk.keys() on None, :78
    | MissingSubTotal(section: string) // risk[section]['total'], :78-80
    | MissingWebstore                  // report['data']['webstore'], :83
    | ListingNotADict                  // webstore[...] on a truthy non-dict, :86
    | MissingListingField(key: Key)    // webstore[key], :86-99

  const NoDataName: string := "No data available."

  /** The fourteen storefront-listing keys, in the order :86-99 reads them. */
  const ListingKeys: seq<Key> := [
    Name, ShortDescription, Version, LastUpdated, OfferedBy, Rating,
    RatingUsers, Users, Size, Type, PermissionWarnings, Email, Address, PrivacyPolicy]

  /** The keys that occur in `ListingKeys`. */
  predicate IsListingKey(k: Key) {
    || k.Name? || k.ShortDescription? || k.Version? || k.LastUpdated? || k.OfferedBy?
    || k.Rating? || k.RatingUsers? || k.Users? || k.Size? || k.Type?
    || k.PermissionWarnings? || k.Email? || k.Address? || k.PrivacyPolicy?
  }

  /** The keys of the record built at :70-82, before the listing update. */
  predicate IsBaseKey(k: Key) {
    || k.ExtensionId? || k.Version? || k.TotalRisk? || k.URLs? || k.DangerousFns?
    || k.Entrypoints? || k.CspRisk? || k.PermissionsRisk? || k.WebstoreRisk? || k.Manifest?
  }

  /** `ListingKeys` lists exactly the listing keys, each once. */
  lemma ListingKeysSpec()
    ensures |ListingKeys| == 14
    ensures forall i :: 0 <= i < |ListingKeys| ==> IsListingKey(ListingKeys[i])
    ensures forall i, j :: 0 <= i < j < |ListingKeys| ==> ListingKeys[i] != ListingKeys[j]
    ensures forall k :: IsListingKey(k) ==> k in ListingKeys
  {
  }

  /** The record for an empty report (:68). */
  function NoDataRecord(id: string): Record {
    map[ExtensionId := Some(Str(id)), Name := Some(Str(NoDataName))]
  }

  /** The entries of a decoded JSON object: no key occurs twice. */
  predicate DistinctKeys(entries: seq<(string, Json)>) {
    forall i, j :: 0 <= i < j < |entries| ==> entries[i].0 != entries[j].0
  }

  /**
   * `list(d.keys())` for the dangerous-functions dict: one name per entry, in
   * order, and no name twice when the dict's keys are distinct.
   */
  function KeyList(entries: seq<(string, Json)>): (names: seq<Json>)
    ensures |names| == |entries|
    ensures forall i :: 0 <= i < |entries| ==> names[i] == Str(entries[i].0)
    ensures DistinctKeys(entries) ==> forall i, j :: 0 <= i < j < |names| ==> names[i] != names[j]
  {
    seq(|entries|, i requires 0 <= i < |entries| => Str(entries[i].0))
  }

  /** `risk[section]['total'] if section in risk.keys() else None`, when it does not raise. */
  function SubTotal(s: Option<SubScore>): Option<Json> {
    if s.Some? then Py(s.value.total) else None
  }

  /** A sub-score dict that is present but has no `total` key raises a KeyError. */
  predicate SubScoreRaises(s: Option<SubScore>) {
    s.Some? && s.value.total.None?
  }

  /** The first of the three sub-score accesses at :78-80 that raises, if any. */
  function SubScoreCrash(risk: Risk): (c: Option<Crash>)
    ensures c.None? <==>
      !SubScoreRaises(risk.csp) && !SubScoreRaises(risk.permissions) && !SubScoreRaises(risk.webstore)
  {
    if SubScoreRaises(risk.csp) then Some(MissingSubTotal("csp"))
    else if SubScoreRaises(risk.permissions) then Some(MissingSubTotal("permissions"))
    else if SubScoreRaises(risk.webstore) then Some(MissingSubTotal("webstore"))
    else None
  }

  /** Whether the listing dict `m` holds the key `k`. */
  predicate Holds(m: map<string, Json>, k: Key) {
    KeyName(k) in m
  }

  /**
   * The position of the first key of `keys` that the listing dict `m` lacks:
   * every earlier key is present, and `|keys|` means none is missing.
   */
  function FirstMissing(keys: seq<Key>, m: map<string, Json>): (i: nat)
    ensures i <= |keys|
    ensures forall j :: 0 <= j < i ==> Holds(m, keys[j])
    ensures i < |keys| ==> !Holds(m, keys[i])
  {
    if keys == [] || !Holds(m, keys[0]) then 0 else 1 + FirstMissing(keys[1..], m)
  }

  /** The `report_data.update(...)` of :84-117 for a given `webstore` value. */
  function ListingUpdate(ws: Json): (res: Result<Record, Crash>)
    ensures res.Success? ==> PyValues(res.value)
  {
    if !Truthy(ws) then
      Success(map k: Key | IsListingKey(k) :: None)
    else if !ws.Obj? then
      Failure(ListingNotADict)
    else
      var i := FirstMissing(ListingKeys, ws.fields);
      if i < |ListingKeys| then
        Failure(MissingListingField(ListingKeys[i]))
      else
        ListingKeysSpec();
        Success(map k: Key | IsListingKey(k) :: Py(Some(ws.fields[KeyName(k)])))
  }

  /** The dict literal of :70-82. */
  function BaseRecord(id: string, version: Json, d: ReportData, risk: Risk): (rec: Record)
    ensures PyValues(rec)
  {
    map[
      ExtensionId := Some(Str(id)),
      Version := Py(Some(version)),
      TotalRisk := Py(risk.total),  // a dict holding 'total' is truthy, so `risk and ...` adds nothing
      URLs := Py(d.extcalls),
      DangerousFns := if d.dangerousfunctions.Some? then Some(Arr(KeyList(d.dangerousfunctions.value))) else None,
      Entrypoints := Py(d.entrypoints),
      CspRisk := SubTotal(risk.csp),
      PermissionsRisk := SubTotal(risk.permissions),
      WebstoreRisk := SubTotal(risk.webstore),
      Manifest := Py(d.manifest)]
  }

  /**
   * What `get_risk_info` returns once `report` is set (:64-118): the no-data
   * record for an empty report, otherwise the base record updated with the
   * listing fields, or the exception the first failing access raises.
   */
  function Normalize(id: string, r: RawReport): (res: Result<Record, Crash>)
    ensures r.Empty? ==> res.Success?
    ensures res.Success? ==> PyValues(res.value) && ExtensionId in res.value && res.value[ExtensionId] == Some(Str(id))
  {
    match r
    case Empty => Success(NoDataRecord(id))
    case Report(version, data) =>
      if data.None? then Failure(MissingData)
      else if version.None? then Failure(MissingVersion)
      else if data.value.risk.None? then Failure(MissingRisk)
      else
        var risk := data.value.risk.value;
        match SubScoreCrash(risk)
        case Some(c) => Failure(c)
        case None =>
          if data.value.webstore.None? then Failure(MissingWebstore)
          else
            match ListingUpdate(data.value.webstore.value)
            case Failure(c) => Failure(c)
            case Success(update) => Success(BaseRecord(id, version.value, data.value, risk) + update)
  }

  /**
   * An independent statement of when the reduction of a non-empty report
   * raises: a mandatory key is missing, a present sub-score has no total, or a
   * truthy listing is not a dict holding all fourteen listing keys.
   */
  predicate Raises(r: RawReport)
    requires r.Report?
  {
    || r.data.None?
    || r.version.None?
    || r.data.value.risk.None?
    || SubScoreRaises(r.data.value.risk.value.csp)
    || SubScoreRaises(r.data.value.risk.value.permissions)
    || SubScoreRaises(r.data.value.risk.value.webstore)
    || r.data.value.webstore.None?
    || (var ws := r.data.value.webstore.value;
        Truthy(ws) && (!ws.Obj? || exists i :: 0 <= i < |ListingKeys| && !Holds(ws.fields, ListingKeys[i])))
  }

  /** The empty report gives exactly the two-key placeholder record. */
  lemma NoDataShape(id: string)
    ensures Normalize(id, Empty).Success?
    ensures var rec := Normalize(id, Empty).value;
      rec.Keys == {ExtensionId, Name} && rec[ExtensionId] == Some(Str(id)) && rec[Name] == Some(Str(NoDataName))
  {
  }

  /** A non-empty report raises exactly when `Raises` says so. */
  lemma RaisesExactly(id: string, r: RawReport)
    requires r.Report?
    ensures Normalize(id, r).Failure? <==> Raises(r)
  {
  }

  /** Which exception each missing mandatory part raises, in the source's evaluation order. */
  lemma CrashOrder(id: string, version: Option<Json>, data: Option<ReportData>)
    ensures data.None? ==> Normalize(id, Report(version, data)) == Failure(MissingData)
    ensures data.Some? && version.None? ==> Normalize(id, Report(version, data)) == Failure(MissingVersion)
    ensures data.Some? && version.Some? && data.value.risk.None? ==>
      Normalize(id, Report(version, data)) == Failure(MissingRisk)
    ensures data.Some? && version.Some? && data.value.risk.Some? && SubScoreCrash(data.value.risk.value).None?
            && data.value.webstore.None? ==>
      Normalize(id, Report(version, data)) == Failure(MissingWebstore)
  {
  }

  /** A successful reduction of a non-empty report is its base record updated with its listing. */
  lemma Decompose(id: string, r: RawReport)
    requires r.Report? && Normalize(id, r).Success?
    ensures r.data.Some? && r.version.Some? && r.data.value.risk.Some? && r.data.value.webstore.Some?
    ensures ListingUpdate(r.data.value.webstore.value).Success?
    ensures Normalize(id, r).value ==
      BaseRecord(id, r.version.value, r.data.value, r.data.value.risk.value) + ListingUpdate(r.data.value.webstore.value).value
  {
  }

  /** A listing update sets exactly the fourteen listing keys. */
  lemma ListingUpdateKeys(ws: Json)
    requires ListingUpdate(ws).Success?
    ensures forall k :: k in ListingUpdate(ws).value <==> IsListingKey(k)
  {
  }

  /** The base record sets exactly its ten keys. */
  lemma BaseRecordKeys(id: string, version: Json, d: ReportData, risk: Risk)
    ensures forall k :: k in BaseRecord(id, version, d, risk) <==> IsBaseKey(k)
  {
  }

  /** A key outside the listing keeps the value the base record gives it. */
  lemma BaseValue(id: string, r: RawReport, k: Key)
    requires r.Report? && Normalize(id, r).Success? && !IsListingKey(k)
    ensures r.data.Some? && r.version.Some? && r.data.value.risk.Some?
    ensures var base := BaseRecord(id, r.version.value, r.data.value, r.data.value.risk.value);
      k in base && k in Normalize(id, r).value && Normalize(id, r).value[k] == base[k]
  {
  }

  /** A listing key takes the value the listing update gives it. */
  lemma ListingValue(id: string, r: RawReport, k: Key)
    requires r.Report? && Normalize(id, r).Success? && IsListingKey(k)
    ensures r.data.Some? && r.data.value.webstore.Some? && ListingUpdate(r.data.value.webstore.value).Success?
    ensures var update := ListingUpdate(r.data.value.webstore.value).value;
      k in update && k in Normalize(id, r).value && Normalize(id, r).value[k] == update[k]
  {
  }

  /**
   * The record of a non-empty report holds all twenty-three keys (every `Key`)
   * whatever sections are present.
   */
  lemma RecordKeySet(id: string, r: RawReport)
    requires r.Report? && Normalize(id, r).Success?
    ensures forall k: Key :: k in Normalize(id, r).value
  {
  }

  /**
   * The optional sections are copied as they are: `URLs`, `entrypoints` and
   * `manifest` are `None` exactly when their key is absent or holds JSON
   * `null`, and `dangerous_fns` is `None` exactly when its key is absent.
   */
  lemma OptionalSections(id: string, r: RawReport)
    requires r.Report? && Normalize(id, r).Success?
    ensures var rec := Normalize(id, r).value; var d := r.data.value;
      && rec[ExtensionId] == Some(Str(id))
      && (rec[URLs].None? <==> IsNone(d.extcalls)) && (!IsNone(d.extcalls) ==> rec[URLs] == d.extcalls)
      && (rec[Entrypoints].None? <==> IsNone(d.entrypoints)) && (!IsNone(d.entrypoints) ==> rec[Entrypoints] == d.entrypoints)
      && (rec[Manifest].None? <==> IsNone(d.manifest)) && (!IsNone(d.manifest) ==> rec[Manifest] == d.manifest)
      && (rec[DangerousFns].None? <==> d.dangerousfunctions.None?)
  {
    BaseValue(id, r, ExtensionId);
    BaseValue(id, r, URLs);
    BaseValue(id, r, Entrypoints);
    BaseValue(id, r, Manifest);
    BaseValue(id, r, DangerousFns);
  }

  /**
   * A present `dangerousfunctions` dict gives `dangerous_fns` as its key list
   * in order, without repeats when the decoded dict has distinct keys.
   */
  lemma DangerousFnsList(id: string, r: RawReport)
    requires r.Report? && Normalize(id, r).Success? && r.data.value.dangerousfunctions.Some?
    ensures var fns := Normalize(id, r).value[DangerousFns]; var entries := r.data.value.dangerousfunctions.value;
      && fns.Some? && fns.value.Arr? && |fns.value.items| == |entries|
      && (forall i :: 0 <= i < |entries| ==> fns.value.items[i] == Str(entries[i].0))
      && (DistinctKeys(entries) ==> forall i, j :: 0 <= i < j < |entries| ==> fns.value.items[i] != fns.value.items[j])
  {
    BaseValue(id, r, DangerousFns);
  }

  /**
   * The risk scores default independently: each sub-score is `None` exactly
   * when its own key is absent from `risk` or its `total` is JSON `null`, and
   * `total_risk` is `None` exactly when `risk` has no `total` (in particular
   * when `risk` is the empty, falsy dict) or its `total` is `null`.
   */
  lemma RiskScores(id: string, r: RawReport)
    requires r.Report? && Normalize(id, r).Success?
    ensures var rec := Normalize(id, r).value; var risk := r.data.value.risk.value;
      && (rec[TotalRisk].None? <==> IsNone(risk.total))
      && (risk == Risk(None, None, None, None) ==> rec[TotalRisk].None?)
      && (!IsNone(risk.total) ==> rec[TotalRisk] == risk.total)
      && (rec[CspRisk].None? <==> risk.csp.None? || IsNone(risk.csp.value.total))
      && (risk.csp.Some? && !IsNone(risk.csp.value.total) ==> rec[CspRisk] == risk.csp.value.total)
      && (rec[PermissionsRisk].None? <==> risk.permissions.None? || IsNone(risk.permissions.value.total))
      && (risk.permissions.Some? && !IsNone(risk.permissions.value.total) ==> rec[PermissionsRisk] == risk.permissions.value.total)
      && (rec[WebstoreRisk].None? <==> risk.webstore.None? || IsNone(risk.webstore.value.total))
      && (risk.webstore.Some? && !IsNone(risk.webstore.value.total) ==> rec[WebstoreRisk] == risk.webstore.value.total)
  {
    BaseValue(id, r, TotalRisk);
    BaseValue(id, r, CspRisk);
    BaseValue(id, r, PermissionsRisk);
    BaseValue(id, r, WebstoreRisk);
  }

  /**
   * The listing block is all or nothing: a falsy `webstore` sets all fourteen
   * listing fields to `None` together, a truthy one copies all fourteen (a
   * JSON `null` among them reads as `None`); in both cases `version` comes
   * from the listing, never from the report's own top-level `version`.
   */
  lemma ListingBlock(id: string, r: RawReport)
    requires r.Report? && Normalize(id, r).Success?
    ensures var rec := Normalize(id, r).value; var ws := r.data.value.webstore.value;
      && (!Truthy(ws) ==> forall k :: IsListingKey(k) ==> k in rec && rec[k].None?)
      && (Truthy(ws) ==> ws.Obj? && forall k :: IsListingKey(k) ==>
            Holds(ws.fields, k) && k in rec
            && (rec[k].None? <==> ws.fields[KeyName(k)].Null?)
            && (rec[k].Some? ==> rec[k].value == ws.fields[KeyName(k)]))
      && (Truthy(ws) ==> rec[Version] == Py(Some(ws.fields["version"])))
      && (!Truthy(ws) ==> rec[Version].None?)
  {
    var ws := r.data.value.webstore.value;
    ListingKeysSpec();
    forall k | IsListingKey(k)
      ensures k in Normalize(id, r).value
      ensures !Truthy(ws) ==> Normalize(id, r).value[k].None?
      ensures Truthy(ws) ==> ws.Obj? && Holds(ws.fields, k) && Normalize(id, r).value[k] == Py(Some(ws.fields[KeyName(k)]))
    {
      ListingValue(id, r, k);
    }
    assert KeyName(Version) == "version";
  }
}
