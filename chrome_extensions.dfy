/**
 * The two classes of ChromeExtensions.py: `ChromeExtension`, whose one mutable
 * slot `report` is filled lazily from the service, and `ExtensionList`, which
 * runs an operation over every extension and collects the results in input
 * order. The worker pool is modelled as a sequential, order-preserving map;
 * the network is a `Wire` value passed from call to call.
 */
module ChromeExtensions {
  import opened Wrappers
  import opened Reports
  import opened Service

  /** The report a call of `get_risk_info` works on: the slot's, or a fresh lookup when it is empty. */
  function Fetch(id: string, slot: Option<RawReport>, w: Wire): (r: (RawReport, Wire))
    requires slot.Some? || LookupReturns(w.replies)
    ensures slot.None? ==> |r.1.replies| < |w.replies| && |r.1.sent| > |w.sent|
  {
    if slot.Some? then (slot.value, w) else Lookup(id, w)
  }

  /** `get_risk_info` returns: its lookup returns, and so does the scan it may submit. */
  predicate RiskInfoReturns(id: string, slot: Option<RawReport>, submit: bool, w: Wire) {
    && (slot.Some? || LookupReturns(w.replies))
    && (submit && Fetch(id, slot, w).0 == Empty ==> Answers(Fetch(id, slot, w).1.replies))
  }

  /**
   * `get_risk_info(submit)` (:61-118): the record or exception, the report
   * slot afterwards, and the wire afterwards.
   */
  function RiskInfo(id: string, slot: Option<RawReport>, submit: bool, w: Wire): (r: (Result<Record, Crash>, RawReport, Wire))
    requires RiskInfoReturns(id, slot, submit, w)
    ensures |r.2.replies| <= |w.replies| && |r.2.sent| >= |w.sent|
    ensures |r.2.sent| > |w.sent| <==> slot.None? || (submit && r.1 == Empty)
  {
    var (r, w1) := Fetch(id, slot, w);
    if r == Empty then
      var w2 := Log(w1, NoData(id));
      (Normalize(id, r), r, if submit then Submit(id, w2).1 else w2)
    else
      (Normalize(id, r), r, w1)
  }

  /**
   * `get_risk_info` looks the report up only when the slot is empty: with a
   * filled slot it sends no GET, keeps the slot, and sends a request at all
   * only for the no-data scan that `submit` asks for. Its record is always the
   * reduction of the report it ends with.
   */
  lemma LazyLookup(id: string, slot: Option<RawReport>, submit: bool, w: Wire)
    requires RiskInfoReturns(id, slot, submit, w)
    ensures var (res, r, w') := RiskInfo(id, slot, submit, w);
      && res == Normalize(id, r)
      && (slot.None? ==> r == Lookup(id, w).0)
      && (slot.Some? ==> r == slot.value)
      && (slot.Some? && !(submit && r == Empty) ==> w'.replies == w.replies && w'.sent == w.sent)
  {
  }

  /**
   * For an empty report the record is the two-key placeholder, one no-data line
   * is logged, and a scan is submitted exactly when `submit` is set.
   */
  lemma NoDataCall(id: string, slot: Option<RawReport>, submit: bool, w: Wire)
    requires RiskInfoReturns(id, slot, submit, w)
    requires Fetch(id, slot, w).0 == Empty
    ensures var (res, r, w') := RiskInfo(id, slot, submit, w); var w1 := Fetch(id, slot, w).1;
      && res == Success(map[ExtensionId := Some(Str(id)), Name := Some(Str(NoDataName))])
      && (submit ==> w' == Submit(id, Log(w1, NoData(id))).1)
      && (!submit ==> w' == Log(w1, NoData(id)))
  {
  }

  /**
   * Once the slot is set, calling `get_risk_info` again fetches nothing and
   * returns the same record.
   */
  lemma RepeatedCall(id: string, slot: Option<RawReport>, submit: bool, w: Wire)
    requires RiskInfoReturns(id, slot, submit, w)
    ensures var (res, r, w1) := RiskInfo(id, slot, submit, w);
      && RiskInfoReturns(id, Some(r), false, w1)
      && RiskInfo(id, Some(r), false, w1).0 == res
      && RiskInfo(id, Some(r), false, w1).1 == r
      && RiskInfo(id, Some(r), false, w1).2.replies == w1.replies
      && RiskInfo(id, Some(r), false, w1).2.sent == w1.sent
  {
  }

  /** One extension and the result of its last lookup. */
  class ChromeExtension {
    const extId: string
    var report: Option<RawReport>

    constructor (extId: string)
      ensures this.extId == extId && report == None
    {
      this.extId := extId;
      report := None;
    }

    /** `submit_for_scan` (:25-42), the retry recursion run as a loop. */
    method SubmitForScan(w: Wire) returns (ok: bool, w': Wire)
      requires Answers(w.replies)
      ensures (ok, w') == Submit(extId, w)
    {
      var cur := w;
      while cur.replies[0].ConnErr?
        invariant Answers(cur.replies)
        invariant Submit(extId, cur) == Submit(extId, w)
        decreases |cur.replies|
      {
        cur := Log(Attempt(cur, Post(extId)), SubmitRetry(extId));
      }
      var o := cur.replies[0];
      cur := Attempt(cur, Post(extId));
      if o.Ok? {
        ok, w' := true, cur;
      } else {
        ok, w' := false, Log(cur, SubmitRejected(extId, o.code, o.body));
      }
    }

    /** `crxcavator_lookup` (:44-59), the retry recursion run as a loop. */
    method CrxcavatorLookup(w: Wire) returns (w': Wire)
      requires LookupReturns(w.replies)
      modifies this`report
      ensures report == Some(Lookup(extId, w).0)
      ensures w' == Lookup(extId, w).1
    {
      var cur := w;
      while cur.replies[0].ConnErr?
        invariant LookupReturns(cur.replies)
        invariant Lookup(extId, cur) == Lookup(extId, w)
        decreases |cur.replies|
      {
        cur := Log(Attempt(cur, Get(extId)), LookupRetry(extId));
      }
      var o := cur.replies[0];
      cur := Attempt(cur, Get(extId));
      if !NeedsScan(o) {
        report := Some(o.reports[|o.reports| - 1]);
        w' := cur;
      } else {
        report := Some(Empty);
        var _, w2 := SubmitForScan(cur);
        w' := w2;
      }
    }

    /** `get_risk_info(submit)` (:61-118). */
    method GetRiskInfo(submit: bool, w: Wire) returns (res: Result<Record, Crash>, w': Wire)
      requires RiskInfoReturns(extId, report, submit, w)
      modifies this`report
      ensures var (res0, r, w0) := RiskInfo(extId, old(report), submit, w);
        res == res0 && report == Some(r) && w' == w0
    {
      var cur := w;
      if report.None? {
        cur := CrxcavatorLookup(cur);
      }
      var r := report.value;
      if r == Empty {
        cur := Log(cur, NoData(extId));
        if submit {
          var _, w2 := SubmitForScan(cur);
          cur := w2;
        }
      }
      res := Normalize(extId, r);
      w' := cur;
    }
  }

  /**
   * `_export_data` (:146-148) as a pool worker runs it: `get_risk_info()` on
   * a copy of the extension, leaving the caller's extension as it was.
   */
  method ExportData(id: string, slot: Option<RawReport>, w: Wire) returns (res: Result<Record, Crash>, w': Wire)
    requires RiskInfoReturns(id, slot, false, w)
    ensures res == RiskInfo(id, slot, false, w).0
    ensures w' == RiskInfo(id, slot, false, w).2
  {
    var copy := new ChromeExtension(id);
    copy.report := slot;
    res, w' := copy.GetRiskInfo(false, w);
  }

  /**
   * `run_async(_export_data, ...)` (:126-132, :146-148): every extension's
   * `get_risk_info()` in input order, each on a copy of the extension's id and
   * report, stopping at the first exception.
   */
  method ExportAll(st: seq<(string, Option<RawReport>)>, w: Wire) returns (res: Result<seq<Record>, Crash>, w': Wire)
    requires RiskInfoAll(st, w).Some?
    ensures RiskInfoAll(st, w) == Some((res, w'))
  {
    res := Success([]);
    var cur := w;
    var i := 0;
    while i < |st| && res.Success?
      invariant 0 <= i <= |st|
      invariant RiskInfoAll(st[..i], w) == Some((res, cur))
    {
      RiskInfoAllStep(st, w, i);
      var r, w2 := ExportData(st[i].0, st[i].1, cur);
      res, cur := Append(res.value, r), w2;
      i := i + 1;
    }
    if res.Failure? {
      RiskInfoAllFailed(st, w, i);
    } else {
      assert st[..i] == st;
    }
    w' := cur;
  }

  /** The ids of a list of extensions, in order. */
  function IdsOf(es: seq<ChromeExtension>): (ids: seq<string>)
    ensures |ids| == |es| && forall i :: 0 <= i < |es| ==> ids[i] == es[i].extId
  {
    seq(|es|, i requires 0 <= i < |es| => es[i].extId)
  }

  /** Each extension's id and report slot, in order. */
  function StatesOf(es: seq<ChromeExtension>): (st: seq<(string, Option<RawReport>)>)
    reads set e | e in es
    ensures |st| == |es|
    ensures forall i :: 0 <= i < |es| ==> st[i] == (es[i].extId, es[i].report)
  {
    if es == [] then [] else StatesOf(es[..|es| - 1]) + [(es[|es| - 1].extId, es[|es| - 1].report)]
  }

  /**
   * `get_extension_data` run in input order: one lookup per id, each on the
   * wire the previous one left; `None` when some lookup's feed never answers.
   */
  function LookupAll(ids: seq<string>, w: Wire): (res: Option<(seq<RawReport>, Wire)>)
    ensures res.Some? ==> |res.value.0| == |ids|
  {
    if ids == [] then Some(([], w))
    else
      match LookupAll(ids[..|ids| - 1], w)
      case None => None
      case Some((rs, w1)) =>
        if LookupReturns(w1.replies) then
          var (r, w2) := Lookup(ids[|ids| - 1], w1);
          Some((rs + [r], w2))
        else None
  }

  /**
   * The lookups over a list are the lookups over each prefix continued:
   * element `i` of the result is the lookup of id `i` on the wire that the
   * first `i` lookups left.
   */
  lemma {:induction false} LookupAllPrefix(ids: seq<string>, w: Wire, i: nat)
    requires LookupAll(ids, w).Some? && i <= |ids|
    ensures LookupAll(ids[..i], w).Some?
    ensures LookupAll(ids[..i], w).value.0 == LookupAll(ids, w).value.0[..i]
    ensures i < |ids| ==> LookupReturns(LookupAll(ids[..i], w).value.1.replies)
    ensures i < |ids| ==>
      LookupAll(ids, w).value.0[i] == Lookup(ids[i], LookupAll(ids[..i], w).value.1).0
    decreases |ids|
  {
    if i < |ids| {
      var pre := ids[..|ids| - 1];
      assert pre[..i] == ids[..i];
      if i < |pre| {
        LookupAllPrefix(pre, w, i);
      } else {
        assert pre == ids[..i];
      }
    } else {
      assert ids[..i] == ids;
    }
  }

  /** One more lookup extends the lookups of a prefix. */
  lemma LookupAllStep(ids: seq<string>, w: Wire, i: nat)
    requires LookupAll(ids, w).Some? && i < |ids|
    ensures LookupAll(ids[..i], w).Some? && LookupReturns(LookupAll(ids[..i], w).value.1.replies)
    ensures var (rs, cur) := LookupAll(ids[..i], w).value;
      LookupAll(ids[..i + 1], w) == Some((rs + [Lookup(ids[i], cur).0], Lookup(ids[i], cur).1))
  {
    LookupAllPrefix(ids, w, i + 1);
    assert ids[..i + 1][..i] == ids[..i];
  }

  /**
   * `_lookup` (:138-141) as a pool worker runs it: `crxcavator_lookup()` on a
   * copy of the extension; the worker hands back the copy's report.
   */
  method LookupWorker(id: string, w: Wire) returns (report: RawReport, w': Wire)
    requires LookupReturns(w.replies)
    ensures (report, w') == Lookup(id, w)
  {
    var copy := new ChromeExtension(id);
    w' := copy.CrxcavatorLookup(w);
    report := copy.report.value;
  }

  /**
   * `run_async(_lookup, ...)` (:126-132, :136): one lookup per id in input
   * order, each on the wire the previous one left.
   */
  method LookupEach(ids: seq<string>, w: Wire) returns (rs: seq<RawReport>, w': Wire)
    requires LookupAll(ids, w).Some?
    ensures LookupAll(ids, w) == Some((rs, w'))
  {
    rs := [];
    var cur := w;
    for i := 0 to |ids|
      invariant LookupAll(ids[..i], w) == Some((rs, cur))
    {
      LookupAllStep(ids, w, i);
      var r, w2 := LookupWorker(ids[i], cur);
      rs, cur := rs + [r], w2;
    }
    assert ids[..|ids|] == ids;
    w' := cur;
  }

  /** The records so far followed by one more call's record, or that call's exception. */
  function Append(recs: seq<Record>, res: Result<Record, Crash>): Result<seq<Record>, Crash> {
    if res.Success? then Success(recs + [res.value]) else Failure(res.error)
  }

  /** `get_data_as_df`'s records in input order, stopping at the first exception; `None` when some call's feed never answers. */
  function RiskInfoAll(st: seq<(string, Option<RawReport>)>, w: Wire): (res: Option<(Result<seq<Record>, Crash>, Wire)>)
    ensures res.Some? && res.value.0.Success? ==> |res.value.0.value| == |st|
  {
    if st == [] then Some((Success([]), w))
    else
      match RiskInfoAll(st[..|st| - 1], w)
      case None => None
      case Some((Failure(c), w1)) => Some((Failure(c), w1))
      case Some((Success(recs), w1)) =>
        var (id, slot) := st[|st| - 1];
        if RiskInfoReturns(id, slot, false, w1) then
          var (res, _, w2) := RiskInfo(id, slot, false, w1);
          Some((Append(recs, res), w2))
        else None
  }

  /** `submit_for_scans`' results in input order; `None` when some submission's feed never answers. */
  function SubmitAll(ids: seq<string>, w: Wire): (res: Option<(seq<bool>, Wire)>)
    ensures res.Some? ==> |res.value.0| == |ids|
  {
    if ids == [] then Some(([], w))
    else
      match SubmitAll(ids[..|ids| - 1], w)
      case None => None
      case Some((oks, w1)) =>
        if Answers(w1.replies) then
          var (ok, w2) := Submit(ids[|ids| - 1], w1);
          Some((oks + [ok], w2))
        else None
  }

  /** `len([x for x in results if x is b])`. */
  function Count(results: seq<bool>, b: bool): (c: nat)
    ensures c <= |results|
  {
    if results == [] then 0
    else Count(results[..|results| - 1], b) + (if results[|results| - 1] == b then 1 else 0)
  }

  /** Every result is a success or a failure: the two counts add up to the number of results. */
  lemma {:induction false} CountSplit(results: seq<bool>)
    ensures Count(results, true) + Count(results, false) == |results|
  {
    if results != [] {
      CountSplit(results[..|results| - 1]);
    }
  }

  /** The twenty export columns of `to_csv` (:161-166), in order. */
  const Columns: seq<Key> := [
    ExtensionId, Name, ShortDescription, Version, LastUpdated, TotalRisk,
    OfferedBy, Rating, RatingUsers, Users, Size, Type, PermissionWarnings, Email,
    Address, PrivacyPolicy, Entrypoints, CspRisk, PermissionsRisk, WebstoreRisk]

  /**
   * The export columns are twenty distinct record keys: all of them except the
   * three list and document fields `URLs`, `dangerous_fns` and `manifest`.
   */
  lemma ColumnsSpec()
    ensures |Columns| == 20
    ensures forall i, j :: 0 <= i < j < |Columns| ==> Columns[i] != Columns[j]
    ensures forall k: Key :: k !in Columns <==> k == URLs || k == DangerousFns || k == Manifest
  {
  }

  /** One CSV row: the record's value for each column, an empty cell where the record lacks the key. */
  function Row(rec: Record): (row: seq<Option<Json>>)
    ensures |row| == |Columns|
    ensures forall j :: 0 <= j < |Columns| ==> row[j] == (if Columns[j] in rec then rec[Columns[j]] else None)
  {
    seq(|Columns|, j requires 0 <= j < |Columns| => if Columns[j] in rec then rec[Columns[j]] else None)
  }

  /** The row of a non-empty report's record holds the record's value for every column. */
  lemma RowOfReport(id: string, r: RawReport)
    requires r.Report? && Normalize(id, r).Success?
    ensures forall j :: 0 <= j < |Columns| ==> Row(Normalize(id, r).value)[j] == Normalize(id, r).value[Columns[j]]
  {
  }

  /** The row of the no-data record is empty except for the id and the placeholder name. */
  lemma RowOfNoData(id: string)
    ensures var row := Row(Normalize(id, Empty).value);
      && row[0] == Some(Str(id)) && row[1] == Some(Str(NoDataName))
      && forall j :: 2 <= j < |Columns| ==> row[j] == None
  {
  }

  /** `ExtensionList` (:121-167): the extensions of one batch and the pool size. */
  class ExtensionList {
    var extensions: seq<ChromeExtension>
    const poolSize: int

    /** The extensions are distinct objects. */
    ghost predicate Distinct()
      reads this
    {
      forall i, j :: 0 <= i < j < |extensions| ==> extensions[i] != extensions[j]
    }

    /** `__init__` (:122-124): one fresh extension with an empty slot per id, in order. */
    constructor (extIds: seq<string>, poolSize: int)
      ensures Distinct() && this.poolSize == poolSize
      ensures IdsOf(extensions) == extIds
      ensures forall i :: 0 <= i < |extensions| ==> fresh(extensions[i]) && extensions[i].report == None
    {
      var es: seq<ChromeExtension> := [];
      for i := 0 to |extIds|
        invariant |es| == i
        invariant forall j :: 0 <= j < i ==> fresh(es[j]) && es[j].extId == extIds[j] && es[j].report == None
        invariant forall j, l :: 0 <= j < l < i ==> es[j] != es[l]
      {
        var e := new ChromeExtension(extIds[i]);
        es := es + [e];
      }
      extensions := es;
      this.poolSize := poolSize;
    }

    /**
     * `get_extension_data` (:134-141): the pool's workers look up copies of
     * the extensions and return them, and the list is replaced by the returned
     * extensions: the same ids in the same order, each holding its lookup's
     * report.
     */
    method GetExtensionData(w: Wire) returns (w': Wire)
      requires LookupAll(IdsOf(extensions), w).Some?
      modifies this
      ensures var (rs, w1) := LookupAll(old(IdsOf(extensions)), w).value;
        && w' == w1
        && IdsOf(extensions) == old(IdsOf(extensions))
        && forall i :: 0 <= i < |extensions| ==> fresh(extensions[i]) && extensions[i].report == Some(rs[i])
      ensures Distinct()
    {
      var ids := IdsOf(extensions);
      var rs, w1 := LookupEach(ids, w);
      var es: seq<ChromeExtension> := [];
      for i := 0 to |ids|
        invariant |es| == i
        invariant forall j :: 0 <= j < i ==> fresh(es[j]) && es[j].extId == ids[j] && es[j].report == Some(rs[j])
        invariant forall j, l :: 0 <= j < l < i ==> es[j] != es[l]
      {
        var e := new ChromeExtension(ids[i]);
        e.report := Some(rs[i]);
        es := es + [e];
      }
      extensions := es;
      w' := w1;
    }

    /**
     * `get_data_as_df` (:143-148): every extension's `get_risk_info()`, in
     * order. Each worker runs on a copy of its extension, so the list's own
     * slots are left as they were.
     */
    method GetRecords(w: Wire) returns (res: Result<seq<Record>, Crash>, w': Wire)
      requires RiskInfoAll(StatesOf(extensions), w).Some?
      ensures RiskInfoAll(StatesOf(extensions), w) == Some((res, w'))
    {
      res, w' := ExportAll(StatesOf(extensions), w);
    }

    /**
     * `submit_for_scans` (:150-153): submit every extension, in order, and
     * count the successes and the failures.
     */
    method SubmitForScans(w: Wire) returns (successes: nat, failures: nat, w': Wire)
      requires SubmitAll(IdsOf(extensions), w).Some?
      ensures var (results, w1) := SubmitAll(IdsOf(extensions), w).value;
        successes == Count(results, true) && failures == Count(results, false) && w' == w1
      ensures successes + failures == |extensions|
    {
      ghost var ids := IdsOf(extensions);
      var results: seq<bool> := [];
      var cur := w;
      for i := 0 to |extensions|
        invariant SubmitAll(ids[..i], w) == Some((results, cur))
      {
        assert ids[..i + 1][..i] == ids[..i];
        SubmitAllPrefix(ids, w, i + 1);
        var ok, w2 := extensions[i].SubmitForScan(cur);
        results, cur := results + [ok], w2;
      }
      assert ids[..|extensions|] == ids;
      successes, failures, w' := Count(results, true), Count(results, false), cur;
      CountSplit(results);
    }

    /**
     * `to_csv` (:159-167): the records of `get_data_as_df` projected onto the
     * twenty export columns, one row per extension in input order.
     */
    method ToCsv(w: Wire) returns (res: Result<seq<seq<Option<Json>>>, Crash>, w': Wire)
      requires RiskInfoAll(StatesOf(extensions), w).Some?
      ensures var (recs, w1) := RiskInfoAll(StatesOf(extensions), w).value;
        && w' == w1
        && (recs.Failure? ==> res == Failure(recs.error))
        && (recs.Success? ==>
              && res.Success? && |res.value| == |extensions|
              && forall i :: 0 <= i < |extensions| ==> res.value[i] == Row(recs.value[i]))
    {
      var recs, w1 := GetRecords(w);
      w' := w1;
      if recs.Failure? {
        res := Failure(recs.error);
      } else {
        var rows := Rows(recs.value);
        res := Success(rows);
      }
    }
  }

  /** The data frame restricted to the export columns: one row per record, in order. */
  method Rows(recs: seq<Record>) returns (rows: seq<seq<Option<Json>>>)
    ensures |rows| == |recs|
    ensures forall i :: 0 <= i < |recs| ==> rows[i] == Row(recs[i])
  {
    rows := [];
    for i := 0 to |recs|
      invariant |rows| == i
      invariant forall j :: 0 <= j < i ==> rows[j] == Row(recs[j])
    {
      rows := rows + [Row(recs[i])];
    }
  }

  /** A prefix whose records stop at an exception: the whole list stops at the same place. */
  lemma {:induction false} RiskInfoAllFailed(st: seq<(string, Option<RawReport>)>, w: Wire, i: nat)
    requires i <= |st|
    requires RiskInfoAll(st[..i], w).Some? && RiskInfoAll(st[..i], w).value.0.Failure?
    ensures RiskInfoAll(st, w) == RiskInfoAll(st[..i], w)
    decreases |st| - i
  {
    if i < |st| {
      assert st[..i + 1][..i] == st[..i];
      RiskInfoAllFailed(st, w, i + 1);
    } else {
      assert st[..i] == st;
    }
  }

  /** A list whose submissions all return has every prefix's submissions return. */
  lemma {:induction false} SubmitAllPrefix(ids: seq<string>, w: Wire, i: nat)
    requires SubmitAll(ids, w).Some? && i <= |ids|
    ensures SubmitAll(ids[..i], w).Some?
    decreases |ids|
  {
    if i < |ids| {
      var pre := ids[..|ids| - 1];
      assert pre[..i] == ids[..i];
      SubmitAllPrefix(pre, w, i);
    } else {
      assert ids[..i] == ids;
    }
  }

  /** A list whose calls all return has every prefix's calls return. */
  lemma {:induction false} RiskInfoAllPrefix(st: seq<(string, Option<RawReport>)>, w: Wire, i: nat)
    requires RiskInfoAll(st, w).Some? && i <= |st|
    ensures RiskInfoAll(st[..i], w).Some?
    decreases |st|
  {
    if i < |st| {
      var pre := st[..|st| - 1];
      assert pre[..i] == st[..i];
      RiskInfoAllPrefix(pre, w, i);
    } else {
      assert st[..i] == st;
    }
  }

  /** One more call extends the records of a prefix that raised nothing. */
  lemma RiskInfoAllStep(st: seq<(string, Option<RawReport>)>, w: Wire, i: nat)
    requires RiskInfoAll(st, w).Some? && i < |st|
    requires RiskInfoAll(st[..i], w).Some? && RiskInfoAll(st[..i], w).value.0.Success?
    ensures var (recs, cur) := (RiskInfoAll(st[..i], w).value.0.value, RiskInfoAll(st[..i], w).value.1);
      && RiskInfoReturns(st[i].0, st[i].1, false, cur)
      && var (res, _, w2) := RiskInfo(st[i].0, st[i].1, false, cur);
         RiskInfoAll(st[..i + 1], w) == Some((Append(recs, res), w2))
  {
    assert st[..i + 1][..i] == st[..i];
    RiskInfoAllPrefix(st, w, i + 1);
  }
}
