/**
 * The two CRXcavator operations as the source performs them
 * (`ChromeExtension.submit_for_scan` and `crxcavator_lookup`,
 * ChromeExtensions.py:25-59), stated as recursive functions over an injected
 * feed of network outcomes, in the shape of the source's own recursion on a
 * connection error.
 *
 * The network is the `replies` feed: each HTTP attempt consumes its first
 * outcome. The requests sent and the log file's entries are recorded beside it.
 */
module Service {
  import opened Reports

  /** A status code other than 200. */
  type NonOkStatus = c: int | c != 200 witness 0

  /**
   * The outcome of one HTTP attempt: a `ConnectionError`, a reply with a status
   * other than 200 (and its text), or a 200 reply whose body decodes to a list
   * of report documents.
   */
  datatype Outcome =
    | ConnErr
    | Status(code: NonOkStatus, body: string)
    | Ok(reports: seq<RawReport>)

  /** One HTTP attempt: the POST to `/v1/submit` or the GET of `/v1/report/<id>`. */
  datatype Request = Post(id: string) | Get(id: string)

  /** One line of the log file, without its timestamp. */
  datatype LogEntry =
    | SubmitRejected(id: string, code: int, body: string)  // :37-38
    | SubmitRetry(id: string)                              // :41
    | LookupRetry(id: string)                              // :58
    | NoData(id: string)                                   // :65

  /** The outside world as the model sees it: replies still to come, requests sent, log written. */
  datatype Wire = Wire(replies: seq<Outcome>, sent: seq<Request>, log: seq<LogEntry>)

  /** `n` copies of `x`. */
  function Repeat<T>(x: T, n: nat): (s: seq<T>)
    ensures |s| == n && forall i :: 0 <= i < n ==> s[i] == x
  {
    if n == 0 then [] else [x] + Repeat(x, n - 1)
  }

  /**
   * The feed eventually gives an outcome other than a connection error. On a
   * feed that does not, the model's call has no result; the source's nested
   * retries end in a `RecursionError` after about a thousand connection errors,
   * which the model does not capture (README, "Left out").
   */
  predicate Answers(replies: seq<Outcome>) {
    |replies| > 0 && (replies[0].ConnErr? ==> Answers(replies[1..]))
  }

  /** Index of the first outcome that is not a connection error. */
  function FirstAnswer(replies: seq<Outcome>): (k: nat)
    requires Answers(replies)
    ensures k < |replies| && !replies[k].ConnErr?
    ensures forall j :: 0 <= j < k ==> replies[j].ConnErr?
  {
    if !replies[0].ConnErr? then 0 else 1 + FirstAnswer(replies[1..])
  }

  /** `Answers` says exactly that some outcome of the feed is not a connection error. */
  lemma {:induction false} AnswersIff(replies: seq<Outcome>)
    ensures Answers(replies) <==> exists i :: 0 <= i < |replies| && !replies[i].ConnErr?
  {
    if |replies| > 0 && replies[0].ConnErr? {
      AnswersIff(replies[1..]);
      if exists i :: 0 <= i < |replies| && !replies[i].ConnErr? {
        var i :| 0 <= i < |replies| && !replies[i].ConnErr?;
        assert replies[1..][i - 1] == replies[i];
      }
      if Answers(replies[1..]) {
        var i :| 0 <= i < |replies[1..]| && !replies[1..][i].ConnErr?;
        assert replies[i + 1] == replies[1..][i];
      }
    }
  }

  /** One HTTP attempt: consume the first outcome and record the request. */
  function Attempt(w: Wire, req: Request): Wire
    requires |w.replies| > 0
  {
    w.(replies := w.replies[1..], sent := w.sent + [req])
  }

  /** Append one log entry. */
  function Log(w: Wire, e: LogEntry): Wire {
    w.(log := w.log + [e])
  }

  /**
   * `submit_for_scan` (:25-42): POST; on a connection error log and try
   * again; on 200 return true; on any other status log it and return false.
   */
  function Submit(id: string, w: Wire): (r: (bool, Wire))
    requires Answers(w.replies)
    ensures |r.1.replies| < |w.replies| && |r.1.sent| > |w.sent|
    decreases |w.replies|
  {
    var w1 := Attempt(w, Post(id));
    match w.replies[0]
    case ConnErr => Submit(id, Log(w1, SubmitRetry(id)))
    case Status(code, body) => (false, Log(w1, SubmitRejected(id, code, body)))
    case Ok(_) => (true, w1)
  }

  /** The service has no report for the extension: the reply is not 200 or its list is empty. */
  predicate NeedsScan(o: Outcome) {
    !(o.Ok? && o.reports != [])
  }

  /**
   * `crxcavator_lookup` returns: the lookup's own feed answers and, if that
   * answer leads to a scan submission, the feed after it answers too.
   */
  predicate LookupReturns(replies: seq<Outcome>) {
    |replies| > 0 &&
    if replies[0].ConnErr? then LookupReturns(replies[1..])
    else NeedsScan(replies[0]) ==> Answers(replies[1..])
  }

  /**
   * `crxcavator_lookup` (:44-59): GET; on a connection error log and try
   * again; on 200 with a non-empty list the report is its last element;
   * otherwise the report is `{}` and the extension is submitted for a scan.
   */
  function Lookup(id: string, w: Wire): (r: (RawReport, Wire))
    requires LookupReturns(w.replies)
    ensures |r.1.replies| < |w.replies| && |r.1.sent| > |w.sent|
    decreases |w.replies|
  {
    var o := w.replies[0];
    var w1 := Attempt(w, Get(id));
    if o.ConnErr? then Lookup(id, Log(w1, LookupRetry(id)))
    else if !NeedsScan(o) then (o.reports[|o.reports| - 1], w1)
    else (Empty, Submit(id, w1).1)
  }

  /** A feed on which a lookup returns also answers a first request. */
  lemma {:induction false} LookupReturnsAnswers(replies: seq<Outcome>)
    requires LookupReturns(replies)
    ensures Answers(replies)
  {
    if replies[0].ConnErr? {
      LookupReturnsAnswers(replies[1..]);
    }
  }

  /**
   * After a connection error the retry sees the same feed shifted by one: its
   * first answer is one position earlier, and one more request and log line
   * precede it.
   */
  lemma RetryShift(w: Wire, req: Request, e: LogEntry)
    requires Answers(w.replies) && w.replies[0].ConnErr?
    ensures var w1 := Log(Attempt(w, req), e);
      && Answers(w1.replies)
      && var k := FirstAnswer(w1.replies);
      && FirstAnswer(w.replies) == k + 1 && w.replies[k + 1] == w1.replies[k]
      && w1.replies[k + 1..] == w.replies[k + 2..]
      && w1.sent + Repeat(req, k + 1) == w.sent + Repeat(req, k + 2)
      && w1.log + Repeat(e, k) == w.log + Repeat(e, k + 1)
  {
  }

  /**
   * `submit_for_scan` returns true exactly when the first outcome that is not
   * a connection error is a 200 reply, retries only on connection errors
   * (one POST per outcome up to that one, and no further outcome consumed),
   * logs one retry line per connection error and one rejection line for a
   * status other than 200.
   */
  lemma {:induction false} SubmitSpec(id: string, w: Wire)
    requires Answers(w.replies)
    ensures var k := FirstAnswer(w.replies); var a := w.replies[k];
      Submit(id, w) == (a.Ok?, Wire(
        w.replies[k + 1..],
        w.sent + Repeat(Post(id), k + 1),
        w.log + Repeat(SubmitRetry(id), k) + (if a.Status? then [SubmitRejected(id, a.code, a.body)] else [])))
    decreases |w.replies|
  {
    if w.replies[0].ConnErr? {
      RetryShift(w, Post(id), SubmitRetry(id));
      SubmitSpec(id, Log(Attempt(w, Post(id)), SubmitRetry(id)));
    } else {
      assert FirstAnswer(w.replies) == 0;
      assert Repeat(Post(id), 1) == [Post(id)] && Repeat(SubmitRetry(id), 0) == [];
      assert w.log + Repeat(SubmitRetry(id), 0) == w.log;
    }
  }

  /**
   * After `crxcavator_lookup`, when the first answer is a 200 reply with a
   * non-empty list the report is that list's last element and nothing else
   * is consumed; otherwise the report is `{}` and exactly one scan submission
   * follows the GETs.
   */
  lemma {:induction false} LookupSpec(id: string, w: Wire)
    requires LookupReturns(w.replies)
    ensures Answers(w.replies)
    ensures var k := FirstAnswer(w.replies); var a := w.replies[k];
      var after := Wire(w.replies[k + 1..], w.sent + Repeat(Get(id), k + 1), w.log + Repeat(LookupRetry(id), k));
      && (!NeedsScan(a) ==> Lookup(id, w) == (a.reports[|a.reports| - 1], after))
      && (NeedsScan(a) ==> Answers(after.replies) && Lookup(id, w) == (Empty, Submit(id, after).1))
    decreases |w.replies|
  {
    LookupReturnsAnswers(w.replies);
    if w.replies[0].ConnErr? {
      RetryShift(w, Get(id), LookupRetry(id));
      LookupSpec(id, Log(Attempt(w, Get(id)), LookupRetry(id)));
    } else {
      assert FirstAnswer(w.replies) == 0;
      assert Repeat(Get(id), 1) == [Get(id)] && Repeat(LookupRetry(id), 0) == [];
      assert w.log + Repeat(LookupRetry(id), 0) == w.log;
    }
  }
}
