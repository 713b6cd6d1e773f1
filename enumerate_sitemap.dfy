/**
 * The driver script EnumerateSitemap.py: turn the sitemap's URLs into
 * extension ids (:13-15), then walk the ids in batches of 10000, skipping every
 * batch whose `dump{idx}.csv` is already in the output directory (:22-31).
 *
 * Reading the sitemap, listing the directory and writing the CSV are I/O: the
 * sitemap is an input sequence, the directory's initial listing an input set,
 * and each batch processed is returned as a `Job` naming the file it writes
 * and the ids it hands to `ExtensionList`.
 */
module EnumerateSitemap {

  /** The batch size `inc` (:23). */
  const Inc: nat := 10000

  function Min(a: int, b: int): int {
    if a <= b then a else b
  }

  /** `os.path.split(url)[1]`: the part of the URL after its last '/'. */
  function LastSegment(url: string): (seg: string)
    ensures |seg| <= |url|
  {
    if url == [] || url[|url| - 1] == '/' then []
    else LastSegment(url[..|url| - 1]) + [url[|url| - 1]]
  }

  /**
   * The id is the longest suffix of the URL without a '/': it is a suffix, it
   * holds no '/', and it is either the whole URL or preceded by a '/'. In
   * particular a URL that ends in '/' gives the empty id.
   */
  lemma {:induction false} LastSegmentSpec(url: string)
    ensures var tail := LastSegment(url);
      && tail == url[|url| - |tail|..]
      && '/' !in tail
      && (|tail| < |url| ==> url[|url| - |tail| - 1] == '/')
      && (|url| > 0 && url[|url| - 1] == '/' ==> tail == [])
  {
    if url != [] && url[|url| - 1] != '/' {
      var pre := url[..|url| - 1];
      LastSegmentSpec(pre);
      var t := LastSegment(pre);
      assert pre[|pre| - |t|..] + [url[|url| - 1]] == url[|url| - |t| - 1..];
    }
  }

  /** The loop of :13-15: one id per sitemap URL, in the sitemap's order. */
  method ExtIdList(sitemap: seq<string>) returns (ids: seq<string>)
    ensures |ids| == |sitemap|
    ensures forall i :: 0 <= i < |sitemap| ==> ids[i] == LastSegment(sitemap[i])
  {
    ids := [];
    for i := 0 to |sitemap|
      invariant |ids| == i
      invariant forall j :: 0 <= j < i ==> ids[j] == LastSegment(sitemap[j])
    {
      ids := ids + [LastSegment(sitemap[i])];
    }
  }

  /** The character of a decimal digit. */
  function Digit(d: nat): char
    requires d < 10
  {
    (48 + d) as char
  }

  /** `f'{n}'`: the decimal numeral of `n`, without leading zeros. */
  function Decimal(n: nat): (s: string)
    ensures |s| >= 1
  {
    if n < 10 then [Digit(n)] else Decimal(n / 10) + [Digit(n % 10)]
  }

  /** Distinct numbers have distinct numerals. */
  lemma {:induction false} DecimalInjective(a: nat, b: nat)
    requires Decimal(a) == Decimal(b)
    ensures a == b
  {
    if a >= 10 && b >= 10 {
      var sa, sb := Decimal(a), Decimal(b);
      assert sa[|sa| - 1] == Digit(a % 10) && sb[|sb| - 1] == Digit(b % 10);
      assert sa[..|sa| - 1] == Decimal(a / 10) && sb[..|sb| - 1] == Decimal(b / 10);
      DecimalInjective(a / 10, b / 10);
    }
  }

  /** `f'dump{idx}.csv'`: the batch's numeral between a four-character prefix and suffix. */
  function DumpName(idx: nat): (name: string)
    ensures |name| == |Decimal(idx)| + 8
  {
    "dump" + Decimal(idx) + ".csv"
  }

  /** Distinct batches have distinct file names. */
  lemma DumpNameInjective(a: nat, b: nat)
    requires DumpName(a) == DumpName(b)
    ensures a == b
  {
    var na, nb := DumpName(a), DumpName(b);
    assert Decimal(a) == na[4..|na| - 4];
    assert Decimal(b) == nb[4..|nb| - 4];
    DecimalInjective(a, b);
  }

  /** The number of batches: the least `k` with `k * Inc >= n`. */
  function BatchCount(n: nat): (k: nat)
    ensures k * Inc >= n
    ensures k == 0 || (k - 1) * Inc < n
  {
    (n + Inc - 1) / Inc
  }

  /** `ext_id_list[idx*inc:(idx+1)*inc]`, with Python's clamping of slice bounds. */
  function Batch(ids: seq<string>, idx: nat): (b: seq<string>)
    ensures |b| <= Inc
  {
    ids[Lo(|ids|, idx)..Hi(|ids|, idx)]
  }

  /**
   * Each batch holds at most `Inc` ids, every batch the loop visits holds at
   * least one, and batch `idx` is the slice starting at `idx * Inc`.
   */
  lemma BatchSize(ids: seq<string>, idx: nat)
    ensures |Batch(ids, idx)| <= Inc
    ensures idx < BatchCount(|ids|) ==> |Batch(ids, idx)| > 0
    ensures forall j :: 0 <= j < |Batch(ids, idx)| ==> Batch(ids, idx)[j] == ids[idx * Inc + j]
  {
  }

  /** The positions batch `idx` covers: `[Lo, Hi)`. */
  function Lo(n: nat, idx: nat): nat {
    Min(idx * Inc, n)
  }

  function Hi(n: nat, idx: nat): nat {
    Min((idx + 1) * Inc, n)
  }

  /** Batches cover pairwise disjoint ranges of positions, in increasing order. */
  lemma BatchesDisjoint(n: nat, a: nat, b: nat)
    requires a < b
    ensures Hi(n, a) <= Lo(n, b)
  {
  }

  /** Batches `0 .. k-1` concatenated in order. */
  function Concat(ids: seq<string>, k: nat): seq<string> {
    if k == 0 then [] else Concat(ids, k - 1) + Batch(ids, k - 1)
  }

  /** The first `k` batches concatenated are the first `k * Inc` ids; all the batches are the whole list. */
  lemma {:induction false} ConcatBatches(ids: seq<string>, k: nat)
    ensures Concat(ids, k) == ids[..Min(k * Inc, |ids|)]
    ensures k == BatchCount(|ids|) ==> Concat(ids, k) == ids
  {
    if k > 0 {
      ConcatBatches(ids, k - 1);
      assert ids[..Min((k - 1) * Inc, |ids|)] + Batch(ids, k - 1) == ids[..Min(k * Inc, |ids|)];
    }
    if k == BatchCount(|ids|) {
      assert ids[..|ids|] == ids;
    }
  }

  /** One batch the loop processes: its index, the file it writes, and its ids. */
  datatype Job = Job(idx: nat, file: string, ids: seq<string>)

  /** What batch `idx` contributes: its job, or nothing when its file is listed. */
  function Step(ids: seq<string>, listing: set<string>, idx: nat): seq<Job> {
    if DumpName(idx) in listing then [] else [Job(idx, DumpName(idx), Batch(ids, idx))]
  }

  /** The batches among `0 .. upto-1` whose file is not in `listing`, in index order. */
  function Schedule(ids: seq<string>, listing: set<string>, upto: nat): (s: seq<Job>)
    ensures |s| <= upto
  {
    if upto == 0 then [] else Schedule(ids, listing, upto - 1) + Step(ids, listing, upto - 1)
  }

  /** A job for a batch below `upto` whose file is not listed, writing that batch's file with that batch's ids. */
  predicate JobOk(ids: seq<string>, listing: set<string>, upto: nat, job: Job) {
    job.idx < upto && DumpName(job.idx) !in listing && job.file == DumpName(job.idx) && job.ids == Batch(ids, job.idx)
  }

  /**
   * The schedule processes batch `idx` exactly when `dump{idx}.csv` is not
   * listed: every job is such a batch, with its own file and slice, jobs come
   * in increasing index order, and no such batch is missing.
   */
  lemma ScheduleSpec(ids: seq<string>, listing: set<string>, upto: nat)
    ensures forall j :: 0 <= j < |Schedule(ids, listing, upto)| ==> JobOk(ids, listing, upto, Schedule(ids, listing, upto)[j])
    ensures forall j, l :: 0 <= j < l < |Schedule(ids, listing, upto)| ==>
      Schedule(ids, listing, upto)[j].idx < Schedule(ids, listing, upto)[l].idx
    ensures forall idx :: 0 <= idx < upto && DumpName(idx) !in listing ==> HasJob(Schedule(ids, listing, upto), idx)
  {
    ScheduleJobs(ids, listing, upto);
    ScheduleOrdered(ids, listing, upto);
    ScheduleComplete(ids, listing, upto);
  }

  /** Every job of the schedule is a job for a batch below `upto` whose file is not listed. */
  lemma {:induction false} ScheduleJobs(ids: seq<string>, listing: set<string>, upto: nat)
    ensures forall j :: 0 <= j < |Schedule(ids, listing, upto)| ==> JobOk(ids, listing, upto, Schedule(ids, listing, upto)[j])
  {
    if upto > 0 {
      ScheduleJobs(ids, listing, upto - 1);
      var s0, st := Schedule(ids, listing, upto - 1), Step(ids, listing, upto - 1);
      var s := Schedule(ids, listing, upto);
      assert s == s0 + st;
      forall j | 0 <= j < |s|
        ensures JobOk(ids, listing, upto, s[j])
      {
        if j < |s0| {
          assert s[j] == s0[j];
          assert JobOk(ids, listing, upto - 1, s0[j]);
        } else {
          assert s[j] == st[0];
        }
      }
    }
  }

  /** The jobs come in strictly increasing index order. */
  lemma {:induction false} ScheduleOrdered(ids: seq<string>, listing: set<string>, upto: nat)
    ensures forall j, l :: 0 <= j < l < |Schedule(ids, listing, upto)| ==>
      Schedule(ids, listing, upto)[j].idx < Schedule(ids, listing, upto)[l].idx
  {
    if upto > 0 {
      ScheduleOrdered(ids, listing, upto - 1);
      ScheduleJobs(ids, listing, upto - 1);
      var s0, st := Schedule(ids, listing, upto - 1), Step(ids, listing, upto - 1);
      var s := Schedule(ids, listing, upto);
      assert s == s0 + st;
      forall j, l | 0 <= j < l < |s|
        ensures s[j].idx < s[l].idx
      {
        assert s[j] == s0[j];
        assert JobOk(ids, listing, upto - 1, s0[j]);
        if l < |s0| {
          assert s[l] == s0[l];
        } else {
          assert s[l] == st[0];
        }
      }
    }
  }

  /** Some job of `s` processes batch `idx`. */
  predicate HasJob(s: seq<Job>, idx: nat) {
    exists j :: 0 <= j < |s| && s[j].idx == idx
  }

  /** Every batch below `upto` whose file is not listed has a job. */
  lemma {:induction false} ScheduleComplete(ids: seq<string>, listing: set<string>, upto: nat)
    ensures forall idx :: 0 <= idx < upto && DumpName(idx) !in listing ==> HasJob(Schedule(ids, listing, upto), idx)
  {
    if upto > 0 {
      ScheduleComplete(ids, listing, upto - 1);
      var s0, st := Schedule(ids, listing, upto - 1), Step(ids, listing, upto - 1);
      var s := Schedule(ids, listing, upto);
      assert s == s0 + st;
      forall idx | 0 <= idx < upto && DumpName(idx) !in listing
        ensures HasJob(s, idx)
      {
        if idx < upto - 1 {
          assert HasJob(s0, idx);
          var j :| 0 <= j < |s0| && s0[j].idx == idx;
          assert s[j] == s0[j];
        } else {
          assert s[|s0|] == st[0];
        }
      }
    }
  }

  /** The files the jobs write. */
  function Files(jobs: seq<Job>): set<string> {
    set j | j in jobs :: j.file
  }

  /**
   * The loop of :22-31. `idx` goes up by one on every iteration, whether the
   * batch is processed or skipped; a batch is processed when its file is not
   * in the directory, which holds the initial listing and every file written
   * so far. Whether a batch's `to_csv` raises is the input `raises`: the first
   * processed batch that raises ends the script with its file unwritten.
   */
  method RunBatches(ids: seq<string>, listing: set<string>, raises: set<nat>)
    returns (written: seq<Job>, idx: nat, failed: bool)
    ensures written == Schedule(ids, listing, idx)
    ensures forall i :: 0 <= i < idx && DumpName(i) !in listing ==> i !in raises
    ensures !failed ==> idx == BatchCount(|ids|)
    ensures failed ==> idx < BatchCount(|ids|) && DumpName(idx) !in listing && idx in raises
  {
    idx := 0;
    written := [];
    failed := false;
    var dir := listing;
    while idx * Inc < |ids| && !failed
      invariant idx == 0 || (idx - 1) * Inc < |ids|
      invariant written == Schedule(ids, listing, idx)
      invariant forall i :: 0 <= i < idx && DumpName(i) !in listing ==> i !in raises
      invariant dir == listing + Files(written)
      invariant failed ==> idx * Inc < |ids| && DumpName(idx) !in listing && idx in raises
      decreases |ids| - idx * Inc, !failed
    {
      var name := DumpName(idx);
      NotYetWritten(ids, listing, idx);
      if name !in dir && idx in raises {
        failed := true;
      } else {
        if name !in dir {
          written := written + [Job(idx, name, ids[idx * Inc..Min((idx + 1) * Inc, |ids|)])];
          dir := dir + {name};
        }
        idx := idx + 1;
      }
    }
  }

  /** The file of batch `idx` is in the directory only if it was listed at the start. */
  lemma NotYetWritten(ids: seq<string>, listing: set<string>, idx: nat)
    ensures DumpName(idx) !in Files(Schedule(ids, listing, idx))
  {
    var s := Schedule(ids, listing, idx);
    ScheduleJobs(ids, listing, idx);
    if DumpName(idx) in Files(s) {
      var j :| 0 <= j < |s| && s[j].file == DumpName(idx);
      assert JobOk(ids, listing, idx, s[j]);
      DumpNameInjective(s[j].idx, idx);
    }
  }
}
