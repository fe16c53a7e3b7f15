/**
 * What a job's rows say. The stages count them with the queries of the services; here
 * the same numbers are read off the rows themselves.
 */
module Records {
  import opened Common
  import opened Jobs
  import opened Stages
  import Reviews

  // ── Counting ───────────────────────────────────────────────────────────────

  function VerifyRows(runs: seq<VerifyRun>, cycle: nat): set<nat> {
    set i: nat | i < |runs| && runs[i].cycle == cycle
  }

  function FailedRows(runs: seq<VerifyRun>, cycle: nat): set<nat> {
    set i: nat | i < |runs| && runs[i].cycle == cycle && !runs[i].ok
  }

  /** The review passes of a cycle, in order. */
  function OwnPasses(passes: seq<ReviewPass>, cycle: nat): seq<ReviewPass> {
    if |passes| == 0 then []
    else OwnPasses(passes[..|passes| - 1], cycle) + if passes[|passes| - 1].cycle == cycle then [passes[|passes| - 1]] else []
  }

  lemma {:induction false} VerifiesAreCounted(runs: seq<VerifyRun>, cycle: nat)
    ensures VerifiesIn(runs, cycle) == |VerifyRows(runs, cycle)|
  {
    if |runs| > 0 {
      var n: nat := |runs| - 1;
      VerifiesAreCounted(runs[..n], cycle);
      assert VerifyRows(runs, cycle) == VerifyRows(runs[..n], cycle) + if runs[n].cycle == cycle then {n} else {};
    }
  }

  lemma {:induction false} FailuresAreCounted(runs: seq<VerifyRun>, cycle: nat)
    ensures FailuresIn(runs, cycle) == |FailedRows(runs, cycle)|
  {
    if |runs| > 0 {
      var n: nat := |runs| - 1;
      FailuresAreCounted(runs[..n], cycle);
      assert FailedRows(runs, cycle) == FailedRows(runs[..n], cycle) + if runs[n].cycle == cycle && !runs[n].ok then {n} else {};
    }
  }

  lemma {:induction false} PassesAreCounted(passes: seq<ReviewPass>, cycle: nat)
    ensures PassesIn(passes, cycle) == |OwnPasses(passes, cycle)|
  {
    if |passes| > 0 {
      PassesAreCounted(passes[..|passes| - 1], cycle);
    }
  }

  // ── The newest verify of a cycle ───────────────────────────────────────────

  predicate IsNewestVerify(runs: seq<VerifyRun>, cycle: nat, i: nat) {
    i < |runs| && runs[i].cycle == cycle && forall j :: i < j < |runs| ==> runs[j].cycle != cycle
  }

  /** It passed, or failed, as that row says; there is none exactly if the cycle has no row. */
  lemma {:induction false} LastVerifyIs(runs: seq<VerifyRun>, cycle: nat, ok: bool)
    ensures LastVerify(runs, cycle) == Some(ok) <==> exists i: nat :: IsNewestVerify(runs, cycle, i) && runs[i].ok == ok
    ensures LastVerify(runs, cycle).None? <==> VerifyRows(runs, cycle) == {}
  {
    if |runs| > 0 {
      var n: nat := |runs| - 1;
      var before := runs[..n];
      if runs[n].cycle == cycle {
        assert IsNewestVerify(runs, cycle, n) && n in VerifyRows(runs, cycle);
      } else {
        LastVerifyIs(before, cycle, ok);
        assert VerifyRows(runs, cycle) == VerifyRows(before, cycle);
        forall i: nat ensures IsNewestVerify(runs, cycle, i) <==> IsNewestVerify(before, cycle, i) {
        }
      }
    }
  }

  // ── Unparseable passes in a row ────────────────────────────────────────────

  /** The newest n of these passes carry the sentinel. */
  predicate EndInSentinels(passes: seq<ReviewPass>, n: int) {
    n <= |passes| && forall i :: 0 <= i < |passes| && |passes| - n <= i ==> passes[i].sentinel
  }

  /** Counted are the newest passes of the cycle in a row that carry it, and no more. */
  lemma {:induction false} TrailingIsARow(passes: seq<ReviewPass>, cycle: nat, n: nat)
    ensures TrailingUnparseable(passes, cycle) == n <==>
              EndInSentinels(OwnPasses(passes, cycle), n) && !EndInSentinels(OwnPasses(passes, cycle), n + 1)
  {
    if |passes| > 0 {
      var before, last := passes[..|passes| - 1], passes[|passes| - 1];
      var own := OwnPasses(passes, cycle);
      if last.cycle != cycle {
        assert own == OwnPasses(before, cycle);
        TrailingIsARow(before, cycle, n);
      } else if last.sentinel {
        if n > 0 {
          TrailingIsARow(before, cycle, n - 1);
          SentinelBehind(OwnPasses(before, cycle), last, n);
          SentinelBehind(OwnPasses(before, cycle), last, n + 1);
        } else {
          SentinelBehind(OwnPasses(before, cycle), last, 1);
        }
      } else {
        assert own[|own| - 1] == last;
      }
    }
  }

  lemma SentinelBehind(own: seq<ReviewPass>, last: ReviewPass, n: nat)
    requires last.sentinel && n > 0
    ensures EndInSentinels(own + [last], n) <==> EndInSentinels(own, n - 1)
  {
    var longer := own + [last];
    if EndInSentinels(longer, n) {
      forall i | 0 <= i < |own| && |own| - (n - 1) <= i ensures own[i].sentinel {
        assert longer[i] == own[i];
      }
    }
  }

  /** At least so many are in a row exactly if the newest so many all carry it. */
  lemma AtLeastInARow(passes: seq<ReviewPass>, cycle: nat, n: int)
    ensures TrailingUnparseable(passes, cycle) >= n <==> EndInSentinels(OwnPasses(passes, cycle), n)
  {
    var own, k := OwnPasses(passes, cycle), TrailingUnparseable(passes, cycle);
    TrailingIsARow(passes, cycle, k);
    RowShrinks(own, n, k + 1);
    RowShrinks(own, k, n);
  }

  lemma RowShrinks(own: seq<ReviewPass>, n: int, m: int)
    ensures m <= n && EndInSentinels(own, n) ==> EndInSentinels(own, m)
  {
  }

  /** A parsed pass that does not quote the sentinel ends the row. */
  lemma ParsedPassEndsTheRow(job: Job, review: Option<Reviews.RawReview>)
    requires review.Some?
    ensures TrailingUnparseable(RecordReview(job, review, false).passes, job.cycle) == 0
  {
    var passes := RecordReview(job, review, false).passes;
    var own := OwnPasses(passes, job.cycle);
    assert own[|own| - 1] == passes[|passes| - 1] && !own[|own| - 1].sentinel;
    TrailingIsARow(passes, job.cycle, 0);
  }
}
