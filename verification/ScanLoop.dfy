/** The batch loop of a scanner job: where every candidate ends up, and what progress is published. */
module ScanLoop {
  import opened Prelude

  /** What scanning one symbol yields if it is not cut off: a kept signal, a timeout or error, or a result
      the thresholds drop. */
  datatype Verdict = Signal | Failure | Dropped

  /** What the clock and the other threads do to the loop; batches are counted from 0. */
  datatype Weather = Weather(
    verdicts: map<string, Verdict>,
    expired: nat -> bool,
    pending: nat -> set<string>,
    cancelledAtHead: nat -> bool,
    cancelledAtCheck: nat -> bool)

  datatype Ending = Exhausted | DeadlineHit | PendingLeft | CancelSeen

  predicate Distinct(xs: seq<string>) {
    forall i, j :: 0 <= i < j < |xs| ==> xs[i] != xs[j]
  }

  function BatchSize(requested: int): (size: nat)
    ensures 5 <= size <= 10 && (5 <= requested <= 10 ==> size == requested)
  {
    MinInt(10, MaxInt(5, requested))
  }

  /** Whether the candidate at `i` was cut off with its batch. */
  predicate CutOff(candidates: seq<string>, size: nat, sky: Weather, i: nat)
    requires i < |candidates| && size > 0
  {
    candidates[i] in sky.pending(i / size)
  }

  predicate VerdictKnown(candidates: seq<string>, sky: Weather) {
    forall i :: 0 <= i < |candidates| ==> candidates[i] in sky.verdicts
  }

  /** The accounting of the first `n` candidates: each one is in exactly the list its fate names. */
  ghost predicate Accounted(candidates: seq<string>, size: nat, sky: Weather, n: nat,
                            signals: seq<string>, failed: seq<string>)
    requires n <= |candidates| && size > 0 && VerdictKnown(candidates, sky)
  {
    && Distinct(signals) && Distinct(failed)
    && (forall s :: s in signals ==> s in candidates[..n])
    && (forall s :: s in failed ==> s in candidates[..n])
    && (forall i :: 0 <= i < n ==>
          (candidates[i] in signals <==> !CutOff(candidates, size, sky, i) && sky.verdicts[candidates[i]] == Signal))
    && (forall i :: 0 <= i < n ==>
          (candidates[i] in failed <==> CutOff(candidates, size, sky, i) || sky.verdicts[candidates[i]] == Failure))
  }

  /** One batch: scans and cut-offs, each in whatever order they come.
      Failures go straight to the shared list; results are collected once the batch is over. */
  method ScanBatch(batch: seq<string>, cutOff: set<string>, verdicts: map<string, Verdict>,
                   signals0: seq<string>, failed0: seq<string>, cancelled: bool)
    returns (signals: seq<string>, failed: seq<string>)
    requires forall s :: s in batch ==> s in verdicts && s !in signals0 && s !in failed0
    requires Distinct(signals0) && Distinct(failed0)
    ensures Distinct(signals) && Distinct(failed)
    ensures forall s :: s in signals <==>
      s in signals0 || (!cancelled && s in batch && s !in cutOff && verdicts[s] == Signal)
    ensures forall s :: s in failed <==>
      s in failed0 || (s in batch && (s in cutOff || verdicts[s] == Failure))
  {
    signals, failed := signals0, failed0;
    var members := set s | s in batch;
    var done := set s | s in batch && s !in cutOff;
    var todo := done;
    while todo != {}
      invariant todo <= done && Distinct(failed)
      invariant forall s :: s in failed <==> s in failed0 || (s in done - todo && verdicts[s] == Failure)
    {
      var s :| s in todo;
      if verdicts[s] == Failure {
        failed := failed + [s];
      }
      todo := todo - {s};
    }
    var pending := members - done;
    todo := pending;
    while todo != {}
      invariant todo <= pending && Distinct(failed)
      invariant forall s :: s in failed <==>
        s in failed0 || (s in done && verdicts[s] == Failure) || s in pending - todo
    {
      var s :| s in todo;
      failed := failed + [s];
      todo := todo - {s};
    }
    if cancelled {
      return;
    }
    todo := done;
    while todo != {}
      invariant todo <= done && Distinct(signals)
      invariant forall s :: s in signals <==> s in signals0 || (s in done - todo && verdicts[s] == Signal)
    {
      var s :| s in todo;
      if verdicts[s] == Signal {
        signals := signals + [s];
      }
      todo := todo - {s};
    }
  }

  /** Symbols of the batch that starts at `start`. */
  function Batch(candidates: seq<string>, size: nat, start: nat): seq<string>
    requires start <= |candidates|
  {
    candidates[start..MinInt(start + size, |candidates|)]
  }

  lemma TimesMonotone(x: int, y: int, n: nat)
    requires x <= y
    ensures x * n <= y * n
  {
  }

  /** Position `i` of batch `k` has that batch number. */
  lemma BatchNumber(size: nat, k: nat, i: nat)
    requires size > 0 && k * size <= i < k * size + size
    ensures i / size == k
  {
    var q := i / size;
    assert i == q * size + i % size;
    if q < k {
      TimesMonotone(q + 1, k, size);
    } else if q > k {
      TimesMonotone(k + 1, q, size);
    }
  }

  /** Accounting for one more batch. */
  lemma AccountBatch(candidates: seq<string>, size: nat, sky: Weather, k: nat,
                     signals0: seq<string>, failed0: seq<string>, signals: seq<string>, failed: seq<string>)
    requires Distinct(candidates) && size > 0 && VerdictKnown(candidates, sky) && k * size <= |candidates|
    requires Accounted(candidates, size, sky, k * size, signals0, failed0)
    requires Distinct(signals) && Distinct(failed)
    requires var batch := Batch(candidates, size, k * size); var cutOff := sky.pending(k);
      && (forall s :: s in signals <==>
            s in signals0 || (s in batch && s !in cutOff && sky.verdicts[s] == Signal))
      && (forall s :: s in failed <==>
            s in failed0 || (s in batch && (s in cutOff || sky.verdicts[s] == Failure)))
    ensures Accounted(candidates, size, sky, MinInt(k * size + size, |candidates|), signals, failed)
  {
    var start := k * size;
    var end := MinInt(start + size, |candidates|);
    var batch := Batch(candidates, size, start);
    assert candidates[..end] == candidates[..start] + batch;
    forall i | 0 <= i < end
      ensures i < start ==> candidates[i] !in batch
      ensures i >= start ==> candidates[i] in batch && i / size == k
      ensures i >= start ==> candidates[i] !in signals0 && candidates[i] !in failed0
    {
      if i < start {
        assert forall j :: 0 <= j < |batch| ==> batch[j] == candidates[start + j];
      } else {
        assert batch[i - start] == candidates[i];
        BatchNumber(size, k, i);
        assert forall j :: 0 <= j < start ==> candidates[..start][j] == candidates[j];
      }
    }
  }

  predicate Rising(published: seq<nat>) {
    forall i, j :: 0 <= i < j < |published| ==> published[i] < published[j]
  }

  lemma BatchIsNew(candidates: seq<string>, size: nat, sky: Weather, start: nat, signals: seq<string>, failed: seq<string>)
    requires Distinct(candidates) && size > 0 && VerdictKnown(candidates, sky) && start <= |candidates|
    requires Accounted(candidates, size, sky, start, signals, failed)
    ensures forall s :: s in Batch(candidates, size, start) ==>
      s in sky.verdicts && s !in signals && s !in failed
  {
    forall s | s in Batch(candidates, size, start)
      ensures s in sky.verdicts && s !in candidates[..start]
    {
      var j :| 0 <= j < |Batch(candidates, size, start)| && Batch(candidates, size, start)[j] == s;
      assert candidates[start + j] == s;
    }
  }

  ghost predicate SomeCutOff(candidates: seq<string>, size: nat, sky: Weather, start: nat, n: nat)
    requires start <= n <= |candidates| && size > 0
  {
    exists i :: start <= i < n && CutOff(candidates, size, sky, i)
  }

  /** Scans batch `k`, which begins at `start`. */
  method NextBatch(candidates: seq<string>, size: nat, sky: Weather, k: nat, start: nat,
                   signals0: seq<string>, failed0: seq<string>)
    returns (signals: seq<string>, failed: seq<string>, n: nat, left: bool)
    requires Distinct(candidates) && size > 0 && VerdictKnown(candidates, sky)
    requires start == k * size && start < |candidates|
    requires Accounted(candidates, size, sky, start, signals0, failed0)
    ensures start < n == MinInt(start + size, |candidates|)
    ensures !sky.cancelledAtCheck(k) ==> Accounted(candidates, size, sky, n, signals, failed)
    ensures left <==> SomeCutOff(candidates, size, sky, start, n)
  {
    var batch := Batch(candidates, size, start);
    var cutOff := sky.pending(k);
    BatchIsNew(candidates, size, sky, start, signals0, failed0);
    signals, failed := ScanBatch(batch, cutOff, sky.verdicts, signals0, failed0, sky.cancelledAtCheck(k));
    if !sky.cancelledAtCheck(k) {
      AccountBatch(candidates, size, sky, k, signals0, failed0, signals, failed);
    }
    n := MinInt(start + |batch|, |candidates|);
    left := exists j :: 0 <= j < |batch| && batch[j] in cutOff;
    BatchCutOff(candidates, size, sky, k);
  }

  lemma BatchCutOff(candidates: seq<string>, size: nat, sky: Weather, k: nat)
    requires size > 0 && k * size < |candidates|
    ensures var batch := Batch(candidates, size, k * size);
      (exists j :: 0 <= j < |batch| && batch[j] in sky.pending(k))
      <==> SomeCutOff(candidates, size, sky, k * size, MinInt(k * size + size, |candidates|))
  {
    var start := k * size;
    var n := MinInt(start + size, |candidates|);
    var batch := Batch(candidates, size, start);
    forall i | start <= i < n
      ensures batch[i - start] in sky.pending(k) <==> CutOff(candidates, size, sky, i)
    {
      BatchNumber(size, k, i);
    }
    if j :| 0 <= j < |batch| && batch[j] in sky.pending(k) {
      assert batch[(start + j) - start] in sky.pending(k);
      assert CutOff(candidates, size, sky, start + j);
    }
  }

  /** Strictly rising progress whose last value, if any, is `n`. */
  predicate RisesTo(published: seq<nat>, n: nat) {
    Rising(published) && n == if published == [] then 0 else published[|published| - 1]
  }

  lemma RisesFurther(published: seq<nat>, n: nat, m: nat)
    requires RisesTo(published, n) && n < m
    ensures RisesTo(published + [m], m)
  {
  }

  /** Batch `k` starts and ends without being stopped. */
  predicate Undisturbed(sky: Weather, k: nat) {
    !sky.cancelledAtHead(k) && !sky.expired(k) && !sky.cancelledAtCheck(k)
  }

  /** How the weather makes the loop end at batch `k`, after `n` candidates. */
  ghost predicate EndsAt(candidates: seq<string>, size: nat, sky: Weather, k: nat, n: nat, ending: Ending)
    requires n <= |candidates| && size > 0
  {
    && (forall j :: 0 <= j < k ==> Undisturbed(sky, j))
    && match ending
       case CancelSeen =>
         n == k * size < |candidates|
         && (sky.cancelledAtHead(k) || (!sky.expired(k) && sky.cancelledAtCheck(k)))
       case DeadlineHit => n == k * size < |candidates| && !sky.cancelledAtHead(k) && sky.expired(k)
       case PendingLeft =>
         Undisturbed(sky, k) && k * size < n == MinInt(k * size + size, |candidates|)
         && SomeCutOff(candidates, size, sky, k * size, n)
       case Exhausted => n == |candidates| <= k * size && !SomeCutOff(candidates, size, sky, 0, n)
  }

  lemma NarrowCutOff(candidates: seq<string>, size: nat, sky: Weather, start: nat, n: nat)
    requires start <= n <= |candidates| && size > 0
    requires !SomeCutOff(candidates, size, sky, 0, start) && !SomeCutOff(candidates, size, sky, start, n)
    ensures !SomeCutOff(candidates, size, sky, 0, n)
  {
    forall i | 0 <= i < n
      ensures !CutOff(candidates, size, sky, i)
    {
    }
  }

  /** The loop. Every candidate before `n` ends in exactly one of signals, failed and dropped; the rest is
      wholly failed when the deadline stopped the loop and wholly absent otherwise; the published progress
      rises strictly, never exceeds the total, and ends at `n`. Which way it ends, and at which batch, is
      decided by the first batch that is cancelled, late or left with pending scans. */
  method ScanCandidates(candidates: seq<string>, requestedBatch: int, sky: Weather)
    returns (signals: seq<string>, failed: seq<string>, published: seq<nat>, n: nat, ending: Ending,
             ghost scannedFailed: seq<string>, ghost k: nat)
    requires Distinct(candidates) && VerdictKnown(candidates, sky)
    ensures n <= |candidates| && RisesTo(published, n)
    ensures EndsAt(candidates, BatchSize(requestedBatch), sky, k, n, ending)
    ensures ending != CancelSeen ==>
      Accounted(candidates, BatchSize(requestedBatch), sky, n, signals, scannedFailed)
    ensures ending == DeadlineHit ==> failed == scannedFailed + candidates[n..]
    ensures ending == Exhausted || ending == PendingLeft ==> failed == scannedFailed
  {
    var size := BatchSize(requestedBatch);
    signals, failed, published, n, scannedFailed := [], [], [], 0, [];
    var start, batch := 0, 0;
    while start < |candidates|
      invariant start == batch * size && n == MinInt(start, |candidates|)
      invariant forall j :: 0 <= j < batch ==> Undisturbed(sky, j)
      invariant !SomeCutOff(candidates, size, sky, 0, n)
      invariant Accounted(candidates, size, sky, n, signals, failed)
      invariant RisesTo(published, n)
      decreases |candidates| + size - start
    {
      if sky.cancelledAtHead(batch) {
        return signals, failed, published, n, CancelSeen, failed, batch;
      }
      if sky.expired(batch) {
        return signals, failed + candidates[start..], published, n, DeadlineHit, failed, batch;
      }
      var signals', failed', n', left := NextBatch(candidates, size, sky, batch, start, signals, failed);
      if sky.cancelledAtCheck(batch) {
        return signals', failed', published, n, CancelSeen, failed', batch;
      }
      signals, failed, n := signals', failed', n';
      RisesFurther(published, MinInt(start, |candidates|), n);
      published := published + [n];
      if left {
        return signals, failed, published, n, PendingLeft, failed, batch;
      }
      NarrowCutOff(candidates, size, sky, start, n);
      assert (batch + 1) * size == start + size;
      batch := batch + 1;
      start := start + size;
    }
    return signals, failed, published, n, Exhausted, failed, batch;
  }

  /** After a deadline stop every unscanned candidate is among the failures, still without duplicates, and
      none of them among the signals. */
  lemma DeadlineTailIsFailed(candidates: seq<string>, size: nat, sky: Weather, n: nat,
                             signals: seq<string>, scannedFailed: seq<string>)
    requires Distinct(candidates) && size > 0 && VerdictKnown(candidates, sky) && n <= |candidates|
    requires Accounted(candidates, size, sky, n, signals, scannedFailed)
    ensures Distinct(scannedFailed + candidates[n..])
    ensures forall i :: n <= i < |candidates| ==>
      candidates[i] in scannedFailed + candidates[n..] && candidates[i] !in signals
  {
    forall i | n <= i < |candidates|
      ensures candidates[i] !in candidates[..n] && candidates[i] in candidates[n..]
    {
      assert candidates[n..][i - n] == candidates[i];
    }
  }

  /** No candidate is ever both a signal and a failure, or counted twice: the three fates partition what was scanned. */
  lemma FatesPartition(candidates: seq<string>, size: nat, sky: Weather, n: nat,
                       signals: seq<string>, failed: seq<string>, i: nat)
    requires size > 0 && VerdictKnown(candidates, sky) && i < n <= |candidates|
    requires Accounted(candidates, size, sky, n, signals, failed)
    ensures !(candidates[i] in signals && candidates[i] in failed)
    ensures candidates[i] !in signals && candidates[i] !in failed <==>
      !CutOff(candidates, size, sky, i) && sky.verdicts[candidates[i]] == Dropped
  {
  }
}
