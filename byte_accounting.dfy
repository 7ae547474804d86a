/**
 * Per-request byte accounting on a connection that may carry several
 * requests one after another (keep-alive). The connection keeps cumulative
 * counters; each completed request reports the counters minus the checkpoint
 * left by the previous request, and then moves the checkpoint to the
 * counters.
 */
module ByteAccounting {
  import opened Wrappers

  /** Cumulative bytes read and written on a connection, or a checkpoint of them. */
  datatype Counters = Counters(bytesRead: nat, bytesWritten: nat)

  /** Bytes read and written by one request. */
  datatype Delta = Delta(read: int, written: int)

  predicate NoDecrease(earlier: Counters, later: Counters) {
    earlier.bytesRead <= later.bytesRead && earlier.bytesWritten <= later.bytesWritten
  }

  /** Counters never decrease: no reading is below an earlier one. */
  predicate Monotone(readings: seq<Counters>) {
    forall i, j {:trigger NoDecrease(readings[i], readings[j])} ::
      0 <= i < j < |readings| ==> NoDecrease(readings[i], readings[j])
  }

  /** A reading that does not fall below the last one keeps a non-decreasing history non-decreasing. */
  lemma MonotoneSnoc(readings: seq<Counters>, current: Counters)
    requires Monotone(readings)
    requires readings != [] ==> NoDecrease(readings[|readings| - 1], current)
    ensures Monotone(readings + [current])
  {
    var extended := readings + [current];
    forall i, j | 0 <= i < j < |extended| ensures NoDecrease(extended[i], extended[j]) {
      if j < |readings| {
        assert NoDecrease(readings[i], readings[j]);
      } else if i < |readings| - 1 {
        assert NoDecrease(readings[i], readings[|readings| - 1]);
      }
    }
  }

  /** The counters a request subtracts: the checkpoint, or zero when there is none yet. */
  function Previous(checkpoint: Option<Counters>): Counters {
    match checkpoint
    case None => Counters(0, 0)
    case Some(c) => c
  }

  /**
   * The reference definition of what a request completing now reports,
   * given the checkpoint of the connection. The postconditions give the
   * same facts without subtraction, for callers that do not unfold it.
   */
  function DeltaSince(checkpoint: Option<Counters>, current: Counters): (d: Delta)
    ensures checkpoint.None? ==> d == Delta(current.bytesRead, current.bytesWritten)
    ensures checkpoint.Some? ==> checkpoint.value.bytesRead + d.read == current.bytesRead
    ensures checkpoint.Some? ==> checkpoint.value.bytesWritten + d.written == current.bytesWritten
  {
    match checkpoint
    case None => Delta(current.bytesRead, current.bytesWritten)
    case Some(previous) =>
      Delta(current.bytesRead - previous.bytesRead, current.bytesWritten - previous.bytesWritten)
  }

  /** The checkpoint a connection holds after requests completed with these readings. */
  function CheckpointAfter(readings: seq<Counters>): Option<Counters> {
    if readings == [] then None else Some(readings[|readings| - 1])
  }

  /**
   * The deltas reported by requests completing one after another on a fresh
   * connection, the i-th one when the counters read `readings[i]`.
   */
  function Deltas(readings: seq<Counters>): (ds: seq<Delta>)
    ensures |ds| == |readings|
  {
    if readings == [] then []
    else
      var earlier := readings[..|readings| - 1];
      Deltas(earlier) + [DeltaSince(CheckpointAfter(earlier), readings[|readings| - 1])]
  }

  /** Sum of a sequence of deltas. */
  function Total(ds: seq<Delta>): Delta {
    if ds == [] then Delta(0, 0)
    else
      var t := Total(ds[..|ds| - 1]);
      Delta(t.read + ds[|ds| - 1].read, t.written + ds[|ds| - 1].written)
  }

  /** One more completion appends exactly one delta and leaves the earlier ones alone. */
  lemma DeltasSnoc(readings: seq<Counters>, current: Counters)
    ensures Deltas(readings + [current]) == Deltas(readings) + [DeltaSince(CheckpointAfter(readings), current)]
  {
  }

  /** Each request reports its reading minus the reading of the request before it (zero for the first). */
  lemma {:induction false} DeltaAt(readings: seq<Counters>, i: nat)
    requires i < |readings|
    ensures Deltas(readings)[i] == DeltaSince(CheckpointAfter(readings[..i]), readings[i])
    ensures i == 0 ==> Deltas(readings)[i] == Delta(readings[0].bytesRead, readings[0].bytesWritten)
    ensures i > 0 ==> Deltas(readings)[i] == Delta(readings[i].bytesRead - readings[i - 1].bytesRead,
                                                   readings[i].bytesWritten - readings[i - 1].bytesWritten)
  {
    var earlier := readings[..|readings| - 1];
    if i < |readings| - 1 {
      DeltaAt(earlier, i);
      assert earlier[..i] == readings[..i];
    } else {
      assert earlier == readings[..i];
    }
  }

  /**
   * No double counting and no loss: the deltas of all completed requests add
   * up to the connection's counters at the last completion (zero when none
   * completed).
   */
  lemma {:induction false} Telescoping(readings: seq<Counters>)
    ensures Total(Deltas(readings)) == Delta(Previous(CheckpointAfter(readings)).bytesRead,
                                             Previous(CheckpointAfter(readings)).bytesWritten)
  {
    if readings != [] {
      var earlier := readings[..|readings| - 1];
      var ds := Deltas(readings);
      assert ds[..|ds| - 1] == Deltas(earlier);
      Telescoping(earlier);
    }
  }

  /** When the counters never decrease, no request reports a negative byte count. */
  lemma {:induction false} DeltasNonNegative(readings: seq<Counters>)
    requires Monotone(readings)
    ensures forall d :: d in Deltas(readings) ==> d.read >= 0 && d.written >= 0
  {
    if readings != [] {
      var earlier := readings[..|readings| - 1];
      assert Monotone(earlier) by {
        forall i, j | 0 <= i < j < |earlier| ensures NoDecrease(earlier[i], earlier[j]) {
          assert NoDecrease(readings[i], readings[j]);
        }
      }
      DeltasNonNegative(earlier);
      if earlier != [] {
        assert NoDecrease(readings[|readings| - 2], readings[|readings| - 1]);
      }
    }
  }

  /**
   * One completion on a connection whose counters never decreased: the
   * history stays non-decreasing, the new report is measured from the last
   * checkpoint, all reports still sum to the counters, and none is negative.
   */
  lemma CompletionStep(readings: seq<Counters>, current: Counters)
    requires Monotone(readings)
    requires readings != [] ==> NoDecrease(readings[|readings| - 1], current)
    ensures Monotone(readings + [current])
    ensures Deltas(readings + [current]) == Deltas(readings) + [DeltaSince(CheckpointAfter(readings), current)]
    ensures Total(Deltas(readings + [current])) == Delta(current.bytesRead, current.bytesWritten)
    ensures forall d :: d in Deltas(readings + [current]) ==> d.read >= 0 && d.written >= 0
  {
    DeltasSnoc(readings, current);
    MonotoneSnoc(readings, current);
    Telescoping(readings + [current]);
    DeltasNonNegative(readings + [current]);
  }
}
