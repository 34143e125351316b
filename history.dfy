/**
 * The bounded, newest-first log of readings kept by the dashboard: the
 * `setHistory` updater of the effect that runs whenever `sensorData` changes.
 */
module History {
  import opened Readings

  /** A recorded reading with the id it was stamped with (`Date.now()`, passed in). */
  datatype Entry = Entry(reading: Snapshot, id: int)

  /** How many entries the log keeps. */
  const Capacity: nat := 10

  function Min(a: int, b: int): (m: int)
    ensures m <= a && m <= b && (m == a || m == b)
  {
    if a <= b then a else b
  }

  /** The five numeric fields agree (the timestamp is not compared). */
  predicate SameValues(a: Snapshot, b: Snapshot)
  {
    && a.soilMoisture == b.soilMoisture
    && a.temperature == b.temperature
    && a.humidity == b.humidity
    && a.lightIntensity == b.lightIntensity
    && a.batteryLevel == b.batteryLevel
  }

  /** The log has no head yet, or the reading differs from the head in some field. */
  predicate Records(prev: seq<Entry>, s: Snapshot)
  {
    prev == [] || !SameValues(prev[0].reading, s)
  }

  /** The updater: prepend the reading and keep at most `Capacity` entries, or leave the log alone. */
  function Reduce(prev: seq<Entry>, s: Snapshot, id: int): (r: seq<Entry>)
    ensures Records(prev, s) ==> |r| == Min(|prev| + 1, Capacity)
    ensures Records(prev, s) ==> r[0] == Entry(s, id)
    ensures Records(prev, s) ==> forall i :: 1 <= i < |r| ==> r[i] == prev[i - 1]
    ensures !Records(prev, s) ==> r == prev
  {
    if Records(prev, s) then [Entry(s, id)] + prev[..Min(|prev|, Capacity - 1)] else prev
  }

  /** No two neighbouring entries carry the same five values. */
  predicate NoRepeats(h: seq<Entry>)
  {
    forall i :: 0 <= i < |h| - 1 ==> !SameValues(h[i].reading, h[i + 1].reading)
  }

  /** The invariant of the log: bounded, and free of consecutive duplicates. */
  predicate WellFormed(h: seq<Entry>)
  {
    |h| <= Capacity && NoRepeats(h)
  }

  /** Reducing keeps the log well formed, and afterwards its head carries the reading's values. */
  lemma ReducePreserves(prev: seq<Entry>, s: Snapshot, id: int)
    requires WellFormed(prev)
    ensures WellFormed(Reduce(prev, s, id))
    ensures Reduce(prev, s, id) != [] && SameValues(Reduce(prev, s, id)[0].reading, s)
  {
    var r := Reduce(prev, s, id);
    if Records(prev, s) {
      forall i | 0 <= i < |r| - 1
        ensures !SameValues(r[i].reading, r[i + 1].reading)
      {
        if i > 0 {
          assert r[i] == prev[i - 1] && r[i + 1] == prev[i];
        } else {
          assert r[1] == prev[0];
        }
      }
    }
  }

  /** Reducing the same reading twice in a row is reducing it once, whatever the second id. */
  lemma ReduceIdempotent(prev: seq<Entry>, s: Snapshot, id1: int, id2: int)
    ensures Reduce(Reduce(prev, s, id1), s, id2) == Reduce(prev, s, id1)
  {
    var r := Reduce(prev, s, id1);
    assert r != [] && SameValues(r[0].reading, s);
  }

  /** Two readings that differ: a one-entry log grows to two entries, the newer first. */
  lemma ReduceDistinctPair(s1: Snapshot, id1: int, s2: Snapshot, id2: int)
    requires !SameValues(s1, s2)
    ensures Reduce([Entry(s1, id1)], s2, id2) == [Entry(s2, id2), Entry(s1, id1)]
  {
  }

  /** The log after reducing each of `es` in turn, starting from `h` (oldest reading first). */
  function ReduceAll(h: seq<Entry>, es: seq<Entry>): (r: seq<Entry>)
  {
    if es == [] then h
    else
      var last := es[|es| - 1];
      Reduce(ReduceAll(h, es[..|es| - 1]), last.reading, last.id)
  }

  /** The entries newest first. */
  function Reversed(es: seq<Entry>): (r: seq<Entry>)
    ensures |r| == |es|
    ensures forall i :: 0 <= i < |es| ==> r[i] == es[|es| - 1 - i]
  {
    if es == [] then [] else [es[|es| - 1]] + Reversed(es[..|es| - 1])
  }

  /** Each reading differs from the one before it. */
  predicate ChangesEachTime(es: seq<Entry>)
  {
    forall i :: 0 < i < |es| ==> !SameValues(es[i - 1].reading, es[i].reading)
  }

  /** After N successive changing readings from an empty log, the log holds the
      min(N, 10) most recent ones, newest first. */
  lemma {:induction false} ReduceAllChanging(es: seq<Entry>)
    requires ChangesEachTime(es)
    ensures ReduceAll([], es) == Reversed(es)[..Min(|es|, Capacity)]
    ensures |ReduceAll([], es)| == Min(|es|, Capacity)
  {
    if es != [] {
      var init := es[..|es| - 1];
      var last := es[|es| - 1];
      assert ChangesEachTime(init) by {
        forall i | 0 < i < |init| ensures !SameValues(init[i - 1].reading, init[i].reading) {
          assert init[i - 1] == es[i - 1] && init[i] == es[i];
        }
      }
      ReduceAllChanging(init);
      var h := ReduceAll([], init);
      assert h == Reversed(init)[..Min(|init|, Capacity)];
      if init != [] {
        assert h[0] == init[|init| - 1] == es[|es| - 2];
        assert Records(h, last.reading);
      }
      var r := Reduce(h, last.reading, last.id);
      var want := Reversed(es)[..Min(|es|, Capacity)];
      assert |r| == |want|;
      forall i | 0 <= i < |r| ensures r[i] == want[i] {
        if i > 0 {
          assert r[i] == h[i - 1] == Reversed(init)[i - 1] == init[|init| - i];
        }
      }
    }
  }

  /** Only the head is compared: a reading that comes back after a different one is recorded
      again, so the log may hold equal values at entries that are not neighbours. */
  lemma ReturningReadingRecordedAgain(a: Snapshot, b: Snapshot)
    requires !SameValues(a, b)
    ensures ReduceAll([], [Entry(a, 1), Entry(b, 2), Entry(a, 3)]) == [Entry(a, 3), Entry(b, 2), Entry(a, 1)]
  {
    var es := [Entry(a, 1), Entry(b, 2), Entry(a, 3)];
    assert es[..2] == [Entry(a, 1), Entry(b, 2)] && es[..2][..1] == [Entry(a, 1)];
    assert ReduceAll([], es[..2][..1]) == [Entry(a, 1)];
    assert ReduceAll([], es[..2]) == [Entry(b, 2), Entry(a, 1)];
  }

  /** Whatever readings arrive, a well-formed log stays well formed. */
  lemma {:induction false} ReduceAllPreserves(h: seq<Entry>, es: seq<Entry>)
    requires WellFormed(h)
    ensures WellFormed(ReduceAll(h, es))
  {
    if es != [] {
      var last := es[|es| - 1];
      ReduceAllPreserves(h, es[..|es| - 1]);
      ReducePreserves(ReduceAll(h, es[..|es| - 1]), last.reading, last.id);
    }
  }
}
