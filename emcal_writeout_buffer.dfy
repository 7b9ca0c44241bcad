/** The EMCAL digitizer's write-out buffer: a queue of time slots, each holding
    per tower the digits that fall into that sample, and a marker at the slot
    of the current event. Moving the marker on appends a fresh slot at the end
    and, once enough samples lie behind the marker, drops the oldest. */
module EmcalWriteoutBuffer {

  /** The number of samples of a readout window. */
  const NumberReadoutSamples: nat := 15

  /** One time slot: the digits of each tower, in the order they came. */
  type Slot<D> = map<int, seq<D>>

  /** The slots and the marker position, as a value. */
  datatype BufferState<D> = BufferState(slots: seq<Slot<D>>, marker: nat)

  /** The marker lies within the queue, and never more than a readout window
      from its front. */
  ghost predicate WellFormed<D>(b: BufferState<D>)
  {
    b.marker <= |b.slots| && b.marker <= NumberReadoutSamples
  }

  /** The slot with `dig` appended to the digits of `tower`. */
  function AddTo<D>(slot: Slot<D>, tower: int, dig: D): (r: Slot<D>)
    ensures r.Keys == slot.Keys + {tower}
  {
    slot[tower := (if tower in slot then slot[tower] else []) + [dig]]
  }

  /** Adding a digit puts it last among its tower's digits and touches no other
      tower. */
  lemma AddToAppends<D>(slot: Slot<D>, tower: int, dig: D)
    ensures var r := AddTo(slot, tower, dig);
      var before := if tower in slot then slot[tower] else [];
      |r[tower]| == |before| + 1 && r[tower][|before|] == dig && r[tower][..|before|] == before
      && forall u :: u in slot && u != tower ==> r[u] == slot[u]
  {
    var r := AddTo(slot, tower, dig);
    var before := if tower in slot then slot[tower] else [];
    assert r[tower] == before + [dig];
  }

  /** The buffer after the marker moved on by one slot. */
  function Forward<D>(b: BufferState<D>): BufferState<D>
  {
    var slots := b.slots + [map[]];
    if b.marker + 1 > NumberReadoutSamples then BufferState(slots[1..], b.marker)
    else BufferState(slots, b.marker + 1)
  }

  /** Moving the marker on keeps the buffer well formed; the slot that was
      current now lies just behind the marker, the slots after it are the
      ones that followed plus one fresh slot, and the queue grows by one slot
      unless the front was dropped. */
  lemma ForwardShifts<D>(b: BufferState<D>)
    requires WellFormed(b) && b.marker < |b.slots|
    ensures var f := Forward(b);
      WellFormed(f) && f.marker >= 1
      && f.slots[f.marker - 1] == b.slots[b.marker]
      && f.slots[f.marker..] == b.slots[b.marker + 1..] + [map[]]
      && |f.slots| == (if b.marker + 1 > NumberReadoutSamples then |b.slots| else |b.slots| + 1)
  {
    var slots := b.slots + [map[]];
    if b.marker + 1 > NumberReadoutSamples {
      assert slots[1..][b.marker..] == slots[b.marker + 1..];
    } else {
      assert slots[b.marker + 1..] == b.slots[b.marker + 1..] + [map[]];
    }
  }

  /** The `n` slots before the marker after it moved on are the `n - 1` slots
      before it and the slot that was current. */
  lemma ForwardWindow<D>(b: BufferState<D>, n: nat)
    requires WellFormed(b) && b.marker < |b.slots| && 1 <= n <= Forward(b).marker
    ensures var f := Forward(b);
      f.slots[f.marker - n..f.marker] == b.slots[b.marker - (n - 1)..b.marker + 1]
  {
    var slots := b.slots + [map[]];
    if b.marker + 1 > NumberReadoutSamples {
      assert slots[1..][b.marker - n..b.marker] == slots[b.marker - n + 1..b.marker + 1];
    }
  }

  class DigitsWriteoutBuffer<D> {
    var timedDigits: seq<Slot<D>>
    /** The index of the marked slot. */
    var marker: nat
    var referenceTime: real
    const bufferSize: nat
    const timeBinWidth: nat

    function State(): BufferState<D>
      reads this
    {
      BufferState(timedDigits, marker)
    }

    ghost predicate Valid()
      reads this
    {
      WellFormed(State())
    }

    /** `nTimeBins` empty slots, the marker on the first, reference time 0. */
    constructor(nTimeBins: nat, binWidth: nat)
      ensures Valid()
      ensures timedDigits == seq(nTimeBins, _ => map[]) && marker == 0 && referenceTime == 0.0
      ensures bufferSize == nTimeBins && timeBinWidth == binWidth
    {
      bufferSize, timeBinWidth := nTimeBins, binWidth;
      var slots: seq<Slot<D>> := [];
      var itime := 0;
      while itime < nTimeBins
        invariant 0 <= itime <= nTimeBins
        invariant slots == seq(itime, _ => map[])
      {
        slots := slots + [map[]];
        itime := itime + 1;
      }
      timedDigits := slots;
      marker := 0;
      referenceTime := 0.0;
    }

    /** `clear`: no slots, the marker at the front, reference time 0. */
    method Clear()
      modifies this
      ensures Valid()
      ensures timedDigits == [] && marker == 0 && referenceTime == 0.0
    {
      timedDigits := [];
      referenceTime := 0.0;
      marker := 0;
    }

    /** `addDigit`, given the slot offset from the marker that the event time
        falls into: the digit joins its tower's list in that slot. */
    method AddDigit(towerID: nat, dig: D, offset: int)
      requires Valid() && 0 <= marker + offset < |timedDigits|
      modifies this
      ensures Valid()
      ensures var slot := old(marker) + offset;
        timedDigits == old(timedDigits)[slot := AddTo(old(timedDigits)[slot], towerID, dig)]
      ensures marker == old(marker) && referenceTime == old(referenceTime)
    {
      var slot := marker + offset;
      var timeEntry := timedDigits[slot];
      ghost var entry0 := timeEntry;
      if towerID !in timeEntry {
        timeEntry := timeEntry[towerID := []];
      }
      timeEntry := timeEntry[towerID := timeEntry[towerID] + [dig]];
      assert timeEntry == AddTo(entry0, towerID, dig);
      timedDigits := timedDigits[slot := timeEntry];
    }

    /** `forwardMarker`: the reference time becomes `eventTime`, the marker
        moves on by one slot, a fresh slot is appended, and the front slot is
        dropped once the marker lies more than a readout window from it. */
    method ForwardMarker(eventTime: real)
      requires Valid() && marker < |timedDigits|
      modifies this
      ensures Valid()
      ensures State() == Forward(old(State())) && referenceTime == eventTime
    {
      referenceTime := eventTime;
      marker := marker + 1;
      timedDigits := timedDigits + [map[]];
      if marker > NumberReadoutSamples {
        timedDigits := timedDigits[1..];
        marker := marker - 1;
      }
    }

    /** `getLastNSamples`: the `nsamples` slots just before the marker. */
    method GetLastNSamples(nsamples: nat) returns (r: seq<Slot<D>>)
      requires Valid() && nsamples <= marker
      ensures |r| == nsamples
      ensures forall k :: 0 <= k < nsamples ==> r[k] == timedDigits[marker - nsamples + k]
    {
      r := timedDigits[marker - nsamples..marker];
    }
  }
}
