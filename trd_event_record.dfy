/** The TRD raw-reader's event records: per interaction, the tracklets and
    digits read so far, sorted by pad before they are sent, and the container
    that collects the records of a time frame, the configuration events and
    the time-frame statistics. */
module TrdEventRecord {

  // ---------------------------------------------------------------------------
  // Pads and the order of the data

  /** Where a tracklet or digit lies: the readout chamber and the pad. */
  datatype Pad = Pad(detector: int, padRow: int, padCol: int)

  /** The ordering `sortData` sorts with: by detector, then pad row, then pad
      column. */
  predicate PadBefore(p: Pad, q: Pad)
  {
    p.detector < q.detector
    || (p.detector == q.detector && p.padRow < q.padRow)
    || (p.detector == q.detector && p.padRow == q.padRow && p.padCol < q.padCol)
  }

  /** No element is placed after one it should precede. */
  ghost predicate SortedByPad<T>(s: seq<T>, pad: T -> Pad)
  {
    forall i, j :: 0 <= i < j < |s| ==> !PadBefore(pad(s[j]), pad(s[i]))
  }

  /** `PadBefore` is a strict order. */
  lemma PadBeforeStrict(p: Pad, q: Pad, r: Pad)
    ensures !PadBefore(p, p)
    ensures PadBefore(p, q) ==> !PadBefore(q, p)
    ensures PadBefore(p, q) && PadBefore(q, r) ==> PadBefore(p, r)
  {
  }

  /** Exchanges `a[j - 1]` and `a[j]`. */
  method Swap<T>(a: array<T>, j: nat)
    requires 0 < j < a.Length
    modifies a
    ensures a[..] == old(a[..])[j - 1 := old(a[j])][j := old(a[j - 1])]
    ensures multiset(a[..]) == multiset(old(a[..]))
  {
    a[j], a[j - 1] := a[j - 1], a[j];
  }

  /** Moves `a[i]` down to its place among the sorted `a[..i]`. */
  method InsertDown<T>(a: array<T>, i: nat, pad: T -> Pad)
    requires i < a.Length && SortedByPad(a[..i], pad)
    modifies a
    ensures SortedByPad(a[..i + 1], pad)
    ensures multiset(a[..]) == multiset(old(a[..]))
    ensures a[i + 1..] == old(a[i + 1..])
  {
    var j := i;
    while j > 0 && PadBefore(pad(a[j]), pad(a[j - 1]))
      invariant 0 <= j <= i
      invariant forall k, l :: 0 <= k < l <= i && l != j && k != j ==> !PadBefore(pad(a[l]), pad(a[k]))
      invariant forall l :: j < l <= i ==> !PadBefore(pad(a[l]), pad(a[j]))
      invariant 0 < j < i ==> !PadBefore(pad(a[j + 1]), pad(a[j - 1]))
      invariant multiset(a[..]) == multiset(old(a[..]))
      invariant a[i + 1..] == old(a[i + 1..])
    {
      Swap(a, j);
      j := j - 1;
    }
  }

  /** `std::sort` with the pad ordering: afterwards the data are in pad order
      and are the same data. Data at the same pad may end in any order. */
  method SortByPad<T>(a: array<T>, pad: T -> Pad)
    modifies a
    ensures SortedByPad(a[..], pad)
    ensures multiset(a[..]) == multiset(old(a[..]))
  {
    var i := 0;
    while i < a.Length
      invariant 0 <= i <= a.Length
      invariant SortedByPad(a[..i], pad)
      invariant multiset(a[..]) == multiset(old(a[..]))
    {
      InsertDown(a, i, pad);
      i := i + 1;
    }
    assert a[..i] == a[..];
  }

  // ---------------------------------------------------------------------------
  // Event records

  /** The bunch crossing and orbit of an interaction. */
  datatype InteractionRecord = InteractionRecord(bc: nat, orbit: nat)

  /** A tracklet: its pad and its 64-bit word. */
  datatype Tracklet = Tracklet(pad: Pad, word: nat)

  /** A digit: its pad and its ADC samples. */
  datatype Digit = Digit(pad: Pad, adcs: seq<nat>)

  /** The per-link counters of one trigger, carried along as they are. */
  datatype LinkCounters = LinkCounters(words: seq<nat>)

  /** What was read for one interaction. */
  datatype EventRecord = EventRecord(
    bcData: InteractionRecord,
    tracklets: seq<Tracklet>,
    digits: seq<Digit>,
    counters: LinkCounters,
    isCalibTrigger: bool)

  /** A record for an interaction not seen before. */
  function NewRecord(ir: InteractionRecord): EventRecord
  {
    EventRecord(ir, [], [], LinkCounters([]), false)
  }

  /** The pad of a tracklet and of a digit. */
  function TrackletPad(t: Tracklet): Pad { t.pad }
  function DigitPad(d: Digit): Pad { d.pad }

  /** `after` is `before` with its tracklets put in pad order and, when
      `sortDigits`, its digits too; nothing else differs. */
  ghost predicate SortedRecord(before: EventRecord, after: EventRecord, sortDigits: bool)
  {
    after.bcData == before.bcData && after.counters == before.counters && after.isCalibTrigger == before.isCalibTrigger
    && SortedByPad(after.tracklets, TrackletPad) && multiset(after.tracklets) == multiset(before.tracklets)
    && (sortDigits ==> SortedByPad(after.digits, DigitPad) && multiset(after.digits) == multiset(before.digits))
    && (!sortDigits ==> after.digits == before.digits)
  }

  /** `sortData`: sorts the record's tracklets, and its digits when asked. */
  method SortData(e: EventRecord, sortDigits: bool) returns (r: EventRecord)
    ensures SortedRecord(e, r, sortDigits)
  {
    var ts := new Tracklet[|e.tracklets|](k requires 0 <= k < |e.tracklets| => e.tracklets[k]);
    assert ts[..] == e.tracklets;
    SortByPad(ts, TrackletPad);
    r := e.(tracklets := ts[..]);
    if sortDigits {
      var ds := new Digit[|e.digits|](k requires 0 <= k < |e.digits| => e.digits[k]);
      assert ds[..] == e.digits;
      SortByPad(ds, DigitPad);
      r := r.(digits := ds[..]);
    }
  }

  // ---------------------------------------------------------------------------
  // What a time frame sends

  /** Where a trigger's data lie in the flat digit and tracklet vectors. */
  datatype TriggerRecord = TriggerRecord(bcData: InteractionRecord, firstDigit: nat, nDigits: nat, firstTracklet: nat, nTracklets: nat)

  /** The tracklets of the records, one record after the other. */
  function AllTracklets(events: seq<EventRecord>): (r: seq<Tracklet>)
  {
    if events == [] then [] else AllTracklets(events[..|events| - 1]) + events[|events| - 1].tracklets
  }

  /** The digits of the records, one record after the other. */
  function AllDigits(events: seq<EventRecord>): (r: seq<Digit>)
  {
    if events == [] then [] else AllDigits(events[..|events| - 1]) + events[|events| - 1].digits
  }

  /** The trigger records: each record's data start where the data of the
      records before it end. */
  function Triggers(events: seq<EventRecord>): (r: seq<TriggerRecord>)
    ensures |r| == |events|
  {
    if events == [] then []
    else
      var n := |events| - 1;
      var e := events[n];
      Triggers(events[..n]) + [TriggerRecord(e.bcData, |AllDigits(events[..n])|, |e.digits|, |AllTracklets(events[..n])|, |e.tracklets|)]
  }

  /** The flat vectors of a prefix are a prefix of the flat vectors. */
  lemma {:induction false} AllDataPrefix(events: seq<EventRecord>, k: nat)
    requires k <= |events|
    ensures AllTracklets(events[..k]) <= AllTracklets(events)
    ensures AllDigits(events[..k]) <= AllDigits(events)
    decreases |events|
  {
    if k < |events| {
      var n := |events| - 1;
      assert events[..n][..k] == events[..k];
      AllDataPrefix(events[..n], k);
    } else {
      assert events[..k] == events;
    }
  }

  /** The last trigger record is that of the last record, placed after the
      data of the records before it. */
  lemma LastTrigger(events: seq<EventRecord>)
    requires events != []
    ensures var n := |events| - 1;
      Triggers(events) == Triggers(events[..n])
        + [TriggerRecord(events[n].bcData, |AllDigits(events[..n])|, |events[n].digits|, |AllTracklets(events[..n])|, |events[n].tracklets|)]
      && AllDigits(events) == AllDigits(events[..n]) + events[n].digits
      && AllTracklets(events) == AllTracklets(events[..n]) + events[n].tracklets
  {
  }

  /** Collecting one more record extends every output by that record's
      part. */
  lemma CollectNext(events: seq<EventRecord>, i: nat)
    requires i < |events|
    ensures AllTracklets(events[..i + 1]) == AllTracklets(events[..i]) + events[i].tracklets
    ensures AllDigits(events[..i + 1]) == AllDigits(events[..i]) + events[i].digits
    ensures Triggers(events[..i + 1]) == Triggers(events[..i])
      + [TriggerRecord(events[i].bcData, |AllDigits(events[..i])|, |events[i].digits|, |AllTracklets(events[..i])|, |events[i].tracklets|)]
    ensures CountersOf(events[..i + 1]) == CountersOf(events[..i]) + [events[i].counters]
  {
    assert events[..i + 1][..i] == events[..i];
    LastTrigger(events[..i + 1]);
  }

  /** Trigger `k` names exactly the digits of record `k`: its first digit is
      the count of the digits of the records before it, and the range it
      gives holds that record's digits. */
  lemma {:induction false} TriggerIndexesItsDigits(events: seq<EventRecord>, k: nat)
    requires k < |events|
    ensures var t := Triggers(events)[k];
      t.bcData == events[k].bcData && t.firstDigit == |AllDigits(events[..k])|
      && t.firstDigit + t.nDigits <= |AllDigits(events)|
      && AllDigits(events)[t.firstDigit..t.firstDigit + t.nDigits] == events[k].digits
    decreases |events|
  {
    var n := |events| - 1;
    var front := events[..n];
    LastTrigger(events);
    if k < n {
      assert front[k] == events[k] && front[..k] == events[..k];
      TriggerIndexesItsDigits(front, k);
      var t := Triggers(front)[k];
      assert Triggers(events)[k] == t;
      assert AllDigits(events)[t.firstDigit..t.firstDigit + t.nDigits] == AllDigits(front)[t.firstDigit..t.firstDigit + t.nDigits];
    } else {
      assert events[..k] == front;
      var all := AllDigits(events);
      assert all[|AllDigits(front)|..] == events[n].digits;
    }
  }

  /** The same for the tracklets of record `k`. */
  lemma {:induction false} TriggerIndexesItsTracklets(events: seq<EventRecord>, k: nat)
    requires k < |events|
    ensures var t := Triggers(events)[k];
      t.firstTracklet == |AllTracklets(events[..k])|
      && t.firstTracklet + t.nTracklets <= |AllTracklets(events)|
      && AllTracklets(events)[t.firstTracklet..t.firstTracklet + t.nTracklets] == events[k].tracklets
    decreases |events|
  {
    var n := |events| - 1;
    var front := events[..n];
    LastTrigger(events);
    if k < n {
      assert front[k] == events[k] && front[..k] == events[..k];
      TriggerIndexesItsTracklets(front, k);
      var t := Triggers(front)[k];
      assert Triggers(events)[k] == t;
      assert AllTracklets(events)[t.firstTracklet..t.firstTracklet + t.nTracklets] == AllTracklets(front)[t.firstTracklet..t.firstTracklet + t.nTracklets];
    } else {
      assert events[..k] == front;
      var all := AllTracklets(events);
      assert all[|AllTracklets(front)|..] == events[n].tracklets;
    }
  }

  /** The integer counters of the time-frame statistics. */
  datatype TFStats = TFStats(nTriggersTotal: nat, nTriggersCalib: nat, trackletsFound: nat, digitsFound: nat)

  function ClearedStats(): TFStats
  {
    TFStats(0, 0, 0, 0)
  }

  /** The number of calibration-trigger records. */
  function CalibCount(events: seq<EventRecord>): (r: nat)
    ensures r <= |events|
  {
    if events == [] then 0
    else CalibCount(events[..|events| - 1]) + (if events[|events| - 1].isCalibTrigger then 1 else 0)
  }

  /** The statistics after accumulating the records onto `s`. */
  function Accumulated(s: TFStats, events: seq<EventRecord>): TFStats
  {
    TFStats(|events|, s.nTriggersCalib + CalibCount(events), s.trackletsFound + |AllTracklets(events)|, s.digitsFound + |AllDigits(events)|)
  }

  /** The words `addConfigEvent` appends for one configuration event: the
      length, the orbit, the four half-chamber headers, the length again, the
      payload `data[start..end)`, and the two end markers. The length is the
      32-bit difference `end - start`. */
  function ConfigEventWords(data: seq<nat>, start: nat, end: nat, headers: seq<nat>, ir: InteractionRecord, endA: nat, endB: nat): (r: seq<nat>)
    requires |headers| == 4
    requires start < end ==> end <= |data|
  {
    var length := (end - start) % 0x1_0000_0000;
    [length, ir.orbit] + headers + [length] + (if start < end then data[start..end] else []) + [endA, endB]
  }

  /** A configuration event read back from the words that follow its start:
      the orbit, the headers and the payload, and the words after it. */
  function ReadConfigEvent(words: seq<nat>, endA: nat, endB: nat): (r: Option<(nat, seq<nat>, seq<nat>, seq<nat>)>)
  {
    if |words| < 7 || words[0] != words[6] || |words| < 9 + words[0] then None
    else
      var n := words[0];
      if words[7 + n] != endA || words[8 + n] != endB then None
      else Some((words[1], words[2..6], words[7..7 + n], words[9 + n..]))
  }

  /** The words of a configuration event read back to its orbit, headers and
      payload, whatever follows them. */
  lemma ConfigEventRoundTrip(data: seq<nat>, start: nat, end: nat, headers: seq<nat>, ir: InteractionRecord, endA: nat, endB: nat, rest: seq<nat>)
    requires |headers| == 4 && start <= end < 0x1_0000_0000 && end <= |data|
    ensures var w := ConfigEventWords(data, start, end, headers, ir, endA, endB);
      |w| == 9 + (end - start)
      && ReadConfigEvent(w + rest, endA, endB) == Some((ir.orbit, headers, data[start..end], rest))
  {
    var w := ConfigEventWords(data, start, end, headers, ir, endA, endB);
    var n := end - start;
    assert |w| == 9 + n;
    var ws := w + rest;
    assert ws[0] == n && ws[6] == n && ws[1] == ir.orbit;
    assert ws[7 + n] == endA && ws[8 + n] == endB;
    assert ws[2..6] == headers;
    assert ws[7..7 + n] == data[start..end];
    assert ws[9 + n..] == rest;
  }

  datatype Option<T> = None | Some(value: T)

  /** What `sendData` hands to the framework. */
  datatype Outputs = Outputs(
    digits: seq<Digit>,
    tracklets: seq<Tracklet>,
    triggers: seq<TriggerRecord>,
    rawStats: Option<TFStats>,
    linkStats: Option<seq<LinkCounters>>,
    configEvents: Option<seq<nat>>)

  /** The link counters of the records, in order. */
  function CountersOf(events: seq<EventRecord>): (r: seq<LinkCounters>)
    ensures |r| == |events| && forall k :: 0 <= k < |events| ==> r[k] == events[k].counters
  {
    seq(|events|, k requires 0 <= k < |events| => events[k].counters)
  }

  // ---------------------------------------------------------------------------
  // The container

  class EventRecordContainer {
    var records: seq<EventRecord>
    /** The index of the record the reader is filling. */
    var current: int
    var stats: TFStats
    var configEventPresent: bool
    var configEventData: seq<nat>
    /** The two words that close a configuration event. */
    const endA: nat
    const endB: nat

    constructor(endA: nat, endB: nat)
      ensures records == [] && current == 0 && stats == ClearedStats()
      ensures !configEventPresent && configEventData == []
      ensures this.endA == endA && this.endB == endB
    {
      records, current, stats := [], 0, ClearedStats();
      configEventPresent, configEventData := false, [];
      this.endA, this.endB := endA, endB;
    }

    /** `setCurrentEventRecord`: the current record becomes the last one of
        the interaction `ir`; when there is none, a record for `ir` is added
        and becomes current. */
    method SetCurrentEventRecord(ir: InteractionRecord)
      modifies this
      ensures (exists k :: 0 <= k < |old(records)| && old(records)[k].bcData == ir) ==>
        records == old(records)
        && 0 <= current < |records| && records[current].bcData == ir
        && forall k :: current < k < |records| ==> records[k].bcData != ir
      ensures (forall k :: 0 <= k < |old(records)| ==> old(records)[k].bcData != ir) ==>
        records == old(records) + [NewRecord(ir)] && current == |records| - 1
      ensures stats == old(stats) && configEventPresent == old(configEventPresent) && configEventData == old(configEventData)
    {
      var found := false;
      var idx := 0;
      while idx < |records|
        invariant 0 <= idx <= |records|
        invariant found <==> exists k :: 0 <= k < idx && records[k].bcData == ir
        invariant found ==> 0 <= current < idx && records[current].bcData == ir
                            && forall k :: current < k < idx ==> records[k].bcData != ir
        invariant records == old(records) && stats == old(stats)
        invariant configEventPresent == old(configEventPresent) && configEventData == old(configEventData)
      {
        if records[idx].bcData == ir {
          current := idx;
          found := true;
        }
        idx := idx + 1;
      }
      if !found {
        records := records + [NewRecord(ir)];
        current := |records| - 1;
      }
    }

    /** `reset`: no records, cleared statistics, no configuration event. */
    method Reset()
      modifies this
      ensures records == [] && stats == ClearedStats() && !configEventPresent && configEventData == []
      ensures current == old(current)
    {
      records := [];
      stats := ClearedStats();
      configEventPresent := false;
      configEventData := [];
    }

    /** `addConfigEvent`: appends the words of one configuration event after
        the ones already there. */
    method AddConfigEvent(data: seq<nat>, start: nat, end: nat, configEventLength: nat, headers: seq<nat>, ir: InteractionRecord)
      requires |headers| == 4 && start < 0x1_0000_0000 && end < 0x1_0000_0000
      requires start < end ==> end <= |data|
      modifies this
      ensures configEventPresent
      ensures configEventData == old(configEventData) + ConfigEventWords(data, start, end, headers, ir, endA, endB)
      ensures records == old(records) && current == old(current) && stats == old(stats)
    {
      configEventPresent := true;
      var length := (end - start) % 0x1_0000_0000;
      configEventData := configEventData + [length, ir.orbit];
      var h := 0;
      while h < 4
        invariant 0 <= h <= 4
        invariant configEventData == old(configEventData) + [length, ir.orbit] + headers[..h]
        invariant configEventPresent && records == old(records) && current == old(current) && stats == old(stats)
      {
        configEventData := configEventData + [headers[h]];
        h := h + 1;
      }
      assert headers[..4] == headers;
      configEventData := configEventData + [length];
      ghost var head := configEventData;
      var datapos := start;
      while datapos < end
        invariant start < end ==> start <= datapos <= end
        invariant start >= end ==> datapos == start
        invariant configEventData == head + (if start < end then data[start..datapos] else [])
        invariant configEventPresent && records == old(records) && current == old(current) && stats == old(stats)
      {
        configEventData := configEventData + [data[datapos]];
        datapos := datapos + 1;
      }
      configEventData := configEventData + [endA, endB];
    }

    /** `accumulateStats` (integer counters): the trigger total becomes the
        number of records, and the tracklet, digit and calibration-trigger
        counts grow by those of the records. */
    method AccumulateStats()
      modifies this
      ensures stats == Accumulated(old(stats), records)
      ensures records == old(records) && current == old(current)
      ensures configEventPresent == old(configEventPresent) && configEventData == old(configEventData)
    {
      ghost var s0 := stats;
      stats := stats.(nTriggersTotal := |records|);
      var i := 0;
      while i < |records|
        invariant 0 <= i <= |records|
        invariant stats == Accumulated(s0, records[..i]).(nTriggersTotal := |records|)
        invariant records == old(records) && current == old(current)
        invariant configEventPresent == old(configEventPresent) && configEventData == old(configEventData)
      {
        assert records[..i + 1][..i] == records[..i];
        var event := records[i];
        stats := stats.(trackletsFound := stats.trackletsFound + |event.tracklets|,
                        digitsFound := stats.digitsFound + |event.digits|);
        if event.isCalibTrigger {
          stats := stats.(nTriggersCalib := stats.nTriggersCalib + 1);
        }
        i := i + 1;
      }
      assert records[..i] == records;
    }

    /** `sendData`: every record is sorted in place; the digits and tracklets
        go out as one vector each, record after record, with one trigger
        record per record pointing into them; the statistics, the link
        counters and the configuration events go out when asked for and
        present. */
    method SendData(generateStats: bool, sortDigits: bool, sendLinkStats: bool) returns (out: Outputs)
      modifies this
      ensures |records| == |old(records)|
      ensures forall k :: 0 <= k < |records| ==> SortedRecord(old(records)[k], records[k], sortDigits)
      ensures out.digits == AllDigits(records) && out.tracklets == AllTracklets(records) && out.triggers == Triggers(records)
      ensures generateStats ==> stats == Accumulated(old(stats), records) && out.rawStats == Some(stats)
      ensures !generateStats ==> stats == old(stats) && out.rawStats == None
      ensures out.linkStats == if sendLinkStats then Some(CountersOf(records)) else None
      ensures out.configEvents == if configEventPresent then Some(configEventData) else None
      ensures current == old(current) && configEventPresent == old(configEventPresent) && configEventData == old(configEventData)
    {
      var digits, tracklets, triggers, counters := SortAndCollect(sortDigits);
      var rawStats := None;
      if generateStats {
        AccumulateStats();
        rawStats := Some(stats);
      }
      out := Outputs(digits, tracklets, triggers, rawStats,
                     if sendLinkStats then Some(counters) else None,
                     if configEventPresent then Some(configEventData) else None);
    }

    /** The loop of `sendData`: sorts each record and collects its data, its
        trigger record and its link counters. */
    method SortAndCollect(sortDigits: bool) returns (digits: seq<Digit>, tracklets: seq<Tracklet>, triggers: seq<TriggerRecord>, counters: seq<LinkCounters>)
      modifies this
      ensures |records| == |old(records)|
      ensures forall k :: 0 <= k < |records| ==> SortedRecord(old(records)[k], records[k], sortDigits)
      ensures digits == AllDigits(records) && tracklets == AllTracklets(records)
      ensures triggers == Triggers(records) && counters == CountersOf(records)
      ensures stats == old(stats) && current == old(current)
      ensures configEventPresent == old(configEventPresent) && configEventData == old(configEventData)
    {
      var digitcount := 0;
      var trackletcount := 0;
      tracklets, digits, triggers, counters := [], [], [], [];
      var i := 0;
      while i < |records|
        invariant 0 <= i <= |records| && |records| == |old(records)|
        invariant forall k :: 0 <= k < i ==> SortedRecord(old(records)[k], records[k], sortDigits)
        invariant forall k :: i <= k < |records| ==> records[k] == old(records)[k]
        invariant tracklets == AllTracklets(records[..i]) && digits == AllDigits(records[..i])
        invariant triggers == Triggers(records[..i]) && counters == CountersOf(records[..i])
        invariant digitcount == |digits| && trackletcount == |tracklets|
        invariant stats == old(stats) && current == old(current)
        invariant configEventPresent == old(configEventPresent) && configEventData == old(configEventData)
      {
        var event := SortData(records[i], sortDigits);
        ghost var before := records;
        records := records[i := event];
        assert records[..i] == before[..i];
        CollectNext(records, i);
        tracklets := tracklets + event.tracklets;
        digits := digits + event.digits;
        triggers := triggers + [TriggerRecord(event.bcData, digitcount, |event.digits|, trackletcount, |event.tracklets|)];
        digitcount := digitcount + |event.digits|;
        trackletcount := trackletcount + |event.tracklets|;
        counters := counters + [event.counters];
        i := i + 1;
      }
      assert records[..i] == records;
    }
  }
}
