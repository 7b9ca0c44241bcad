/** `CTPRunManager`: the table of active runs, kept up to date by the periodic
    scaler records. A record marks the runs named among its first `nRuns`
    counters; every run left unmarked is stopped (its end time is set and its
    configuration is written to the conditions database, whose writes are kept
    here as a log), and then every mark is cleared. A run started since the
    last record is born marked, so it survives one record that does not name
    it. */
module CtpRunManager {
  import opened Text
  import opened CtpTypes
  import R3 = Run3Dialect
  import CC = CtpConfiguration

  const U32: nat := 0x1_0000_0000

  /** One active run: its start and end time, the configuration it was started
      with, the run number given to its scalers, and whether the current
      scaler record has named it. */
  datatype ActiveRun = ActiveRun(tmin: int, tmax: Option<int>, config: ConfigState, scalersRun: nat, inspected: bool)

  /** What `startRun` gives back: its return code, or the exception of the
      configuration parse that escapes it. */
  datatype StartResult = Returned(code: int) | Threw(why: R3.Failure)

  /** A configuration written to the conditions database, with its validity. */
  datatype StoredConfig = StoredConfig(run: nat, tmin: int, tmax: int, config: ConfigState)

  // ---------------------------------------------------------------------------
  // Run numbers in the order a `std::map` visits them

  lemma {:induction false} HasMax(s: set<nat>)
    requires s != {}
    ensures exists m :: m in s && forall x :: x in s ==> x <= m
    decreases s
  {
    var y :| y in s;
    var rest := s - {y};
    if rest == {} {
      assert s == {y};
      assert y in s && forall x :: x in s ==> x <= y;
    } else {
      HasMax(rest);
      var m :| m in rest && forall x :: x in rest ==> x <= m;
      var top := if y > m then y else m;
      forall x | x in s
        ensures x <= top
      {
        if x != y {
          assert x in rest;
        }
      }
      assert top in s && forall x :: x in s ==> x <= top;
    }
  }

  /** The largest run number of a non-empty set. */
  function MaxOf(s: set<nat>): (m: nat)
    requires s != {}
    ensures m in s && forall x :: x in s ==> x <= m
  {
    HasMax(s);
    var m :| m in s && forall x :: x in s ==> x <= m; m
  }

  /** The run numbers of a set in increasing order. */
  function Ascending(s: set<nat>): (r: seq<nat>)
    ensures |r| == |s|
    decreases s
  {
    if s == {} then []
    else
      var m := MaxOf(s);
      Ascending(s - {m}) + [m]
  }

  /** `Ascending` lists every run number of the set, and only those. */
  lemma {:induction false} AscendingMembers(s: set<nat>)
    ensures forall x :: x in Ascending(s) <==> x in s
    decreases s
  {
    if s != {} {
      var m := MaxOf(s);
      AscendingMembers(s - {m});
      assert Ascending(s) == Ascending(s - {m}) + [m];
    }
  }

  /** `Ascending` lists the run numbers smallest first, each once. */
  lemma {:induction false} AscendingIncreasing(s: set<nat>)
    ensures forall i, j :: 0 <= i < j < |Ascending(s)| ==> Ascending(s)[i] < Ascending(s)[j]
    decreases s
  {
    if s != {} {
      var m := MaxOf(s);
      var front := Ascending(s - {m});
      AscendingIncreasing(s - {m});
      AscendingMembers(s - {m});
      assert Ascending(s) == front + [m];
      forall i, j | 0 <= i < j < |Ascending(s)|
        ensures Ascending(s)[i] < Ascending(s)[j]
      {
        if j == |front| {
          assert front[i] in front;
        }
      }
    }
  }

  // ---------------------------------------------------------------------------
  // Specification of a scaler record

  /** The non-zero run numbers held in the first `nRuns` counters, each
      truncated to the 32 bits of a run number. */
  function Seen(counters: seq<nat>, nRuns: nat): set<nat>
  {
    set j | 0 <= j < nRuns && j < |counters| && counters[j] % U32 != 0 :: counters[j] % U32
  }

  /** The runs after the record has marked the ones it names as inspected. */
  function Marked(runs: map<nat, ActiveRun>, seen: set<nat>): (r: map<nat, ActiveRun>)
    ensures r.Keys == runs.Keys
  {
    map k | k in runs :: runs[k].(inspected := runs[k].inspected || k in seen)
  }

  /** A run after the sweep has visited it: it loses its mark, and is
      stopped at `now` if it had none. */
  function SweptRun(run: ActiveRun, now: int): ActiveRun
  {
    run.(inspected := false, tmax := if run.inspected then run.tmax else Some(now))
  }

  /** The runs after the sweep. */
  function Swept(marked: map<nat, ActiveRun>, now: int): (r: map<nat, ActiveRun>)
    ensures r.Keys == marked.Keys
  {
    map k | k in marked :: SweptRun(marked[k], now)
  }

  /** The runs after the sweep has visited the runs `keys`. */
  function SweptPrefix(runs: map<nat, ActiveRun>, keys: seq<nat>, now: int): (r: map<nat, ActiveRun>)
    ensures r.Keys == runs.Keys
  {
    if keys == [] then runs
    else
      var k := keys[|keys| - 1];
      var m := SweptPrefix(runs, keys[..|keys| - 1], now);
      if k in m then m[k := SweptRun(runs[k], now)] else m
  }

  /** After visiting `keys`, a visited run is swept and the others are as
      they were. */
  lemma {:induction false} SweptPrefixAt(runs: map<nat, ActiveRun>, keys: seq<nat>, now: int, k: nat)
    requires k in runs
    ensures SweptPrefix(runs, keys, now)[k] == if k in keys then SweptRun(runs[k], now) else runs[k]
  {
    if keys != [] {
      var n := |keys| - 1;
      SweptPrefixAt(runs, keys[..n], now, k);
      assert k in keys <==> k in keys[..n] || k == keys[n];
    }
  }

  /** What the conditions database receives when the run `k` is stopped at
      `now`. */
  function StoreOf(k: nat, run: ActiveRun, now: int): StoredConfig
  {
    StoredConfig(k, run.tmin, now, run.config)
  }

  /** What the sweep writes when it visits the run `k`. */
  function StopOf(marked: map<nat, ActiveRun>, k: nat, now: int): (r: seq<StoredConfig>)
    ensures |r| <= 1
  {
    if k in marked && !marked[k].inspected then [StoreOf(k, marked[k], now)] else []
  }

  /** The writes of a sweep visiting the runs `keys` in that order. */
  function Stops(marked: map<nat, ActiveRun>, keys: seq<nat>, now: int): (r: seq<StoredConfig>)
    ensures |r| <= |keys|
  {
    if keys == [] then []
    else Stops(marked, keys[..|keys| - 1], now) + StopOf(marked, keys[|keys| - 1], now)
  }

  /** A sweep writes only the configurations of the unmarked runs it
      visits, each with its validity ending `now`. */
  lemma {:induction false} StopsOnlyStopped(marked: map<nat, ActiveRun>, keys: seq<nat>, now: int)
    ensures forall s :: s in Stops(marked, keys, now) ==>
      s.run in keys && s.run in marked && !marked[s.run].inspected && s == StoreOf(s.run, marked[s.run], now)
  {
    if keys != [] {
      var n := |keys| - 1;
      StopsOnlyStopped(marked, keys[..n], now);
      assert forall x :: x in keys[..n] ==> x in keys;
    }
  }

  /** Every unmarked run a sweep visits has its configuration written. */
  lemma {:induction false} StopsWritesEachStopped(marked: map<nat, ActiveRun>, keys: seq<nat>, now: int)
    ensures forall k :: k in keys && k in marked && !marked[k].inspected ==> StoreOf(k, marked[k], now) in Stops(marked, keys, now)
  {
    if keys != [] {
      var n := |keys| - 1;
      var front := keys[..n];
      StopsWritesEachStopped(marked, front, now);
      assert keys == front + [keys[n]];
      assert Stops(marked, keys, now) == Stops(marked, front, now) + StopOf(marked, keys[n], now);
    }
  }

  /** A sweep visiting the runs in increasing order writes their
      configurations in run number order, each run at most once. */
  lemma {:induction false} StopsInRunOrder(marked: map<nat, ActiveRun>, keys: seq<nat>, now: int)
    requires forall i, j :: 0 <= i < j < |keys| ==> keys[i] < keys[j]
    ensures forall i, j :: 0 <= i < j < |Stops(marked, keys, now)| ==> Stops(marked, keys, now)[i].run < Stops(marked, keys, now)[j].run
  {
    if keys != [] {
      var n := |keys| - 1;
      var front := keys[..n];
      StopsInRunOrder(marked, front, now);
      StopsOnlyStopped(marked, front, now);
      var r0 := Stops(marked, front, now);
      var k := keys[n];
      var tail := StopOf(marked, k, now);
      var r := Stops(marked, keys, now);
      assert r == r0 + tail;
      forall i, j | 0 <= i < j < |r|
        ensures r[i].run < r[j].run
      {
        if j >= |r0| {
          assert r[i] == r0[i] && r0[i] in r0;
          var t :| 0 <= t < |front| && front[t] == r[i].run;
          assert keys[t] == front[t] && keys[t] < keys[n];
          assert r[j] == tail[0] && tail[0].run == k;
        } else {
          assert r[i] == r0[i] && r[j] == r0[j];
          assert r0[i].run < r0[j].run;
        }
      }
    }
  }


  /** What one scaler record does to the run table: a run named in the
      counters, or named in the record before, stays running and is no longer
      marked; any other run is stopped now; no run leaves the table. */
  lemma ScalerRecordOutcome(runs: map<nat, ActiveRun>, counters: seq<nat>, nRuns: nat, now: int)
    ensures var after := Swept(Marked(runs, Seen(counters, nRuns)), now);
      after.Keys == runs.Keys
      && forall k :: k in runs ==>
        after[k].inspected == false
        && after[k].config == runs[k].config && after[k].tmin == runs[k].tmin
        && (k in Seen(counters, nRuns) || runs[k].inspected ==> after[k].tmax == runs[k].tmax)
        && (k !in Seen(counters, nRuns) && !runs[k].inspected ==> after[k].tmax == Some(now))
  {
  }

  /** A run number held in one of the first `nRuns` counters is seen. */
  lemma SeenHolds(counters: seq<nat>, nRuns: nat, j: nat)
    requires j < nRuns && j < |counters| && counters[j] % U32 != 0
    ensures counters[j] % U32 in Seen(counters, nRuns)
  {
  }

  // ---------------------------------------------------------------------------
  // Scaler names

  /** The position a list of scaler names gives each name: the last index it
      is written at. */
  function Positions(names: seq<string>): (m: map<string, nat>)
    ensures m.Keys == set k | 0 <= k < |names| :: names[k]
  {
    if names == [] then map[]
    else
      var n := |names| - 1;
      Positions(names[..n])[names[n] := n]
  }

  /** The position of a name is an index holding it, and no later index holds
      it. */
  lemma {:induction false} PositionIsLast(names: seq<string>, s: string)
    requires s in Positions(names)
    ensures var p := Positions(names)[s]; p < |names| && names[p] == s && forall k :: p < k < |names| ==> names[k] != s
  {
    var n := |names| - 1;
    if names[n] != s {
      PositionIsLast(names[..n], s);
    }
  }

  // ---------------------------------------------------------------------------
  // The manager

  class CTPRunManager {
    /** The runs being followed, by run number. */
    var activeRuns: map<nat, ActiveRun>
    /** The run number `startRun` files a new run under. */
    var rr: nat
    /** The counters of the last scaler record; slot 0 is never written. */
    const counters: array<nat>
    const nCounters: nat
    const nRuns: nat
    /** The scaler names and the position of each. */
    const scalerNames: seq<string>
    var name2Position: map<string, nat>
    /** The detector registry the configurations are parsed with. */
    const reg: Registry
    /** The configurations written to the conditions database, in order. */
    var ccdbLog: seq<StoredConfig>

    ghost predicate Valid()
      reads this
    {
      counters.Length == nCounters + 1 && nRuns <= counters.Length
    }

    constructor(nCounters: nat, nRuns: nat, scalerNames: seq<string>, rr: nat, reg: Registry)
      requires nRuns <= nCounters + 1
      ensures Valid()
      ensures this.nCounters == nCounters && this.nRuns == nRuns && this.scalerNames == scalerNames
      ensures this.rr == rr && this.reg == reg
      ensures activeRuns == map[] && name2Position == map[] && ccdbLog == []
      ensures counters[..] == seq(nCounters + 1, _ => 0)
    {
      this.nCounters, this.nRuns, this.scalerNames, this.rr, this.reg := nCounters, nRuns, scalerNames, rr, reg;
      activeRuns, name2Position, ccdbLog := map[], map[], [];
      counters := new nat[nCounters + 1](_ => 0);
    }

    /** `startRun`: files a new run, started at `now`, under `rr` whatever
        `runnumber` says, with the configuration loaded from `config`
        (loaded as far as it goes) and both run numbers set to `rr`. An
        existing entry under `rr` is replaced. A parse that throws leaves
        `startRun` before the run is filed: the table is unchanged and the
        exception is the result. */
    method StartRun(runnumber: nat, config: string, now: int) returns (r: StartResult)
      modifies this
      ensures var load := R3.LoadConfigurationRun3(EmptyConfig(), config, reg);
        if load.Faulted? && R3.Throws(load.why) then
          r == Threw(load.why) && activeRuns == old(activeRuns)
        else
          r == Returned(0)
          && activeRuns == old(activeRuns)[rr := ActiveRun(now, None, load.cfg.(runNumber := rr), rr, true)]
      ensures rr == old(rr) && ccdbLog == old(ccdbLog) && name2Position == old(name2Position)
    {
      var runnumber := rr;
      ghost var load := R3.LoadConfigurationRun3(EmptyConfig(), config, reg);
      var thrown, loaded := LoadRunConfiguration(config, runnumber);
      assert rr == old(rr) && ccdbLog == old(ccdbLog) && name2Position == old(name2Position);
      if thrown.Some? {
        assert load.Faulted? && R3.Throws(load.why) && thrown.value == load.why;
        return Threw(thrown.value);
      }
      assert !(load.Faulted? && R3.Throws(load.why)) && loaded == load.cfg.(runNumber := rr);
      activeRuns := activeRuns[runnumber := ActiveRun(now, None, loaded, runnumber, true)];
      return Returned(0);
    }

    /** The configuration of a run being started: a fresh configuration
        loaded from `config` and stamped with `runnumber`, or the exception
        that loading throws before the stamp is applied. */
    method LoadRunConfiguration(config: string, runnumber: nat) returns (thrown: Option<R3.Failure>, loaded: ConfigState)
      ensures var load := R3.LoadConfigurationRun3(EmptyConfig(), config, reg);
        (thrown.Some? <==> load.Faulted? && R3.Throws(load.why))
        && (thrown.Some? ==> thrown.value == load.why)
        && (thrown.None? ==> loaded == load.cfg.(runNumber := runnumber))
    {
      var cfg := new CC.CTPConfiguration(reg);
      ghost var load := R3.LoadConfigurationRun3(EmptyConfig(), config, reg);
      var status := cfg.LoadConfigurationRun3(config);
      assert cfg.State() == load.cfg;
      assert load.Faulted? <==> status.Interrupted? && status.error.Crash?;
      if status.Interrupted? && status.error.Crash? && R3.Throws(status.error.why) {
        return Some(status.error.why), cfg.State();
      }
      cfg.SetRunNumber(runnumber);
      return None, cfg.State();
    }

    /** `stopRun`: sets the end time of a known run to `now` and writes its
        configuration to the conditions database; the run stays in the table.
        An unknown run is reported with 1. */
    method StopRun(runnumber: nat, now: int) returns (r: int)
      modifies this
      ensures runnumber in old(activeRuns) ==>
        r == 0
        && activeRuns == old(activeRuns)[runnumber := old(activeRuns)[runnumber].(tmax := Some(now))]
        && ccdbLog == old(ccdbLog) + [StoreOf(runnumber, old(activeRuns)[runnumber], now)]
      ensures runnumber !in old(activeRuns) ==> r == 1 && activeRuns == old(activeRuns) && ccdbLog == old(ccdbLog)
      ensures rr == old(rr) && name2Position == old(name2Position)
    {
      if runnumber !in activeRuns {
        return 1;
      }
      activeRuns := activeRuns[runnumber := activeRuns[runnumber].(tmax := Some(now))];
      var run := activeRuns[runnumber];
      ccdbLog := ccdbLog + [StoredConfig(runnumber, run.tmin, run.tmax.value, run.config)];
      return 0;
    }

    /** `processScalers`: a record of `nCounters` counters after a time stamp.
        A record with the wrong number of items is refused with 1 and changes
        nothing. Otherwise the counters are stored, the runs they name are
        marked, and the sweep stops every unmarked run in run number order and
        clears every mark. */
    method ProcessScalers(scalers: string, now: int) returns (r: int)
      requires Valid()
      requires var tokens := Tokenize(scalers, ' ');
        |tokens| == nCounters + 1 ==> forall i :: 1 <= i < |tokens| ==> ParseUnsigned(tokens[i], 10).Some?
      modifies this, counters
      ensures Valid() && rr == old(rr) && name2Position == old(name2Position)
      ensures |Tokenize(scalers, ' ')| != nCounters + 1 ==>
        r == 1 && activeRuns == old(activeRuns) && ccdbLog == old(ccdbLog) && counters[..] == old(counters[..])
      ensures var tokens := Tokenize(scalers, ' ');
        |tokens| == nCounters + 1 ==>
          r == 0
          && counters[0] == old(counters[0])
          && (forall i :: 1 <= i < |tokens| ==> counters[i] == ParseUnsigned(tokens[i], 10).value)
          && var marked := Marked(old(activeRuns), Seen(counters[..], nRuns));
             activeRuns == Swept(marked, now)
             && ccdbLog == old(ccdbLog) + Stops(marked, Ascending(marked.Keys), now)
    {
      var tokens := Tokenize(scalers, ' ');
      if |tokens| != nCounters + 1 {
        return 1;
      }
      StoreCounters(tokens);
      MarkRuns();
      Sweep(now);
      return 0;
    }

    /** The counter loop of `processScalers`: item `i` of the record is
        parsed into slot `i`. */
    method StoreCounters(tokens: seq<string>)
      requires Valid() && |tokens| == nCounters + 1
      requires forall i :: 1 <= i < |tokens| ==> ParseUnsigned(tokens[i], 10).Some?
      modifies counters
      ensures counters[0] == old(counters[0])
      ensures forall i :: 1 <= i < |tokens| ==> counters[i] == ParseUnsigned(tokens[i], 10).value
    {
      ghost var parsed := R3.ParseAll(tokens);
      var i := 1;
      while i < |tokens|
        invariant 1 <= i <= |tokens|
        invariant counters[0] == old(counters[0])
        invariant forall k :: 1 <= k < i ==> parsed[k].Some? && counters[k] == parsed[k].value
      {
        counters[i] := ParseUnsigned(tokens[i], 10).value;
        assert parsed[i] == ParseUnsigned(tokens[i], 10);
        i := i + 1;
      }
    }

    /** The marking loop of `processScalers`: every run named in the first
        `nRuns` counters is marked as inspected. */
    method MarkRuns()
      requires Valid()
      modifies this
      ensures activeRuns == Marked(old(activeRuns), Seen(counters[..], nRuns))
      ensures ccdbLog == old(ccdbLog) && rr == old(rr) && name2Position == old(name2Position)
    {
      var i := 0;
      while i < nRuns
        invariant 0 <= i <= nRuns
        invariant activeRuns == Marked(old(activeRuns), Seen(counters[..], i))
        invariant ccdbLog == old(ccdbLog) && rr == old(rr) && name2Position == old(name2Position)
      {
        var run := counters[i] % U32;
        if run > 0 && run in activeRuns {
          activeRuns := activeRuns[run := activeRuns[run].(inspected := true)];
        }
        MarkNext(old(activeRuns), counters[..], i);
        i := i + 1;
      }
    }

    /** The sweep of `processScalers`: the runs are visited in run number
        order; an unmarked one is stopped, a marked one loses its mark. */
    method Sweep(now: int)
      modifies this
      ensures activeRuns == Swept(old(activeRuns), now)
      ensures ccdbLog == old(ccdbLog) + Stops(old(activeRuns), Ascending(old(activeRuns).Keys), now)
      ensures rr == old(rr) && name2Position == old(name2Position)
    {
      var keys := Ascending(activeRuns.Keys);
      ghost var runs0 := activeRuns;
      ghost var log0 := ccdbLog;
      var i := 0;
      assert Stops(runs0, keys[..0], now) == [];
      assert forall j :: 0 <= j < |keys| ==> keys[j] in runs0 && keys[j] !in keys[..j] by {
        AscendingMembers(runs0.Keys);
        AscendingIncreasing(runs0.Keys);
      }
      while i < |keys|
        invariant 0 <= i <= |keys|
        invariant activeRuns == SweptPrefix(runs0, keys[..i], now)
        invariant ccdbLog == log0 + Stops(runs0, keys[..i], now)
        invariant rr == old(rr) && name2Position == old(name2Position)
      {
        var run := keys[i];
        SweepNext(runs0, keys, i, now);
        ghost var log := ccdbLog;
        ghost var done := Stops(runs0, keys[..i], now);
        SweepRun(run, now);
        assert ccdbLog == log + StopOf(runs0, run, now);
        AppendLog(log0, done, StopOf(runs0, run, now));
        i := i + 1;
      }
      assert keys[..i] == keys;
      SweptAll(runs0, now);
    }

    /** One step of the sweep: an unmarked run is stopped, a marked one loses
        its mark. */
    method SweepRun(run: nat, now: int)
      requires run in activeRuns
      modifies this
      ensures activeRuns == old(activeRuns)[run := SweptRun(old(activeRuns)[run], now)]
      ensures ccdbLog == old(ccdbLog) + StopOf(old(activeRuns), run, now)
      ensures rr == old(rr) && name2Position == old(name2Position)
    {
      if !activeRuns[run].inspected {
        var stopped := StopRun(run, now);
      } else {
        activeRuns := activeRuns[run := activeRuns[run].(inspected := false)];
      }
    }

    /** `loadScalerNames`: a name list whose length is not `nCounters` is a
        fatal error, reported as 1 with nothing changed; otherwise every name
        is filed under its position, the later of two equal names winning,
        on top of the positions already known. */
    method LoadScalerNames() returns (r: int)
      modifies this
      ensures nCounters != |scalerNames| ==> r == 1 && name2Position == old(name2Position)
      ensures nCounters == |scalerNames| ==> r == 0 && name2Position == old(name2Position) + Positions(scalerNames)
      ensures activeRuns == old(activeRuns) && ccdbLog == old(ccdbLog) && rr == old(rr)
    {
      if nCounters != |scalerNames| {
        return 1;
      }
      var i := 0;
      while i < |scalerNames|
        invariant 0 <= i <= |scalerNames|
        invariant name2Position == old(name2Position) + Positions(scalerNames[..i])
        invariant activeRuns == old(activeRuns) && ccdbLog == old(ccdbLog) && rr == old(rr)
      {
        PositionsNext(old(name2Position), scalerNames, i);
        name2Position := name2Position[scalerNames[i] := i];
        i := i + 1;
      }
      assert scalerNames[..i] == scalerNames;
      return 0;
    }
  }

  /** Filing one more name on top of earlier positions. */
  lemma PositionsNext(known: map<string, nat>, names: seq<string>, i: nat)
    requires i < |names|
    ensures known + Positions(names[..i + 1]) == (known + Positions(names[..i]))[names[i] := i]
  {
    assert names[..i + 1][..i] == names[..i];
  }

  /** A sweep that has visited every run has swept the whole table. */
  lemma SweptAll(runs: map<nat, ActiveRun>, now: int)
    ensures SweptPrefix(runs, Ascending(runs.Keys), now) == Swept(runs, now)
  {
    var keys := Ascending(runs.Keys);
    var a := SweptPrefix(runs, keys, now);
    var b := Swept(runs, now);
    AscendingMembers(runs.Keys);
    assert a.Keys == b.Keys;
    forall k | k in runs
      ensures a[k] == b[k]
    {
      SweptPrefixAt(runs, keys, now, k);
      assert k in keys;
    }
  }

  lemma AppendLog(log: seq<StoredConfig>, done: seq<StoredConfig>, more: seq<StoredConfig>)
    ensures (log + done) + more == log + (done + more)
  {
  }

  /** A sweep visiting one more run, not visited before. */
  lemma SweepNext(runs: map<nat, ActiveRun>, keys: seq<nat>, i: nat, now: int)
    requires i < |keys| && keys[i] in runs && keys[i] !in keys[..i]
    ensures var before := SweptPrefix(runs, keys[..i], now);
      before[keys[i]] == runs[keys[i]]
      && SweptPrefix(runs, keys[..i + 1], now) == before[keys[i] := SweptRun(before[keys[i]], now)]
      && StopOf(before, keys[i], now) == StopOf(runs, keys[i], now)
      && Stops(runs, keys[..i + 1], now) == Stops(runs, keys[..i], now) + StopOf(runs, keys[i], now)
  {
    assert keys[..i + 1][..i] == keys[..i];
    SweptPrefixAt(runs, keys[..i], now, keys[i]);
  }

  /** Marking with one more counter adds the run it names, if any. */
  lemma MarkNext(runs: map<nat, ActiveRun>, counters: seq<nat>, i: nat)
    requires i < |counters|
    ensures var run := counters[i] % U32;
      Marked(runs, Seen(counters, i + 1))
        == if run > 0 && run in Marked(runs, Seen(counters, i)) then Marked(runs, Seen(counters, i))[run := Marked(runs, Seen(counters, i))[run].(inspected := true)]
           else Marked(runs, Seen(counters, i))
  {
    var run := counters[i] % U32;
    assert Seen(counters, i + 1) == Seen(counters, i) + (if run != 0 then {run} else {});
  }
}
