/** `CTPConfiguration`: the trigger configuration object. Its entity lists are
    fields that the parsers and the `add*` methods append to; the queries scan
    them. Every method is proved against the value-level specification: the
    parsers against the dialect functions, the queries against the functions of
    `CtpQueries`. */
module CtpConfiguration {
  import opened Text
  import opened CtpTypes
  import opened CtpQueries
  import HD = HeaderDialect
  import R3 = Run3Dialect

  /** What processing one line reports: continue at a level, return a
      non-zero value (the level), or fail. */
  datatype LineStatus<L, E> = Continue(level: L) | Halt(level: L) | Fail(error: E)

  /** What loading a whole text reports: done, or interrupted on a line. */
  datatype LoadStatus<E> = Complete | Interrupted(error: E, line: nat)

  /** Why a load in the inferred-section dialect was interrupted. */
  datatype Run3Halt = NonZero(level: R3.Level3) | Crash(why: R3.Failure)

  /** The configuration after a header-dialect line, and the status reported,
      agree with the dialect's step function. */
  ghost predicate HeaderOutcome(step: HD.HeaderStep, before: ConfigState, after: ConfigState, res: LineStatus<int, HD.Fatal>)
  {
    match step
    case Next(c, l) => after == c && res == Continue(l)
    case Abort(why) => after == before && res == Fail(why)
  }

  /** The same for a line of the inferred-section dialect. */
  ghost predicate Run3Outcome(step: R3.Run3Step, before: ConfigState, after: ConfigState, res: LineStatus<R3.Level3, R3.Failure>)
  {
    match step
    case Next(c, l) => after == c && res == Continue(l)
    case Stop(l) => after == before && res == Halt(l)
    case Fault(why) => after == before && res == Fail(why)
  }

  class CTPConfiguration {
    var name: string
    var version: string
    var runNumber: nat
    var bcMasks: seq<BCMask>
    var inputs: seq<CTPInput>
    var descriptors: seq<CTPDescriptor>
    var detectors: seq<CTPDetector>
    var clusters: seq<CTPCluster>
    var classes: seq<CTPClass>
    /** The detector registry the parsers resolve names with. */
    const reg: Registry

    /** The configuration as a value. */
    function State(): ConfigState
      reads this
    {
      ConfigState(name, version, runNumber, bcMasks, inputs, descriptors, detectors, clusters, classes)
    }

    constructor(reg: Registry)
      ensures State() == EmptyConfig() && this.reg == reg
    {
      name, version, runNumber := "", "", 0;
      bcMasks, inputs, descriptors, detectors, clusters, classes := [], [], [], [], [], [];
      this.reg := reg;
    }

    // -------------------------------------------------------------------------
    // Appenders

    /** `setRunNumber`: records the run the configuration belongs to. */
    method SetRunNumber(n: nat)
      modifies this
      ensures State() == old(State()).(runNumber := n)
    {
      runNumber := n;
    }

    method AddBCMask(m: BCMask)
      modifies this
      ensures State() == old(State()).(bcMasks := old(bcMasks) + [m])
    {
      bcMasks := bcMasks + [m];
    }

    method AddCTPInput(input: CTPInput)
      modifies this
      ensures State() == old(State()).(inputs := old(inputs) + [input])
    {
      inputs := inputs + [input];
    }

    method AddCTPDescriptor(descriptor: CTPDescriptor)
      modifies this
      ensures State() == old(State()).(descriptors := old(descriptors) + [descriptor])
    {
      descriptors := descriptors + [descriptor];
    }

    method AddCTPDetector(detector: CTPDetector)
      modifies this
      ensures State() == old(State()).(detectors := old(detectors) + [detector])
    {
      detectors := detectors + [detector];
    }

    method AddCTPCluster(cluster: CTPCluster)
      modifies this
      ensures State() == old(State()).(clusters := old(clusters) + [cluster])
    {
      clusters := clusters + [cluster];
    }

    method AddCTPClass(ctpclass: CTPClass)
      modifies this
      ensures State() == old(State()).(classes := old(classes) + [ctpclass])
    {
      classes := classes + [ctpclass];
    }

    // -------------------------------------------------------------------------
    // Case conversion

    /** `capitaliseString`: upper-cases the characters in place. */
    static method CapitaliseString(str: array<char>)
      modifies str
      ensures str[..] == UpperString(old(str[..]))
    {
      UpperStringAt(str[..]);
      var i := 0;
      while i < str.Length
        invariant 0 <= i <= str.Length
        invariant forall k :: 0 <= k < i ==> str[k] == ToUpper(old(str[k]))
        invariant forall k :: i <= k < str.Length ==> str[k] == old(str[k])
      {
        str[i] := ToUpper(str[i]);
        i := i + 1;
      }
    }

    /** A capitalised copy of a detector name, as the parsers make it. */
    static method Capitalised(s: string) returns (r: string)
      ensures r == UpperString(s)
    {
      var a := new char[|s|](k requires 0 <= k < |s| => s[k]);
      assert a[..] == s;
      CapitaliseString(a);
      r := a[..];
    }

    // -------------------------------------------------------------------------
    // Queries

    /** `getInputMask`: the mask of the first input with that name, empty if
        there is none. */
    method GetInputMask(inpname: string) returns (mask: Mask)
      ensures mask == InputMaskOf(inputs, inpname)
      ensures (forall k :: 0 <= k < |inputs| ==> inputs[k].name != inpname) ==> mask == {}
    {
      var i := 0;
      while i < |inputs|
        invariant 0 <= i <= |inputs|
        invariant forall k :: 0 <= k < i ==> inputs[k].name != inpname
      {
        if inputs[i].name == inpname {
          return inputs[i].inputMask;
        }
        i := i + 1;
      }
      return {};
    }

    /** `isMaskInInputs`: some input has exactly this mask. */
    method IsMaskInInputs(mask: Mask) returns (found: bool)
      ensures found <==> exists k :: 0 <= k < |inputs| && inputs[k].inputMask == mask
    {
      var i := 0;
      while i < |inputs|
        invariant 0 <= i <= |inputs|
        invariant forall k :: 0 <= k < i ==> inputs[k].inputMask != mask
      {
        if inputs[i].inputMask == mask {
          return true;
        }
        i := i + 1;
      }
      return false;
    }

    /** `isBCMaskInConfig`: some BC mask has this name. */
    method IsBCMaskInConfig(maskname: string) returns (found: bool)
      ensures found <==> maskname in Names(bcMasks, BCMaskName)
    {
      var i := 0;
      while i < |bcMasks|
        invariant 0 <= i <= |bcMasks|
        invariant forall k :: 0 <= k < i ==> bcMasks[k].name != maskname
      {
        if bcMasks[i].name == maskname {
          assert Names(bcMasks, BCMaskName)[i] == maskname;
          return true;
        }
        i := i + 1;
      }
      return false;
    }

    /** `isInputInConfig`: the position of the first input with that name (the
        code returns a pointer to it), or none. */
    method IsInputInConfig(inpname: string) returns (r: Option<nat>)
      ensures r == FindInput(inputs, inpname)
    {
      var i := 0;
      while i < |inputs|
        invariant 0 <= i <= |inputs|
        invariant forall k :: 0 <= k < i ==> inputs[k].name != inpname
      {
        if inputs[i].name == inpname {
          return Some(i);
        }
        i := i + 1;
      }
      return None;
    }

    /** `CTPDescriptor::getInputsMask`: the OR of the masks of the inputs the
        descriptor refers to. */
    method DescriptorInputsMask(desc: CTPDescriptor) returns (mask: Mask)
      requires forall k :: 0 <= k < |desc.inputs| ==> desc.inputs[k] < |inputs|
      ensures mask == InputsMask(inputs, desc.inputs)
    {
      mask := {};
      var i := 0;
      while i < |desc.inputs|
        invariant 0 <= i <= |desc.inputs|
        invariant mask == InputsMask(inputs, desc.inputs[..i])
      {
        assert desc.inputs[..i + 1][..i] == desc.inputs[..i];
        mask := mask + inputs[desc.inputs[i]].inputMask;
        i := i + 1;
      }
      assert desc.inputs[..i] == desc.inputs;
    }

    /** `getDecrtiptorInputsMask`: the inputs mask of the first descriptor with
        that name, or the all-ones sentinel 0xffffffff. */
    method GetDecrtiptorInputsMask(descname: string) returns (mask: Mask)
      requires DescriptorsResolve(State())
      ensures mask == DescriptorInputsMaskOf(State(), descname)
    {
      var i := 0;
      while i < |descriptors|
        invariant 0 <= i <= |descriptors|
        invariant forall k :: 0 <= k < i ==> descriptors[k].name != descname
      {
        if descriptors[i].name == descname {
          assert FindDescriptor(descriptors, descname) == Some(i);
          assert descriptors[i] in State().descriptors;
          mask := DescriptorInputsMask(descriptors[i]);
          return;
        }
        i := i + 1;
      }
      return UnknownDescriptorMask();
    }

    /** `getDet2InputMap`: the inputs grouped by detector id. */
    method GetDet2InputMap() returns (det2inp: map<int, seq<CTPInput>>)
      ensures det2inp == Det2InputMap(inputs)
    {
      det2inp := map[];
      var i := 0;
      while i < |inputs|
        invariant 0 <= i <= |inputs|
        invariant det2inp == Det2InputMap(inputs[..i])
      {
        var inp := inputs[i];
        assert inputs[..i + 1][..i] == inputs[..i];
        var sofar := if inp.detID in det2inp then det2inp[inp.detID] else [];
        det2inp := det2inp[inp.detID := sofar + [inp]];
        i := i + 1;
      }
      assert inputs[..i] == inputs;
    }

    /** `getTriggerClassMask`: the OR of all class masks. */
    method GetTriggerClassMask() returns (clsmask: Mask)
      ensures clsmask == ClassMask(classes)
    {
      clsmask := {};
      var i := 0;
      while i < |classes|
        invariant 0 <= i <= |classes|
        invariant clsmask == ClassMask(classes[..i])
      {
        assert classes[..i + 1][..i] == classes[..i];
        clsmask := clsmask + classes[i].classMask;
        i := i + 1;
      }
      assert classes[..i] == classes;
    }

    /** `getTriggerClassList`: the positions, below 64, of the bits set in the
        class mask, in increasing order. */
    method GetTriggerClassList() returns (classlist: seq<int>)
      ensures forall j, k :: 0 <= j < k < |classlist| ==> classlist[j] < classlist[k]
      ensures forall k :: 0 <= k < |classlist| ==> 0 <= classlist[k] < 64 && classlist[k] in ClassMask(classes)
      ensures forall b :: 0 <= b < 64 && b in ClassMask(classes) ==> b in classlist
    {
      var clsmask := GetTriggerClassMask();
      classlist := [];
      var i := 0;
      while i < 64
        invariant 0 <= i <= 64
        invariant forall j, k :: 0 <= j < k < |classlist| ==> classlist[j] < classlist[k]
        invariant forall k :: 0 <= k < |classlist| ==> 0 <= classlist[k] < i && classlist[k] in clsmask
        invariant forall b :: 0 <= b < i && b in clsmask ==> b in classlist
      {
        if i in clsmask {
          classlist := classlist + [i];
        }
        i := i + 1;
      }
    }

    // -------------------------------------------------------------------------
    // The explicit-header dialect

    method ProcessInputsLine(tokens: seq<string>) returns (res: LineStatus<int, HD.Fatal>)
      modifies this
      ensures HeaderOutcome(HD.InputsLine(old(State()), tokens, reg), old(State()), State(), res)
    {
      if |tokens| != 4 {
        return Fail(HD.InputsItemCount);
      }
      var detID := reg.resolve(tokens[1]).id;
      var mask := ParseUnsigned(tokens[3], 0);
      if mask.None? {
        return Fail(HD.InputsMaskSyntax);
      }
      AddCTPInput(CTPInput(tokens[0], detID, tokens[2], BitsOf(mask.value)));
      return Continue(1);
    }

    method ProcessDescriptorsLine(tokens: seq<string>) returns (res: LineStatus<int, HD.Fatal>)
      requires tokens != []
      modifies this
      ensures HeaderOutcome(HD.DescriptorsLine(old(State()), tokens), old(State()), State(), res)
    {
      var resolved := ResolveItems(tokens[1..]);
      if resolved.Missing? {
        return Fail(HD.InputNotDefined(resolved.item));
      }
      AddCTPDescriptor(CTPDescriptor(tokens[0], resolved.refs));
      return Continue(3);
    }

    /** The item loop of a descriptor line: each name is looked up among the
        inputs, and the first unknown one ends the loop. */
    method ResolveItems(items: seq<string>) returns (r: HD.Resolved)
      ensures r == HD.ResolveInputs(inputs, items)
    {
      var refs: seq<nat> := [];
      var i := 0;
      while i < |items|
        invariant 0 <= i <= |items|
        invariant HD.ResolveInputs(inputs, items[..i]) == HD.AllFound(refs)
      {
        assert items[..i + 1][..i] == items[..i];
        var inp := IsInputInConfig(items[i]);
        if inp.None? {
          ResolveStopsAtMissing(inputs, items, i);
          return HD.Missing(items[i]);
        }
        refs := refs + [inp.value];
        i := i + 1;
      }
      assert items[..i] == items;
      return HD.AllFound(refs);
    }

    method ProcessClustersLine(tokens: seq<string>) returns (res: LineStatus<int, HD.Fatal>)
      requires tokens != []
      modifies this
      ensures HeaderOutcome(HD.ClustersLine(old(State()), tokens, reg), old(State()), State(), res)
    {
      var items := tokens[1..];
      var mask: Mask := {};
      var i := 0;
      while i < |items|
        invariant 0 <= i <= |items|
        invariant mask == DetectorsMask(reg, items[..i], false)
        invariant unchanged(this)
      {
        assert items[..i + 1][..i] == items[..i];
        mask := mask + reg.resolve(items[i]).mask;
        i := i + 1;
      }
      assert items[..i] == items;
      AddCTPCluster(CTPCluster(tokens[0], {}, mask));
      return Continue(4);
    }

    method ProcessClassesLine(tokens: seq<string>) returns (res: LineStatus<int, HD.Fatal>)
      modifies this
      ensures HeaderOutcome(HD.ClassesLine(old(State()), tokens), old(State()), State(), res)
    {
      if |tokens| != 4 {
        return Fail(HD.ClassesItemCount);
      }
      var mask := ParseUnsigned(tokens[1], 10);
      if mask.None? {
        return Fail(HD.ClassesMaskSyntax);
      }
      if FindDescriptor(descriptors, tokens[2]).None? {
        return Fail(HD.DescriptorNotFound(tokens[2]));
      }
      if FindCluster(clusters, tokens[3]).None? {
        return Fail(HD.ClusterNotFound(tokens[3]));
      }
      AddCTPClass(CTPClass(tokens[0], BitsOf(mask.value)));
      return Continue(7);
    }

    /** `processConfigurationLine`. */
    method ProcessConfigurationLine(line: string, level: int) returns (res: LineStatus<int, HD.Fatal>)
      modifies this
      ensures HeaderOutcome(HD.StepHeader(old(State()), level, line, reg), old(State()), State(), res)
    {
      if line == [] || line[0] == '#' {
        return Continue(level);
      }
      var header := HD.HeaderIndex(line, 0);
      if header.Some? {
        var k := header.value;
        var at := Find(line, HD.HeaderKeywords[k]).value;
        if k == 0 {
          name := HD.EraseTrim(line, at, 10);
          return Continue(level);
        } else if k == 1 {
          version := HD.EraseTrim(line, at, 8);
          return Continue(level);
        }
        return Continue(HD.SectionLevels[k - 2]);
      }
      var tokens := Tokenize(line, ' ');
      if tokens == [] {
        return Continue(level);
      }
      if level == 1 {
        res := ProcessInputsLine(tokens);
      } else if level == 3 {
        res := ProcessDescriptorsLine(tokens);
      } else if level == 4 {
        res := ProcessClustersLine(tokens);
      } else if level == 7 {
        res := ProcessClassesLine(tokens);
      } else {
        res := Fail(HD.UnknownLevel(level));
      }
    }

    /** `loadConfiguration`: every line of the text, trimmed, from level 0 on,
        until a line aborts. */
    method LoadConfiguration(text: string) returns (status: LoadStatus<HD.Fatal>)
      modifies this
      ensures var r := HD.LoadConfiguration(old(State()), text, reg);
        State() == r.cfg
        && (r.Loaded? ==> status == Complete)
        && (r.Aborted? ==> status == Interrupted(r.reason, r.line))
    {
      var lines := Lines(text);
      var level := 0;
      var i := 0;
      while i < |lines|
        invariant 0 <= i <= |lines|
        invariant HD.LoadLines(State(), level, lines, i, reg) == HD.LoadConfiguration(old(State()), text, reg)
      {
        ghost var before := State();
        var res := ProcessConfigurationLine(Trim(lines[i]), level);
        if res.Fail? {
          HD.LoadLinesAbort(before, level, lines, i, reg);
          return Interrupted(res.error, i);
        }
        HD.LoadLinesNext(before, level, lines, i, reg);
        level := res.level;
        i := i + 1;
      }
      return Complete;
    }

    // -------------------------------------------------------------------------
    // The inferred-section dialect

    method ProcessMasksLine(tokens: seq<string>) returns (res: LineStatus<R3.Level3, R3.Failure>)
      modifies this
      ensures Run3Outcome(R3.MasksLine(old(State()), tokens), old(State()), State(), res)
    {
      if |tokens| < 3 {
        return Fail(R3.MissingItem(3));
      }
      var bcs: set<nat> := {};
      if !R3.CompactNotation(tokens[2]) {
        var bunches := MaskBunches(tokens[2..]);
        if bunches.OutOfRange? {
          return Fail(R3.BunchOutOfRange(bunches.bc));
        }
        bcs := bunches.bcs;
      }
      AddBCMask(BCMask(tokens[1], bcs));
      return Continue(R3.MASKS);
    }

    /** The item loop of a list-of-integers mask line: each item that parses
        sets the bit of its crossing, and the first crossing outside the orbit
        ends the loop. */
    static method MaskBunches(items: seq<string>) returns (r: R3.Bunches)
      ensures r == R3.BunchesOf(R3.ParseAll(items))
    {
      var bcs: set<nat> := {};
      ghost var vals := R3.ParseAll(items);
      var i := 0;
      while i < |items|
        invariant 0 <= i <= |items|
        invariant R3.BunchesOf(vals[..i]) == R3.Bunches(bcs)
      {
        assert vals[..i + 1][..i] == vals[..i];
        var v := ParseUnsigned(items[i], 10);
        assert vals[i] == v;
        if v.Some? {
          var bc := v.value % 0x1_0000_0000;
          if bc >= MaxBunches {
            BunchesStopAtOutOfRange(vals, i);
            return R3.OutOfRange(bc);
          }
          bcs := bcs + {bc};
        }
        i := i + 1;
      }
      assert vals[..i] == vals;
      return R3.Bunches(bcs);
    }

    method ProcessLtgLine(tokens: seq<string>) returns (res: LineStatus<R3.Level3, R3.Failure>)
      modifies this
      ensures Run3Outcome(R3.LtgLine(old(State()), tokens, reg), old(State()), State(), res)
    {
      if |tokens| < 2 {
        return Fail(R3.MissingItem(2));
      }
      var detname := Capitalised(tokens[1]);
      var id := reg.resolve(detname).id;
      var detID := if IsDetector(id, reg) then Some(id) else None;
      AddCTPDetector(CTPDetector(detID, ""));
      return Continue(R3.LTGitems);
    }

    method ProcessLtgItemLine(tokens: seq<string>) returns (res: LineStatus<R3.Level3, R3.Failure>)
      modifies this
      ensures Run3Outcome(R3.LtgItemLine(old(State()), tokens), old(State()), State(), res)
    {
      if |tokens| == 1 {
        if detectors == [] {
          return Fail(R3.NoDetector);
        }
        var n := |detectors| - 1;
        detectors := detectors[n := detectors[n].(mode := tokens[0])];
        assert detectors == old(detectors)[..n] + [old(detectors)[n].(mode := tokens[0])];
      }
      return Continue(R3.LTGitems);
    }

    method ProcessClusterLine(tokens: seq<string>) returns (res: LineStatus<R3.Level3, R3.Failure>)
      requires tokens != []
      modifies this
      ensures Run3Outcome(R3.ClusterLine(old(State()), tokens, reg), old(State()), State(), res)
    {
      var hw := ParseUnsigned(tokens[0], 10);
      if hw.None? {
        return Halt(R3.CLUSTER);
      }
      if |tokens| < 3 {
        return Fail(R3.MissingItem(3));
      }
      var items := tokens[3..];
      var mask: Mask := {};
      var i := 0;
      while i < |items|
        invariant 0 <= i <= |items|
        invariant mask == DetectorsMask(reg, items[..i], true)
        invariant unchanged(this)
      {
        assert items[..i + 1][..i] == items[..i];
        var detname := Capitalised(items[i]);
        mask := mask + reg.resolve(detname).mask;
        i := i + 1;
      }
      assert items[..i] == items;
      AddCTPCluster(CTPCluster(tokens[2], BitsOf(hw.value), mask));
      return Continue(R3.CLASS);
    }

    /** The switch of `processConfigurationLineRun3` on the inferred level. */
    method Run3Act(level: R3.Level3, tokens: seq<string>) returns (res: LineStatus<R3.Level3, R3.Failure>)
      requires tokens != []
      modifies this
      ensures Run3Outcome(R3.Act(old(State()), level, tokens, reg), old(State()), State(), res)
    {
      match level
      case RUN =>
        if |tokens| < 2 {
          return Fail(R3.MissingItem(2));
        }
        var run := ParseUnsigned(tokens[1], 10);
        if run.None? {
          return Fail(R3.RunNumberSyntax);
        }
        runNumber := run.value % 0x1_0000_0000;
        return Continue(R3.RUN);
      case MASKS => res := ProcessMasksLine(tokens);
      case GENS =>
        if |tokens| < 2 {
          return Fail(R3.MissingItem(2));
        }
        return Continue(R3.GENS);
      case LTG => res := ProcessLtgLine(tokens);
      case LTGitems => res := ProcessLtgItemLine(tokens);
      case CLUSTER => res := ProcessClusterLine(tokens);
      case CLASS =>
        if ParseUnsigned(tokens[0], 10).None? {
          return Halt(R3.CLASS);
        }
        return Continue(R3.CLASS);
      case UNKNOWN => return Continue(R3.UNKNOWN);
    }

    /** `processConfigurationLineRun3`. */
    method ProcessConfigurationLineRun3(line: string, level: R3.Level3) returns (res: LineStatus<R3.Level3, R3.Failure>)
      modifies this
      ensures Run3Outcome(R3.StepRun3(old(State()), level, line, reg), old(State()), State(), res)
    {
      if line == [] || line[0] == '#' {
        return Continue(level);
      }
      var tokens := Tokenize(line, ' ');
      if tokens == [] {
        return Continue(level);
      }
      var inferred := R3.InferLevel(line, tokens, level);
      res := Run3Act(inferred, tokens);
    }

    /** `loadConfigurationRun3`: add the seed class, then every line of the
        text, trimmed, from level MASKS on, until a line returns non-zero. */
    method LoadConfigurationRun3(text: string) returns (status: LoadStatus<Run3Halt>)
      modifies this
      ensures var r := R3.LoadConfigurationRun3(old(State()), text, reg);
        State() == r.cfg
        && (r.Loaded? ==> status == Complete)
        && (r.Stopped? ==> status == Interrupted(NonZero(r.level), r.line))
        && (r.Faulted? ==> status == Interrupted(Crash(r.why), r.line))
    {
      AddCTPClass(R3.SeedClass());
      var lines := Lines(text);
      var level := R3.MASKS;
      assert R3.LoadRun3Lines(State(), level, lines, 0, reg) == R3.LoadConfigurationRun3(old(State()), text, reg);
      var i := 0;
      while i < |lines|
        invariant 0 <= i <= |lines|
        invariant R3.LoadRun3Lines(State(), level, lines, i, reg) == R3.LoadConfigurationRun3(old(State()), text, reg)
      {
        ghost var before := State();
        var res := ProcessConfigurationLineRun3(Trim(lines[i]), level);
        R3.LoadRun3LinesStep(before, level, lines, i, reg);
        if res.Halt? {
          return Interrupted(NonZero(res.level), i);
        } else if res.Fail? {
          return Interrupted(Crash(res.error), i);
        }
        level := res.level;
        i := i + 1;
      }
      return Complete;
    }
  }

  // ---------------------------------------------------------------------------
  // Facts the parsing loops use

  /** Resolution of a descriptor's items reports the first undefined one. */
  lemma {:induction false} ResolveStopsAtMissing(inputs: seq<CTPInput>, items: seq<string>, i: nat)
    requires i < |items|
    requires HD.ResolveInputs(inputs, items[..i]).AllFound?
    requires FindInput(inputs, items[i]).None?
    ensures HD.ResolveInputs(inputs, items) == HD.Missing(items[i])
    decreases |items|
  {
    if i + 1 == |items| {
      assert items[..|items| - 1] == items[..i];
    } else {
      var front := items[..|items| - 1];
      assert front[..i] == items[..i];
      ResolveStopsAtMissing(inputs, front, i);
    }
  }

  /** Setting the bunch crossings fails at the first one outside the orbit. */
  lemma {:induction false} BunchesStopAtOutOfRange(vals: seq<Option<nat>>, i: nat)
    requires i < |vals|
    requires R3.BunchesOf(vals[..i]).Bunches?
    requires vals[i].Some? && R3.Crossing(vals[i].value) >= MaxBunches
    ensures R3.BunchesOf(vals) == R3.OutOfRange(R3.Crossing(vals[i].value))
    decreases |vals|
  {
    if i + 1 == |vals| {
      assert vals[..|vals| - 1] == vals[..i];
    } else {
      var front := vals[..|vals| - 1];
      assert front[..i] == vals[..i];
      BunchesStopAtOutOfRange(front, i);
    }
  }
}
