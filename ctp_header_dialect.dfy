/** The explicit-header configuration dialect (`loadConfiguration`,
    `processConfigurationLine`) as a pure function of the configuration, the
    section level and the line. Header lines (`PARTITION:`, `VERSION:`,
    `INPUTS:`, `DESCRIPTORS:`, `CLUSTERS:`, `CLASSES:`) set metadata or the
    level; other lines are parsed by the level (1 inputs, 3 descriptors,
    4 clusters, 7 classes). Every `LOG(fatal)` of the code ends the parse:
    it is an `Abort` here. */
module HeaderDialect {
  import opened Text
  import opened CtpTypes
  import opened CtpQueries

  /** Why the parse was aborted. */
  datatype Fatal =
    | InputsItemCount
    | InputsMaskSyntax
    | InputNotDefined(input: string)
    | ClassesItemCount
    | ClassesMaskSyntax
    | DescriptorNotFound(descriptor: string)
    | ClusterNotFound(cluster: string)
    | UnknownLevel(level: int)

  /** The effect of one line: the new configuration and level, or the abort. */
  datatype HeaderStep = Next(cfg: ConfigState, level: int) | Abort(reason: Fatal)

  /** The line with the `width` characters at `at` taken out, trimmed
      (`trim_copy(line.erase(at, width))`). */
  function EraseTrim(line: string, at: nat, width: nat): string
    requires at + width <= |line|
  {
    Trim(line[..at] + line[at + width..])
  }

  /** The references of a descriptor line's input names, or the first name
      that is not a defined input. */
  datatype Resolved = AllFound(refs: seq<nat>) | Missing(item: string)

  function ResolveInputs(inputs: seq<CTPInput>, items: seq<string>): (r: Resolved)
    ensures r.AllFound? ==> (|r.refs| == |items| &&
      forall k :: 0 <= k < |items| ==> FindInput(inputs, items[k]).Some? && r.refs[k] == FindInput(inputs, items[k]).value)
    ensures r.AllFound? <==> forall k :: 0 <= k < |items| ==> FindInput(inputs, items[k]).Some?
    ensures r.Missing? ==> r.item in items && FindInput(inputs, r.item).None?
  {
    if items == [] then AllFound([])
    else
      var items0 := items[..|items| - 1];
      var last := items[|items| - 1];
      assert forall k :: 0 <= k < |items0| ==> items0[k] == items[k];
      assert forall x :: x in items0 ==> x in items;
      match ResolveInputs(inputs, items0)
      case Missing(x) => Missing(x)
      case AllFound(refs) =>
        match FindInput(inputs, last)
        case None => Missing(last)
        case Some(i) => AllFound(refs + [i])
  }

  /** The header keywords, in the order `processConfigurationLine` looks for
      them. */
  const HeaderKeywords: seq<string> := ["PARTITION:", "VERSION:", "INPUTS:", "DESCRIPTORS:", "CLUSTERS:", "CLASSES:"]

  /** The level each section header selects (after the two metadata headers). */
  const SectionLevels: seq<int> := [1, 3, 4, 7]

  /** Keyword `k` is the first of the header keywords the line contains. */
  predicate FirstHeader(line: string, k: nat)
  {
    k < |HeaderKeywords| && Contains(line, HeaderKeywords[k])
    && forall j :: 0 <= j < k ==> !Contains(line, HeaderKeywords[j])
  }

  /** The first header keyword (from `from` on) that the line contains. */
  function HeaderIndex(line: string, from: nat): (r: Option<nat>)
    requires from <= |HeaderKeywords|
    ensures r.Some? ==> from <= r.value < |HeaderKeywords| && Contains(line, HeaderKeywords[r.value])
                        && forall j :: from <= j < r.value ==> !Contains(line, HeaderKeywords[j])
    ensures r.None? ==> forall j :: from <= j < |HeaderKeywords| ==> !Contains(line, HeaderKeywords[j])
    decreases |HeaderKeywords| - from
  {
    if from == |HeaderKeywords| then None
    else if Contains(line, HeaderKeywords[from]) then Some(from)
    else HeaderIndex(line, from + 1)
  }

  /** The effect of a line whose first header keyword is `k`: `PARTITION:` and
      `VERSION:` store the line with the keyword cut out and trimmed, the
      section headers select a level. Nothing is added. */
  function HeaderEffect(cfg: ConfigState, level: int, line: string, k: nat): (r: HeaderStep)
    requires k < |HeaderKeywords| && Contains(line, HeaderKeywords[k])
    ensures r.Next? && EntityCount(r.cfg) == EntityCount(cfg)
    ensures r.cfg.(name := cfg.name, version := cfg.version) == cfg
  {
    var at := Find(line, HeaderKeywords[k]).value;
    if k == 0 then Next(cfg.(name := EraseTrim(line, at, 10)), level)
    else if k == 1 then Next(cfg.(version := EraseTrim(line, at, 8)), level)
    else Next(cfg, SectionLevels[k - 2])
  }

  /** An INPUTS line: name, detector, level and mask (decimal, octal or hex). */
  function InputsLine(cfg: ConfigState, tokens: seq<string>, reg: Registry): (r: HeaderStep)
    ensures r.Next? ==> r.level == 1 && r.cfg == cfg.(inputs := r.cfg.inputs)
                        && |r.cfg.inputs| == |cfg.inputs| + 1 && r.cfg.inputs[..|cfg.inputs|] == cfg.inputs
  {
    if |tokens| != 4 then Abort(InputsItemCount)
    else match ParseUnsigned(tokens[3], 0)
      case None => Abort(InputsMaskSyntax)
      case Some(v) =>
        var inp := CTPInput(tokens[0], reg.resolve(tokens[1]).id, tokens[2], BitsOf(v));
        Next(cfg.(inputs := cfg.inputs + [inp]), 1)
  }

  /** A DESCRIPTORS line: the descriptor name, then the names of defined
      inputs. The new descriptor refers only to existing inputs. */
  function DescriptorsLine(cfg: ConfigState, tokens: seq<string>): (r: HeaderStep)
    requires |tokens| >= 1
    ensures r.Next? ==> r.level == 3 && r.cfg == cfg.(descriptors := r.cfg.descriptors)
                        && |r.cfg.descriptors| == |cfg.descriptors| + 1 && r.cfg.descriptors[..|cfg.descriptors|] == cfg.descriptors
                        && forall k :: 0 <= k < |r.cfg.descriptors[|cfg.descriptors|].inputs| ==>
                             r.cfg.descriptors[|cfg.descriptors|].inputs[k] < |cfg.inputs|
  {
    match ResolveInputs(cfg.inputs, tokens[1..])
    case Missing(x) => Abort(InputNotDefined(x))
    case AllFound(refs) =>
      Next(cfg.(descriptors := cfg.descriptors + [CTPDescriptor(tokens[0], refs)]), 3)
  }

  /** A CLUSTERS line: the cluster name, then detector names; the detector
      mask is the OR of what the registry answers for each name. */
  function ClustersLine(cfg: ConfigState, tokens: seq<string>, reg: Registry): (r: HeaderStep)
    requires |tokens| >= 1
    ensures r.Next? && r.level == 4 && r.cfg == cfg.(clusters := r.cfg.clusters)
    ensures |r.cfg.clusters| == |cfg.clusters| + 1 && r.cfg.clusters[..|cfg.clusters|] == cfg.clusters
  {
    var cluster := CTPCluster(tokens[0], {}, DetectorsMask(reg, tokens[1..], false));
    Next(cfg.(clusters := cfg.clusters + [cluster]), 4)
  }

  /** A CLASSES line: name, class mask, descriptor name and cluster name, both
      of which must be defined. */
  function ClassesLine(cfg: ConfigState, tokens: seq<string>): (r: HeaderStep)
    ensures r.Next? ==> r.level == 7 && r.cfg == cfg.(classes := r.cfg.classes)
                        && |r.cfg.classes| == |cfg.classes| + 1 && r.cfg.classes[..|cfg.classes|] == cfg.classes
  {
    if |tokens| != 4 then Abort(ClassesItemCount)
    else match ParseUnsigned(tokens[1], 10)
      case None => Abort(ClassesMaskSyntax)
      case Some(v) =>
        if FindDescriptor(cfg.descriptors, tokens[2]).None? then Abort(DescriptorNotFound(tokens[2]))
        else if FindCluster(cfg.clusters, tokens[3]).None? then Abort(ClusterNotFound(tokens[3]))
        else Next(cfg.(classes := cfg.classes + [CTPClass(tokens[0], BitsOf(v))]), 7)
  }

  /** A line that is neither blank, a comment nor a header, handled by the
      current level. */
  function BodyLine(cfg: ConfigState, level: int, tokens: seq<string>, reg: Registry): (r: HeaderStep)
    ensures r.Next? ==> Extends(cfg, r.cfg) && EntityCount(r.cfg) <= EntityCount(cfg) + 1
    ensures r.Next? && DescriptorsResolve(cfg) ==> DescriptorsResolve(r.cfg)
  {
    if tokens == [] then Next(cfg, level)
    else if level == 1 then
      var r := InputsLine(cfg, tokens, reg);
      assert r.Next? ==> cfg.inputs <= r.cfg.inputs;
      r
    else if level == 3 then
      var r := DescriptorsLine(cfg, tokens);
      assert r.Next? ==> forall d :: d in r.cfg.descriptors ==> d in cfg.descriptors || d == r.cfg.descriptors[|cfg.descriptors|];
      r
    else if level == 4 then ClustersLine(cfg, tokens, reg)
    else if level == 7 then ClassesLine(cfg, tokens)
    else Abort(UnknownLevel(level))
  }

  /** `processConfigurationLine`. A line that continues the parse extends the
      configuration by at most one entity and keeps every earlier entity. */
  function StepHeader(cfg: ConfigState, level: int, line: string, reg: Registry): (r: HeaderStep)
    ensures r.Next? ==> Extends(cfg, r.cfg) && EntityCount(r.cfg) <= EntityCount(cfg) + 1
    ensures r.Next? && DescriptorsResolve(cfg) ==> DescriptorsResolve(r.cfg)
  {
    if line == [] || line[0] == '#' then Next(cfg, level)
    else match HeaderIndex(line, 0)
      case Some(k) => HeaderEffect(cfg, level, line, k)
      case None => BodyLine(cfg, level, Tokenize(line, ' '), reg)
  }

  /** The outcome of a whole parse: the configuration, or the abort, the
      index of the line that caused it and the configuration as it was before
      that line (the process ends there). */
  datatype HeaderLoad = Loaded(cfg: ConfigState) | Aborted(cfg: ConfigState, reason: Fatal, line: nat)

  /** The loop of `loadConfiguration` from line `index` on, every line trimmed
      before it is processed. */
  function LoadLines(cfg: ConfigState, level: int, lines: seq<string>, index: nat, reg: Registry): (r: HeaderLoad)
    requires index <= |lines|
    ensures Extends(cfg, r.cfg)
    ensures r.Aborted? ==> index <= r.line < |lines|
    decreases |lines| - index
  {
    if index == |lines| then Loaded(cfg)
    else match StepHeader(cfg, level, Trim(lines[index]), reg)
      case Abort(reason) => Aborted(cfg, reason, index)
      case Next(cfg', level') => LoadLines(cfg', level', lines, index + 1, reg)
  }

  /** `loadConfiguration`: the lines of the text, starting at level 0. */
  function LoadConfiguration(cfg: ConfigState, text: string, reg: Registry): HeaderLoad
  {
    LoadLines(cfg, 0, Lines(text), 0, reg)
  }

  // ---------------------------------------------------------------------------
  // Properties of the dialect

  /** The first header keyword a line contains is the one
      `processConfigurationLine` acts on. */
  lemma HeaderIndexFirst(line: string, k: nat)
    requires FirstHeader(line, k)
    ensures HeaderIndex(line, 0) == Some(k)
  {
  }

  /** A header line adds no entity: `PARTITION:` and `VERSION:` replace only
      the name or the version by the rest of the line with the keyword cut out
      and trimmed, keeping the level; a section header changes only the level,
      to 1, 3, 4 or 7. */
  lemma HeaderLine(cfg: ConfigState, level: int, line: string, k: nat, reg: Registry)
    requires line != [] && line[0] != '#'
    requires FirstHeader(line, k)
    ensures var r := StepHeader(cfg, level, line, reg);
      var at := Find(line, HeaderKeywords[k]).value;
      && r.Next?
      && EntityCount(r.cfg) == EntityCount(cfg)
      && (k == 0 ==> r == Next(cfg.(name := EraseTrim(line, at, 10)), level))
      && (k == 1 ==> r == Next(cfg.(version := EraseTrim(line, at, 8)), level))
      && (k >= 2 ==> r == Next(cfg, SectionLevels[k - 2]))
  {
    HeaderIndexFirst(line, k);
  }

  /** A "PARTITION:" line names the configuration after the trimmed rest of
      the line and keeps the level. */
  lemma PartitionLine(cfg: ConfigState, level: int, rest: string, reg: Registry)
    ensures StepHeader(cfg, level, "PARTITION:" + rest, reg) == Next(cfg.(name := Trim(rest)), level)
  {
    var p := "PARTITION:" + rest;
    assert OccursAt(p, HeaderKeywords[0], 0);
    assert FindFrom(p, HeaderKeywords[0], 0) == Some(0);
    HeaderIndexFirst(p, 0);
    assert p[..0] + p[10..] == rest;
  }

  /** A "VERSION:" line without "PARTITION:" in it sets the version to the
      trimmed rest of the line and keeps the level. */
  lemma VersionLine(cfg: ConfigState, level: int, rest: string, reg: Registry)
    requires !Contains("VERSION:" + rest, "PARTITION:")
    ensures StepHeader(cfg, level, "VERSION:" + rest, reg) == Next(cfg.(version := Trim(rest)), level)
  {
    var v := "VERSION:" + rest;
    assert OccursAt(v, HeaderKeywords[1], 0);
    assert FindFrom(v, HeaderKeywords[1], 0) == Some(0);
    HeaderIndexFirst(v, 1);
    assert v[..0] + v[8..] == rest;
  }


  /** Blank lines and comment lines change nothing. */
  lemma BlankAndCommentLines(cfg: ConfigState, level: int, line: string, reg: Registry)
    requires line == [] || line[0] == '#'
    ensures StepHeader(cfg, level, line, reg) == Next(cfg, level)
  {
  }

  /** A line that is no header, not blank and not a comment is handled by the
      level, on its blank-separated items. */
  lemma BodyLineDispatch(cfg: ConfigState, level: int, line: string, reg: Registry)
    requires line != [] && line[0] != '#'
    requires forall k :: 0 <= k < |HeaderKeywords| ==> !Contains(line, HeaderKeywords[k])
    ensures StepHeader(cfg, level, line, reg) == BodyLine(cfg, level, Tokenize(line, ' '), reg)
  {
    assert HeaderIndex(line, 0).None?;
  }

  /** In the INPUTS section a line without exactly four items, or whose mask
      does not parse, aborts; a valid line appends exactly one input, with the
      parsed mask, and changes nothing else. */
  lemma InputsLineEffect(cfg: ConfigState, tokens: seq<string>, reg: Registry)
    requires tokens != []
    ensures var r := BodyLine(cfg, 1, tokens, reg);
      && (|tokens| != 4 ==> r == Abort(InputsItemCount))
      && (|tokens| == 4 && ParseUnsigned(tokens[3], 0).None? ==> r == Abort(InputsMaskSyntax))
      && (|tokens| == 4 && ParseUnsigned(tokens[3], 0).Some? ==>
            r == Next(cfg.(inputs := cfg.inputs +
              [CTPInput(tokens[0], reg.resolve(tokens[1]).id, tokens[2], BitsOf(ParseUnsigned(tokens[3], 0).value))]), 1))
  {
  }

  /** In the CLASSES section: a wrong item count, an unparsable mask, an
      unknown descriptor or an unknown cluster aborts (in that order of
      checking); otherwise exactly one class is appended. */
  lemma ClassesLineEffect(cfg: ConfigState, tokens: seq<string>, reg: Registry)
    requires tokens != []
    ensures var r := BodyLine(cfg, 7, tokens, reg);
      && (|tokens| != 4 ==> r == Abort(ClassesItemCount))
      && (|tokens| == 4 && ParseUnsigned(tokens[1], 10).None? ==> r == Abort(ClassesMaskSyntax))
      && (|tokens| == 4 && ParseUnsigned(tokens[1], 10).Some? ==>
            && (tokens[2] !in Names(cfg.descriptors, DescriptorName) ==> r == Abort(DescriptorNotFound(tokens[2])))
            && (tokens[2] in Names(cfg.descriptors, DescriptorName) && tokens[3] !in Names(cfg.clusters, ClusterName) ==>
                  r == Abort(ClusterNotFound(tokens[3])))
            && (tokens[2] in Names(cfg.descriptors, DescriptorName) && tokens[3] in Names(cfg.clusters, ClusterName) ==>
                  r == Next(cfg.(classes := cfg.classes + [CTPClass(tokens[0], BitsOf(ParseUnsigned(tokens[1], 10).value))]), 7)))
  {
    if |tokens| == 4 {
      FirstIndexNone(Names(cfg.descriptors, DescriptorName), tokens[2]);
      FirstIndexNone(Names(cfg.clusters, ClusterName), tokens[3]);
    }
  }

  lemma FirstIndexNone(xs: seq<string>, x: string)
    ensures FirstIndex(xs, x).None? <==> x !in xs
  {
  }

  /** A DESCRIPTORS line naming an input that is not defined aborts, reporting
      such a name; otherwise the new descriptor refers to the first input of
      each name. */
  lemma DescriptorsLineEffect(cfg: ConfigState, tokens: seq<string>, reg: Registry)
    requires tokens != []
    ensures var r := BodyLine(cfg, 3, tokens, reg);
      && ((exists k :: 1 <= k < |tokens| && tokens[k] !in Names(cfg.inputs, InputName)) ==>
            r.Abort? && r.reason.InputNotDefined? && r.reason.input in tokens[1..] && r.reason.input !in Names(cfg.inputs, InputName))
      && ((forall k :: 1 <= k < |tokens| ==> tokens[k] in Names(cfg.inputs, InputName)) ==>
            r.Next? && r.level == 3 && r.cfg == cfg.(descriptors := r.cfg.descriptors)
            && r.cfg.descriptors[..|cfg.descriptors|] == cfg.descriptors
            && |r.cfg.descriptors| == |cfg.descriptors| + 1
            && var d := r.cfg.descriptors[|cfg.descriptors|];
               d.name == tokens[0] && |d.inputs| == |tokens| - 1
               && forall k :: 1 <= k < |tokens| ==> d.inputs[k - 1] == FindInput(cfg.inputs, tokens[k]).value)
  {
    var items := tokens[1..];
    assert forall k :: 1 <= k < |tokens| ==> tokens[k] == items[k - 1];
    forall k | 0 <= k < |items|
      ensures FindInput(cfg.inputs, items[k]).None? <==> items[k] !in Names(cfg.inputs, InputName)
    {
      if items[k] in Names(cfg.inputs, InputName) {
        var j :| 0 <= j < |cfg.inputs| && Names(cfg.inputs, InputName)[j] == items[k];
      }
    }
  }

  /** A CLUSTERS line sets the cluster's detector mask to the OR of the
      registry masks of the listed detectors: for `c detA detB`, exactly
      `mask(detA) | mask(detB)`, with no hardware mask. */
  lemma ClusterLineMask(cfg: ConfigState, c: string, detA: string, detB: string, reg: Registry)
    ensures BodyLine(cfg, 4, [c, detA, detB], reg)
         == Next(cfg.(clusters := cfg.clusters + [CTPCluster(c, {}, reg.resolve(detA).mask + reg.resolve(detB).mask)]), 4)
  {
    assert [c, detA, detB][1..] == [detA, detB];
    assert [detA, detB][..1] == [detA];
    assert [detA][..0] == [];
    assert DetectorsMask(reg, [detA], false) == reg.resolve(detA).mask;
  }

  /** Outside any section (level 0, or any level but 1, 3, 4 and 7) a line
      with items aborts. */
  lemma UnknownLevelAborts(cfg: ConfigState, level: int, tokens: seq<string>, reg: Registry)
    requires tokens != []
    requires level != 1 && level != 3 && level != 4 && level != 7
    ensures BodyLine(cfg, level, tokens, reg) == Abort(UnknownLevel(level))
  {
  }

  /** The parse stops at the first aborting line: the lines before it load
      without error. */
  lemma {:induction false} AbortIsFirstFailure(cfg: ConfigState, level: int, lines: seq<string>, index: nat, reg: Registry)
    requires index <= |lines|
    requires LoadLines(cfg, level, lines, index, reg).Aborted?
    ensures LoadLines(cfg, level, lines[..LoadLines(cfg, level, lines, index, reg).line], index, reg).Loaded?
    decreases |lines| - index
  {
    var k := LoadLines(cfg, level, lines, index, reg).line;
    var prefix := lines[..k];
    var step := StepHeader(cfg, level, Trim(lines[index]), reg);
    if step.Abort? {
      assert k == index && |prefix| == index;
    } else {
      assert LoadLines(cfg, level, lines, index, reg) == LoadLines(step.cfg, step.level, lines, index + 1, reg);
      AbortIsFirstFailure(step.cfg, step.level, lines, index + 1, reg);
      assert index < k && prefix[index] == lines[index];
      assert LoadLines(cfg, level, prefix, index, reg) == LoadLines(step.cfg, step.level, prefix, index + 1, reg);
    }
  }

  /** One turn of the loop on a line that continues the parse. */
  lemma LoadLinesNext(cfg: ConfigState, level: int, lines: seq<string>, index: nat, reg: Registry)
    requires index < |lines|
    requires StepHeader(cfg, level, Trim(lines[index]), reg).Next?
    ensures var step := StepHeader(cfg, level, Trim(lines[index]), reg);
      LoadLines(cfg, level, lines, index, reg) == LoadLines(step.cfg, step.level, lines, index + 1, reg)
  {
  }

  /** One turn of the loop on a line that aborts. */
  lemma LoadLinesAbort(cfg: ConfigState, level: int, lines: seq<string>, index: nat, reg: Registry)
    requires index < |lines|
    requires StepHeader(cfg, level, Trim(lines[index]), reg).Abort?
    ensures LoadLines(cfg, level, lines, index, reg) == Aborted(cfg, StepHeader(cfg, level, Trim(lines[index]), reg).reason, index)
  {
  }

  /** Nothing after the aborting line is looked at: the text cut right after
      it, line `k`, aborts in the same way. */
  lemma {:induction false} AbortIgnoresRest(cfg: ConfigState, level: int, lines: seq<string>, index: nat, k: nat, reg: Registry)
    requires index <= k < |lines|
    requires LoadLines(cfg, level, lines, index, reg).Aborted? && LoadLines(cfg, level, lines, index, reg).line == k
    ensures LoadLines(cfg, level, lines[..k + 1], index, reg) == LoadLines(cfg, level, lines, index, reg)
    decreases |lines| - index
  {
    var cut := lines[..k + 1];
    assert cut[index] == lines[index];
    var step := StepHeader(cfg, level, Trim(lines[index]), reg);
    if step.Next? {
      LoadLinesNext(cfg, level, lines, index, reg);
      AbortIgnoresRest(step.cfg, step.level, lines, index + 1, k, reg);
      LoadLinesNext(cfg, level, cut, index, reg);
    }
  }

  /** A complete parse keeps descriptors well formed: every descriptor it
      builds refers to inputs defined before it. */
  lemma {:induction false} LoadKeepsDescriptorsResolved(cfg: ConfigState, level: int, lines: seq<string>, index: nat, reg: Registry)
    requires index <= |lines|
    requires DescriptorsResolve(cfg)
    ensures LoadLines(cfg, level, lines, index, reg).Loaded? ==> DescriptorsResolve(LoadLines(cfg, level, lines, index, reg).cfg)
    decreases |lines| - index
  {
    if index < |lines| {
      match StepHeader(cfg, level, Trim(lines[index]), reg)
      case Abort(_) =>
      case Next(cfg', level') => LoadKeepsDescriptorsResolved(cfg', level', lines, index + 1, reg);
    }
  }
}
