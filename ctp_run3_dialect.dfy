/** The keyword-inferred configuration dialect (`loadConfigurationRun3`,
    `processConfigurationLineRun3`). No line announces its section: the level
    is inferred from keywords in the line and carried from line to line.

    Three outcomes of a line are told apart. `Next` continues the parse. `Stop`
    is the non-zero return of a cluster or class line whose first item is not
    a number (the code returns the level; its numeric value is not needed).
    `Fault` is a line on which the code reads past the end of its item
    vector, calls `back()` on an empty vector, or lets an exception of
    `std::stoul` or `std::bitset::set` escape: its behaviour is undefined or
    ends the caller, and the model ends the parse there. */
module Run3Dialect {
  import opened Text
  import opened CtpTypes
  import opened CtpQueries

  /** The parser levels. */
  datatype Level3 = RUN | GENS | MASKS | LTG | LTGitems | CLUSTER | CLASS | UNKNOWN

  /** What makes a line fault. */
  datatype Failure =
    | MissingItem(needed: nat)        // fewer items than the line reads
    | NoDetector                      // a mode line before any LTG line
    | RunNumberSyntax                 // `std::stoul` throws on the run number
    | BunchOutOfRange(bc: nat)        // `std::bitset::set` throws

  /** The failures that are exceptions. Nothing in `loadConfigurationRun3`
      catches them, so they leave its caller too; the other failures are
      undefined behaviour. */
  predicate Throws(why: Failure)
  {
    why.RunNumberSyntax? || why.BunchOutOfRange?
  }

  datatype Run3Step = Next(cfg: ConfigState, level: Level3) | Stop(level: Level3) | Fault(why: Failure)

  /** The level a non-blank line is handled at, from its text, its items and
      the level of the previous line. */
  function InferLevel(line: string, tokens: seq<string>, level: Level3): (r: Level3)
    requires tokens != []
    ensures Contains(line, "run") ==> r == RUN
    ensures r == MASKS ==> level == MASKS
    ensures r == LTGitems ==> level == LTGitems
    ensures r == CLASS ==> level == CLASS
    ensures r == GENS ==> tokens[0] in Generators || level == GENS
    ensures !Contains(line, "run") && tokens[0] in Generators ==> r == GENS
    ensures r == LTG ==> Contains(line, "LTG") || level == LTG
    ensures r == CLUSTER ==> Contains(line, "cluster") || level == CLUSTER
  {
    if Contains(line, "run") then RUN
    else if tokens[0] in Generators then GENS
    else if Contains(line, "bcm") then level
    else if Contains(line, "LTG") then LTG
    else if Contains(line, "cluster") then CLUSTER
    else if level == LTGitems || level == CLASS then level
    else UNKNOWN
  }

  /** `std::stoull` on each item of a list-of-integers mask line. */
  function ParseAll(items: seq<string>): (r: seq<Option<nat>>)
    ensures |r| == |items| && forall k :: 0 <= k < |items| ==> r[k] == ParseUnsigned(items[k], 10)
  {
    seq(|items|, k requires 0 <= k < |items| => ParseUnsigned(items[k], 10))
  }

  /** The bunch crossing a parsed item names: the `unsigned long long`
      truncated to the 32-bit `uint32_t` it is stored in. */
  function Crossing(v: nat): nat
  {
    v % 0x1_0000_0000
  }

  /** The bunch crossings a list of mask items sets, or the first one outside
      the orbit. */
  datatype Bunches = Bunches(bcs: set<nat>) | OutOfRange(bc: nat)

  /** Setting the bits of the parsed items in order, skipping the items that
      did not parse; the first crossing at or beyond `MaxBunches` makes the
      whole line fail. */
  function BunchesOf(vals: seq<Option<nat>>): (r: Bunches)
    ensures r.Bunches? ==> forall b :: b in r.bcs ==> b < MaxBunches
    ensures r.OutOfRange? ==> r.bc >= MaxBunches
  {
    if vals == [] then Bunches({})
    else
      match BunchesOf(vals[..|vals| - 1])
      case OutOfRange(bc) => OutOfRange(bc)
      case Bunches(bcs) =>
        match vals[|vals| - 1]
        case None => Bunches(bcs)
        case Some(v) => if Crossing(v) >= MaxBunches then OutOfRange(Crossing(v)) else Bunches(bcs + {Crossing(v)})
  }

  /** A mask line fails exactly when one of its items parses to a crossing
      outside the orbit. */
  lemma {:induction false} BunchesOfFails(vals: seq<Option<nat>>)
    ensures BunchesOf(vals).Bunches?
        <==> forall k :: 0 <= k < |vals| && vals[k].Some? ==> Crossing(vals[k].value) < MaxBunches
  {
    if vals != [] {
      var n := |vals| - 1;
      var front := vals[..n];
      BunchesOfFails(front);
      assert forall k :: 0 <= k < n ==> front[k] == vals[k];
    }
  }

  /** The crossing a failing mask line reports is one of its items'. */
  lemma {:induction false} BunchesOfReports(vals: seq<Option<nat>>)
    requires BunchesOf(vals).OutOfRange?
    ensures exists k :: 0 <= k < |vals| && vals[k].Some? && Crossing(vals[k].value) == BunchesOf(vals).bc
  {
    var n := |vals| - 1;
    var front := vals[..n];
    if BunchesOf(front).OutOfRange? {
      BunchesOfReports(front);
      var k :| 0 <= k < n && front[k].Some? && Crossing(front[k].value) == BunchesOf(front).bc;
      assert vals[k] == front[k];
    }
  }

  /** The items of a mask line that does not fail set exactly the crossings
      they parse to. */
  lemma {:induction false} BunchesOfBits(vals: seq<Option<nat>>)
    requires BunchesOf(vals).Bunches?
    ensures forall b :: b in BunchesOf(vals).bcs <==> exists k :: 0 <= k < |vals| && vals[k].Some? && Crossing(vals[k].value) == b
  {
    if vals != [] {
      var n := |vals| - 1;
      var front := vals[..n];
      var bcs := BunchesOf(vals).bcs;
      var bcs0 := BunchesOf(front).bcs;
      BunchesOfBits(front);
      assert forall k :: 0 <= k < n ==> front[k] == vals[k];
      forall b
        ensures b in bcs <==> exists k :: 0 <= k < |vals| && vals[k].Some? && Crossing(vals[k].value) == b
      {
        if b in bcs && b !in bcs0 {
          assert vals[n].Some? && Crossing(vals[n].value) == b;
        }
      }
    }
  }

  /** The compact notation of a mask line (its third item holds an `L` or an
      `H`) is recognised but not decoded: the mask stays empty. */
  predicate CompactNotation(item: string)
  {
    'L' in item || 'H' in item
  }

  /** A mask line: the mask name, then its bunch crossings. */
  function MasksLine(cfg: ConfigState, tokens: seq<string>): (r: Run3Step)
    ensures r.Next? ==> r.level == MASKS && r.cfg == cfg.(bcMasks := r.cfg.bcMasks)
                        && |r.cfg.bcMasks| == |cfg.bcMasks| + 1 && r.cfg.bcMasks[..|cfg.bcMasks|] == cfg.bcMasks
  {
    if |tokens| < 3 then Fault(MissingItem(3))
    else if CompactNotation(tokens[2]) then Next(cfg.(bcMasks := cfg.bcMasks + [BCMask(tokens[1], {})]), MASKS)
    else match BunchesOf(ParseAll(tokens[2..]))
      case OutOfRange(bc) => Fault(BunchOutOfRange(bc))
      case Bunches(bcs) => Next(cfg.(bcMasks := cfg.bcMasks + [BCMask(tokens[1], bcs)]), MASKS)
  }

  /** An LTG line: the named detector (upper-cased) joins with an empty mode;
      its id is kept only when the registry knows it. The lines after it
      belong to this detector. */
  function LtgLine(cfg: ConfigState, tokens: seq<string>, reg: Registry): (r: Run3Step)
    ensures r.Next? ==> r.level == LTGitems && r.cfg == cfg.(detectors := r.cfg.detectors)
                        && |r.cfg.detectors| == |cfg.detectors| + 1 && r.cfg.detectors[..|cfg.detectors|] == cfg.detectors
  {
    if |tokens| < 2 then Fault(MissingItem(2))
    else
      var id := reg.resolve(UpperString(tokens[1])).id;
      var det := CTPDetector(if IsDetector(id, reg) then Some(id) else None, "");
      Next(cfg.(detectors := cfg.detectors + [det]), LTGitems)
  }

  /** A line after an LTG line: a single item is the mode of the last
      detector; other lines change nothing. */
  function LtgItemLine(cfg: ConfigState, tokens: seq<string>): (r: Run3Step)
    ensures r.Next? ==> r.level == LTGitems && r.cfg == cfg.(detectors := r.cfg.detectors)
                        && |r.cfg.detectors| == |cfg.detectors|
    ensures |tokens| != 1 ==> r == Next(cfg, LTGitems)
    ensures |tokens| == 1 ==> (r.Fault? <==> cfg.detectors == [])
    ensures |tokens| == 1 && r.Next? ==>
              var n := |cfg.detectors| - 1;
              r.cfg.detectors[..n] == cfg.detectors[..n] && r.cfg.detectors[n] == cfg.detectors[n].(mode := tokens[0])
  {
    if |tokens| != 1 then Next(cfg, LTGitems)
    else if cfg.detectors == [] then Fault(NoDetector)
    else
      var n := |cfg.detectors| - 1;
      Next(cfg.(detectors := cfg.detectors[..n] + [cfg.detectors[n].(mode := tokens[0])]), LTGitems)
  }

  /** A cluster line: hardware mask, (unused item), cluster name, then the
      member detectors (upper-cased) whose registry masks are ORed. An
      unparsable first item stops the parse at level CLUSTER. The lines after
      it are classes of this cluster. */
  function ClusterLine(cfg: ConfigState, tokens: seq<string>, reg: Registry): (r: Run3Step)
    requires tokens != []
    ensures r.Next? ==> r.level == CLASS && r.cfg == cfg.(clusters := r.cfg.clusters)
                        && |r.cfg.clusters| == |cfg.clusters| + 1 && r.cfg.clusters[..|cfg.clusters|] == cfg.clusters
    ensures r.Stop? <==> ParseUnsigned(tokens[0], 10).None?
    ensures r.Stop? ==> r.level == CLUSTER
    ensures r.Fault? <==> ParseUnsigned(tokens[0], 10).Some? && |tokens| < 3
    ensures r.Fault? ==> r.why == MissingItem(3)
    ensures r.Next? ==>
      var added := r.cfg.clusters[|cfg.clusters|];
      added.name == tokens[2]
      && added.hwMask == BitsOf(ParseUnsigned(tokens[0], 10).value)
      && added.maskCluster == DetectorsMask(reg, tokens[3..], true)
      && forall b :: b in added.maskCluster <==>
           exists k :: 3 <= k < |tokens| && b in reg.resolve(RegistryKey(tokens[k], true)).mask
  {
    match ParseUnsigned(tokens[0], 10)
    case None => Stop(CLUSTER)
    case Some(v) =>
      if |tokens| < 3 then Fault(MissingItem(3))
      else
        var cluster := CTPCluster(tokens[2], BitsOf(v), DetectorsMask(reg, tokens[3..], true));
        Next(cfg.(clusters := cfg.clusters + [cluster]), CLASS)
  }

  /** A class line: only its leading index is checked; nothing is stored. */
  function ClassLine(cfg: ConfigState, tokens: seq<string>): (r: Run3Step)
    requires tokens != []
    ensures r.Stop? <==> ParseUnsigned(tokens[0], 10).None?
    ensures r.Stop? ==> r.level == CLASS
    ensures r.Next? ==> r == Next(cfg, CLASS)
  {
    if ParseUnsigned(tokens[0], 10).None? then Stop(CLASS) else Next(cfg, CLASS)
  }

  /** The switch on the inferred level. No line defines inputs or
      descriptors, and a line adds at most one entity. */
  function Act(cfg: ConfigState, level: Level3, tokens: seq<string>, reg: Registry): (r: Run3Step)
    requires tokens != []
    ensures r.Next? ==> Extends(cfg, r.cfg) && EntityCount(r.cfg) <= EntityCount(cfg) + 1
    ensures r.Next? ==> r.cfg.inputs == cfg.inputs && r.cfg.descriptors == cfg.descriptors
    ensures r.Stop? ==> level in {CLUSTER, CLASS} && r.level == level
    ensures r.Next? && level == RUN ==> r.cfg.runNumber < 0x1_0000_0000
  {
    match level
    case RUN =>
      if |tokens| < 2 then Fault(MissingItem(2))
      else (match ParseUnsigned(tokens[1], 10)
        case None => Fault(RunNumberSyntax)
        // `stoul` yields 64 bits; `mRunNumber` keeps the low 32
        case Some(v) => Next(cfg.(runNumber := v % 0x1_0000_0000), RUN))
    case MASKS =>
      var r := MasksLine(cfg, tokens);
      assert r.Next? ==> cfg.bcMasks <= r.cfg.bcMasks;
      r
    case GENS => if |tokens| < 2 then Fault(MissingItem(2)) else Next(cfg, GENS)
    case LTG => LtgLine(cfg, tokens, reg)
    case LTGitems => LtgItemLine(cfg, tokens)
    case CLUSTER =>
      var r := ClusterLine(cfg, tokens, reg);
      assert r.Next? ==> cfg.clusters <= r.cfg.clusters;
      r
    case CLASS => ClassLine(cfg, tokens)
    case UNKNOWN => Next(cfg, UNKNOWN)
  }

  /** `processConfigurationLineRun3`: blank lines, comments and lines without
      items change nothing; any other line is handled at its inferred level. */
  function StepRun3(cfg: ConfigState, level: Level3, line: string, reg: Registry): (r: Run3Step)
    ensures r.Next? ==> Extends(cfg, r.cfg) && EntityCount(r.cfg) <= EntityCount(cfg) + 1
    ensures r.Next? ==> r.cfg.inputs == cfg.inputs && r.cfg.descriptors == cfg.descriptors
    ensures r.Stop? ==> r.level in {CLUSTER, CLASS}
  {
    if line == [] || line[0] == '#' then Next(cfg, level)
    else
      var tokens := Tokenize(line, ' ');
      if tokens == [] then Next(cfg, level)
      else Act(cfg, InferLevel(line, tokens, level), tokens, reg)
  }

  /** The outcome of a whole parse. Every outcome carries the configuration:
      the code builds it in place, so what was added before a stop stays. */
  datatype Run3Load =
    | Loaded(cfg: ConfigState, level: Level3)
    | Stopped(cfg: ConfigState, level: Level3, line: nat)
    | Faulted(cfg: ConfigState, why: Failure, line: nat)

  /** The loop of `loadConfigurationRun3` from line `index` on, each line
      trimmed first; it ends at the first line with a non-zero result. */
  function LoadRun3Lines(cfg: ConfigState, level: Level3, lines: seq<string>, index: nat, reg: Registry): (r: Run3Load)
    requires index <= |lines|
    ensures Extends(cfg, r.cfg)
    ensures r.cfg.inputs == cfg.inputs && r.cfg.descriptors == cfg.descriptors
    ensures r.Stopped? ==> index <= r.line < |lines| && r.level in {CLUSTER, CLASS}
    ensures r.Faulted? ==> index <= r.line < |lines|
    decreases |lines| - index
  {
    if index == |lines| then Loaded(cfg, level)
    else match StepRun3(cfg, level, Trim(lines[index]), reg)
      case Stop(l) => Stopped(cfg, l, index)
      case Fault(why) => Faulted(cfg, why, index)
      case Next(cfg', level') => LoadRun3Lines(cfg', level', lines, index + 1, reg)
  }

  /** One turn of the loop. */
  lemma LoadRun3LinesStep(cfg: ConfigState, level: Level3, lines: seq<string>, index: nat, reg: Registry)
    requires index < |lines|
    ensures var step := StepRun3(cfg, level, Trim(lines[index]), reg);
      LoadRun3Lines(cfg, level, lines, index, reg)
      == match step
         case Stop(l) => Stopped(cfg, l, index)
         case Fault(why) => Faulted(cfg, why, index)
         case Next(c, l) => LoadRun3Lines(c, l, lines, index + 1, reg)
  {
  }

  /** The class every parse in this dialect starts by adding. */
  function SeedClass(): CTPClass
  {
    CTPClass("test", {})
  }

  /** `loadConfigurationRun3`: add the seed class, then parse the lines of the
      text starting at level MASKS. */
  function LoadConfigurationRun3(cfg: ConfigState, text: string, reg: Registry): Run3Load
  {
    LoadRun3Lines(cfg.(classes := cfg.classes + [SeedClass()]), MASKS, Lines(text), 0, reg)
  }

  // ---------------------------------------------------------------------------
  // Properties of the dialect

  /** Level inference follows a fixed precedence: "run" before a generator
      name before "bcm" before "LTG" before "cluster"; a "bcm" line keeps the
      level; a line with none of these continues an LTG or cluster block and
      otherwise is of unknown kind. */
  lemma InferencePrecedence(line: string, tokens: seq<string>, level: Level3)
    requires tokens != []
    requires !Contains(line, "run") && tokens[0] !in Generators
    ensures Contains(line, "bcm") ==> InferLevel(line, tokens, level) == level
    ensures !Contains(line, "bcm") && Contains(line, "LTG") ==> InferLevel(line, tokens, level) == LTG
    ensures !Contains(line, "bcm") && !Contains(line, "LTG") && Contains(line, "cluster") ==> InferLevel(line, tokens, level) == CLUSTER
    ensures !Contains(line, "bcm") && !Contains(line, "LTG") && !Contains(line, "cluster") ==>
      InferLevel(line, tokens, level) == (if level in {LTGitems, CLASS} then level else UNKNOWN)
  {
  }

  /** A list-of-integers mask line whose crossings all lie in the orbit
      adds a mask of that name setting exactly the crossings its items parse
      to (`ParseAll` parses item `k` into slot `k`); the items that do not
      parse are skipped. */
  lemma MaskLineBits(cfg: ConfigState, tokens: seq<string>)
    requires |tokens| >= 3 && !CompactNotation(tokens[2])
    requires var vals := ParseAll(tokens[2..]);
      forall k :: 0 <= k < |vals| && vals[k].Some? ==> Crossing(vals[k].value) < MaxBunches
    ensures MasksLine(cfg, tokens).Next?
    ensures var vals := ParseAll(tokens[2..]);
      var m := MasksLine(cfg, tokens).cfg.bcMasks[|cfg.bcMasks|];
      m.name == tokens[1]
      && forall b :: b in m.bcMask <==> exists k :: 0 <= k < |vals| && vals[k].Some? && Crossing(vals[k].value) == b
  {
    var vals := ParseAll(tokens[2..]);
    BunchesOfFails(vals);
    BunchesOfBits(vals);
  }

  /** A crossing number beyond the orbit makes the mask line fault instead of
      adding a mask. */
  lemma MaskLineOutOfOrbit(cfg: ConfigState, tokens: seq<string>, k: nat)
    requires |tokens| >= 3 && !CompactNotation(tokens[2])
    requires 2 <= k < |tokens| && ParseUnsigned(tokens[k], 10).Some? && Crossing(ParseUnsigned(tokens[k], 10).value) >= MaxBunches
    ensures MasksLine(cfg, tokens).Fault?
    ensures MasksLine(cfg, tokens).why.BunchOutOfRange?
  {
    var vals := ParseAll(tokens[2..]);
    assert vals[k - 2] == ParseUnsigned(tokens[k], 10);
    BunchesOfFails(vals);
  }

  /** A cluster or class line whose first item is not a number stops the
      parse, adding nothing; the parse stops at level CLUSTER or CLASS. */
  lemma SyntaxErrorStops(cfg: ConfigState, level: Level3, line: string, reg: Registry)
    requires line != [] && line[0] != '#' && Tokenize(line, ' ') != []
    requires InferLevel(line, Tokenize(line, ' '), level) in {CLUSTER, CLASS}
    requires ParseUnsigned(Tokenize(line, ' ')[0], 10).None?
    ensures StepRun3(cfg, level, line, reg) == Stop(InferLevel(line, Tokenize(line, ' '), level))
  {
  }

  /** The parse stops at the first line with a non-zero result: the lines
      before it parse completely. */
  lemma {:induction false} StopIsFirst(cfg: ConfigState, level: Level3, lines: seq<string>, index: nat, reg: Registry)
    requires index <= |lines|
    requires !LoadRun3Lines(cfg, level, lines, index, reg).Loaded?
    ensures var k := LoadRun3Lines(cfg, level, lines, index, reg).line;
      var before := LoadRun3Lines(cfg, level, lines[..k], index, reg);
      before.Loaded? && before.cfg == LoadRun3Lines(cfg, level, lines, index, reg).cfg
    decreases |lines| - index
  {
    var k := LoadRun3Lines(cfg, level, lines, index, reg).line;
    var prefix := lines[..k];
    var step := StepRun3(cfg, level, Trim(lines[index]), reg);
    if !step.Next? {
      assert k == index && |prefix| == index;
    } else {
      assert LoadRun3Lines(cfg, level, lines, index, reg) == LoadRun3Lines(step.cfg, step.level, lines, index + 1, reg);
      StopIsFirst(step.cfg, step.level, lines, index + 1, reg);
      assert index < k && prefix[index] == lines[index];
      assert LoadRun3Lines(cfg, level, prefix, index, reg) == LoadRun3Lines(step.cfg, step.level, prefix, index + 1, reg);
    }
  }

  /** Every parse in this dialect, whatever its outcome, keeps the classes
      that were there, followed by the seed class. */
  lemma SeedClassKept(cfg: ConfigState, text: string, reg: Registry)
    ensures var r := LoadConfigurationRun3(cfg, text, reg);
      |r.cfg.classes| > |cfg.classes| && r.cfg.classes[..|cfg.classes|] == cfg.classes
      && r.cfg.classes[|cfg.classes|] == SeedClass()
  {
    var seeded := cfg.(classes := cfg.classes + [SeedClass()]);
    var r := LoadConfigurationRun3(cfg, text, reg);
    assert seeded.classes <= r.cfg.classes;
    assert r.cfg.classes[|cfg.classes|] == seeded.classes[|cfg.classes|];
  }

  /** Parsing in this dialect never defines an input or a descriptor, so the
      descriptors it leaves behind refer to existing inputs when those before
      it did. */
  lemma LoadKeepsDescriptorsResolved(cfg: ConfigState, text: string, reg: Registry)
    requires DescriptorsResolve(cfg)
    ensures DescriptorsResolve(LoadConfigurationRun3(cfg, text, reg).cfg)
  {
  }
}
