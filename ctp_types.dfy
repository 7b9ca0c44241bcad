/** The entities of a trigger (CTP) configuration: bunch-crossing masks,
    inputs, descriptors, detector (LTG) records, clusters and classes, the
    detector registry the parsers consult, and the configuration as a value. */
module CtpTypes {
  import opened Text

  /** A 64-bit hardware mask, represented by the set of its set bit positions:
      `|` is union, `(1ull << i) & m` is membership of `i`. */
  type Mask = set<nat>

  /** Every bit of `m` fits the given width. */
  predicate FitsIn(m: Mask, width: nat)
  {
    forall b :: b in m ==> b < width
  }

  function Pow2(k: nat): (p: nat)
    ensures p >= 1
  {
    if k == 0 then 1 else 2 * Pow2(k - 1)
  }

  /** The bit positions of the binary representation of `n`. */
  function BitsOf(n: nat): Mask
  {
    if n == 0 then {} else (if n % 2 == 1 then {0} else {}) + set b | b in BitsOf(n / 2) :: b + 1
  }

  /** A number below 2^w sets no bit at or above w; in particular every
      `unsigned long long` is a 64-bit mask. */
  lemma {:induction false} BitsOfFits(n: nat, w: nat)
    requires n < Pow2(w)
    ensures FitsIn(BitsOf(n), w)
  {
    if n > 0 {
      assert w > 0;
      BitsOfFits(n / 2, w - 1);
      forall b | b in BitsOf(n) ensures b < w {
        if b != 0 { assert b - 1 in BitsOf(n / 2); }
      }
    }
  }

  /** The number of bunch crossings in an LHC orbit: the width of a BC mask
      (`o2::constants::lhc::LHCMaxBunches`). */
  const MaxBunches: nat := 3564

  /** The generator names the inferred-section dialect recognises. */
  const Generators: set<string> := {"bcd1m", "bcd2m", "bcd10", "bcd20", "rnd1m", "rnd2m", "rnd10", "rnd20"}

  /** A named selection of bunch crossings (the positions set in its bitmap). */
  datatype BCMask = BCMask(name: string, bcMask: set<nat>)

  /** A hardware trigger input of one detector. `detID` is whatever the
      detector registry returned for the detector name, valid or not. */
  datatype CTPInput = CTPInput(name: string, detID: int, level: string, inputMask: Mask)

  /** A named combination of inputs. The code keeps pointers into the
      configuration's input vector; here they are indices into `inputs`. */
  datatype CTPDescriptor = CTPDescriptor(name: string, inputs: seq<nat>)

  /** The participation record of one detector (an LTG line). `detID` stays
      unset when the name does not resolve to a known detector. */
  datatype CTPDetector = CTPDetector(detID: Option<int>, mode: string)

  /** A named group of detectors: an explicit hardware mask and the OR of the
      member detectors' masks. */
  datatype CTPCluster = CTPCluster(name: string, hwMask: Mask, maskCluster: Mask)

  /** A trigger class with its class mask. */
  datatype CTPClass = CTPClass(name: string, classMask: Mask)

  /** What the detector registry answers for a name. */
  datatype DetEntry = DetEntry(id: int, mask: Mask)

  /** The detector registry (`o2::detectors::DetID`): the number of detectors
      and the id and mask it gives any name (an out-of-range id for an unknown
      one). */
  datatype Registry = Registry(nDetectors: nat, resolve: string -> DetEntry)

  /** `CTPConfiguration::isDetector`: the id names a detector of the registry. */
  predicate IsDetector(id: int, reg: Registry)
  {
    0 <= id < reg.nDetectors
  }

  /** The state of a `CTPConfiguration` as a value. */
  datatype ConfigState = ConfigState(
    name: string,
    version: string,
    runNumber: nat,
    bcMasks: seq<BCMask>,
    inputs: seq<CTPInput>,
    descriptors: seq<CTPDescriptor>,
    detectors: seq<CTPDetector>,
    clusters: seq<CTPCluster>,
    classes: seq<CTPClass>)

  /** A freshly constructed configuration. */
  function EmptyConfig(): ConfigState
  {
    ConfigState("", "", 0, [], [], [], [], [], [])
  }

  /** Every descriptor refers only to inputs that exist (the code's pointers
      are valid). */
  predicate DescriptorsResolve(cfg: ConfigState)
  {
    forall d, k :: d in cfg.descriptors && 0 <= k < |d.inputs| ==> d.inputs[k] < |cfg.inputs|
  }

  /** `next` keeps every collection of `prev` as a prefix: parsing only appends. */
  predicate Extends(prev: ConfigState, next: ConfigState)
  {
    && prev.bcMasks <= next.bcMasks
    && prev.inputs <= next.inputs
    && prev.descriptors <= next.descriptors
    && |prev.detectors| <= |next.detectors|
    && prev.clusters <= next.clusters
    && prev.classes <= next.classes
  }

  /** The number of entities a configuration holds. */
  function EntityCount(cfg: ConfigState): nat
  {
    |cfg.bcMasks| + |cfg.inputs| + |cfg.descriptors| + |cfg.detectors| + |cfg.clusters| + |cfg.classes|
  }
}
