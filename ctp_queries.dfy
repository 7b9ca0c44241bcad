/** Specifications of the read-only queries on a trigger configuration: mask
    aggregation and first-match name lookup. The configuration class computes
    them with loops and is proved against these functions. */
module CtpQueries {
  import opened Text
  import opened CtpTypes

  /** `CTPDescriptor::getInputsMask`: the OR of the masks of the referenced
      inputs; a bit is set exactly when some referenced input sets it, so a
      descriptor without inputs has the empty mask. */
  function InputsMask(inputs: seq<CTPInput>, refs: seq<nat>): (m: Mask)
    requires forall k :: 0 <= k < |refs| ==> refs[k] < |inputs|
    ensures forall b :: b in m <==> exists k :: 0 <= k < |refs| && b in inputs[refs[k]].inputMask
  {
    if refs == [] then {}
    else
      var m0 := InputsMask(inputs, refs[..|refs| - 1]);
      assert forall k :: 0 <= k < |refs| - 1 ==> refs[..|refs| - 1][k] == refs[k];
      m0 + inputs[refs[|refs| - 1]].inputMask
  }

  /** `getTriggerClassMask`: the OR of all class masks. */
  function ClassMask(classes: seq<CTPClass>): (m: Mask)
    ensures forall b :: b in m <==> exists k :: 0 <= k < |classes| && b in classes[k].classMask
  {
    if classes == [] then {}
    else
      var m0 := ClassMask(classes[..|classes| - 1]);
      assert forall k :: 0 <= k < |classes| - 1 ==> classes[..|classes| - 1][k] == classes[k];
      m0 + classes[|classes| - 1].classMask
  }

  /** The name the registry is asked for: upper-cased in the inferred-section
      dialect, as written in the explicit-header one. */
  function RegistryKey(name: string, capitalise: bool): string
  {
    if capitalise then UpperString(name) else name
  }

  /** The OR of the registry masks of the named detectors: a cluster's
      detector mask. */
  function DetectorsMask(reg: Registry, names: seq<string>, capitalise: bool): (m: Mask)
    ensures forall b :: b in m <==> exists k :: 0 <= k < |names| && b in reg.resolve(RegistryKey(names[k], capitalise)).mask
  {
    if names == [] then {}
    else
      var m0 := DetectorsMask(reg, names[..|names| - 1], capitalise);
      assert forall k :: 0 <= k < |names| - 1 ==> names[..|names| - 1][k] == names[k];
      m0 + reg.resolve(RegistryKey(names[|names| - 1], capitalise)).mask
  }

  /** The position of the first occurrence of `x` in `xs`, if any. */
  function FirstIndex(xs: seq<string>, x: string): (r: Option<nat>)
    ensures r.Some? ==> r.value < |xs| && xs[r.value] == x && forall k :: 0 <= k < r.value ==> xs[k] != x
    ensures r.None? <==> x !in xs
  {
    if xs == [] then None
    else
      var r0 := FirstIndex(xs[..|xs| - 1], x);
      assert forall k :: 0 <= k < |xs| - 1 ==> xs[..|xs| - 1][k] == xs[k];
      assert xs == xs[..|xs| - 1] + [xs[|xs| - 1]];
      if r0.Some? then r0
      else if xs[|xs| - 1] == x then Some(|xs| - 1)
      else None
  }

  /** The names of a collection's entries, in order: the key every
      name lookup of the configuration scans. */
  function Names<T>(s: seq<T>, name: T -> string): (r: seq<string>)
    ensures |r| == |s| && forall k :: 0 <= k < |r| ==> r[k] == name(s[k])
  {
    seq(|s|, k requires 0 <= k < |s| => name(s[k]))
  }

  function InputName(x: CTPInput): string { x.name }
  function DescriptorName(x: CTPDescriptor): string { x.name }
  function ClusterName(x: CTPCluster): string { x.name }
  function BCMaskName(x: BCMask): string { x.name }

  /** `isInputInConfig`: the first input with that name, or none (the null
      pointer). */
  function FindInput(inputs: seq<CTPInput>, name: string): (r: Option<nat>)
    ensures r.Some? ==> r.value < |inputs| && inputs[r.value].name == name
                        && forall k :: 0 <= k < r.value ==> inputs[k].name != name
    ensures r.None? <==> forall k :: 0 <= k < |inputs| ==> inputs[k].name != name
  {
    var r := FirstIndex(Names(inputs, InputName), name);
    assert r.None? ==> forall k :: 0 <= k < |inputs| ==> Names(inputs, InputName)[k] != name;
    r
  }

  /** The first descriptor with that name, or none. */
  function FindDescriptor(descriptors: seq<CTPDescriptor>, name: string): (r: Option<nat>)
    ensures r.Some? ==> r.value < |descriptors| && descriptors[r.value].name == name
                        && forall k :: 0 <= k < r.value ==> descriptors[k].name != name
    ensures r.None? <==> forall k :: 0 <= k < |descriptors| ==> descriptors[k].name != name
  {
    var r := FirstIndex(Names(descriptors, DescriptorName), name);
    assert r.None? ==> forall k :: 0 <= k < |descriptors| ==> Names(descriptors, DescriptorName)[k] != name;
    r
  }

  /** The first cluster with that name, or none. */
  function FindCluster(clusters: seq<CTPCluster>, name: string): (r: Option<nat>)
    ensures r.Some? ==> r.value < |clusters| && clusters[r.value].name == name
                        && forall k :: 0 <= k < r.value ==> clusters[k].name != name
    ensures r.None? <==> forall k :: 0 <= k < |clusters| ==> clusters[k].name != name
  {
    var r := FirstIndex(Names(clusters, ClusterName), name);
    assert r.None? ==> forall k :: 0 <= k < |clusters| ==> Names(clusters, ClusterName)[k] != name;
    r
  }

  /** `getInputMask`: the mask of the first input of that name, 0 if none. */
  function InputMaskOf(inputs: seq<CTPInput>, name: string): Mask
  {
    match FindInput(inputs, name)
    case Some(k) => inputs[k].inputMask
    case None => {}
  }

  /** The sentinel `getDecrtiptorInputsMask` returns for an unknown name:
      0xffffffff, the low 32 bits. */
  function UnknownDescriptorMask(): Mask
  {
    BitsOf(0xFFFF_FFFF)
  }

  /** `getDecrtiptorInputsMask`: the inputs mask of the first descriptor of
      that name, the sentinel if none. */
  function DescriptorInputsMaskOf(cfg: ConfigState, name: string): Mask
    requires DescriptorsResolve(cfg)
  {
    match FindDescriptor(cfg.descriptors, name)
    case Some(k) =>
      assert cfg.descriptors[k] in cfg.descriptors;
      InputsMask(cfg.inputs, cfg.descriptors[k].inputs)
    case None => UnknownDescriptorMask()
  }

  /** Adding inputs does not change what an existing descriptor's references
      denote: its mask is the same after the input list has grown. */
  lemma {:induction false} InputsMaskStable(inputs: seq<CTPInput>, more: seq<CTPInput>, refs: seq<nat>)
    requires forall k :: 0 <= k < |refs| ==> refs[k] < |inputs|
    ensures forall k :: 0 <= k < |refs| ==> refs[k] < |inputs + more|
    ensures InputsMask(inputs + more, refs) == InputsMask(inputs, refs)
  {
    if refs != [] {
      InputsMaskStable(inputs, more, refs[..|refs| - 1]);
      assert (inputs + more)[refs[|refs| - 1]] == inputs[refs[|refs| - 1]];
    }
  }

  /** The class mask of one more class is the old mask ORed with its mask; in
      particular adding a class never clears a bit. */
  lemma ClassMaskAppend(classes: seq<CTPClass>, c: CTPClass)
    ensures ClassMask(classes + [c]) == ClassMask(classes) + c.classMask
  {
    assert (classes + [c])[..|classes|] == classes;
  }

  /** The inputs mask of a descriptor fits in 64 bits when every input mask
      does. */
  lemma InputsMaskFits(inputs: seq<CTPInput>, refs: seq<nat>)
    requires forall k :: 0 <= k < |refs| ==> refs[k] < |inputs|
    requires forall i :: i in inputs ==> FitsIn(i.inputMask, 64)
    ensures FitsIn(InputsMask(inputs, refs), 64)
  {
    forall b | b in InputsMask(inputs, refs) ensures b < 64 {
      var k :| 0 <= k < |refs| && b in inputs[refs[k]].inputMask;
      assert inputs[refs[k]] in inputs;
    }
  }

  /** The inputs of one detector, in configuration order. */
  function InputsOfDetector(inputs: seq<CTPInput>, id: int): (r: seq<CTPInput>)
    ensures forall x :: x in r <==> x in inputs && x.detID == id
    ensures |r| <= |inputs|
  {
    if inputs == [] then []
    else
      var front := inputs[..|inputs| - 1];
      var last := inputs[|inputs| - 1];
      assert inputs == front + [last];
      InputsOfDetector(front, id) + (if last.detID == id then [last] else [])
  }

  /** The detector ids the inputs carry. */
  function DetectorIds(inputs: seq<CTPInput>): (r: set<int>)
    ensures forall id :: id in r <==> exists k :: 0 <= k < |inputs| && inputs[k].detID == id
  {
    if inputs == [] then {}
    else
      var front := inputs[..|inputs| - 1];
      assert forall k :: 0 <= k < |front| ==> front[k] == inputs[k];
      DetectorIds(front) + {inputs[|inputs| - 1].detID}
  }

  /** A detector without inputs has an empty list. */
  lemma {:induction false} NoInputsOfOtherDetector(inputs: seq<CTPInput>, id: int)
    ensures id !in DetectorIds(inputs) ==> InputsOfDetector(inputs, id) == []
  {
    if inputs != [] && id !in DetectorIds(inputs) {
      var front := inputs[..|inputs| - 1];
      assert id !in DetectorIds(front);
      NoInputsOfOtherDetector(front, id);
    }
  }

  /** `getDet2InputMap`: the inputs grouped by detector id, each input
      appended to the list of its detector. */
  function Det2InputMap(inputs: seq<CTPInput>): (m: map<int, seq<CTPInput>>)
    ensures forall id :: id in m ==> m[id] != []
  {
    if inputs == [] then map[]
    else
      var m := Det2InputMap(inputs[..|inputs| - 1]);
      var last := inputs[|inputs| - 1];
      m[last.detID := (if last.detID in m then m[last.detID] else []) + [last]]
  }

  /** The grouping is exact: the keys are the detector ids the inputs carry,
      and each detector is mapped to exactly its inputs, in order. */
  lemma {:induction false} Det2InputMapGroups(inputs: seq<CTPInput>)
    ensures Det2InputMap(inputs).Keys == DetectorIds(inputs)
    ensures forall id :: id in Det2InputMap(inputs) ==> Det2InputMap(inputs)[id] == InputsOfDetector(inputs, id)
  {
    if inputs != [] {
      var front := inputs[..|inputs| - 1];
      var last := inputs[|inputs| - 1];
      Det2InputMapGroups(front);
      NoInputsOfOtherDetector(front, last.detID);
      assert DetectorIds(inputs) == DetectorIds(front) + {last.detID};
      var m := Det2InputMap(inputs);
      forall id | id in m
        ensures m[id] == InputsOfDetector(inputs, id)
      {
        assert InputsOfDetector(inputs, id) == InputsOfDetector(front, id) + (if last.detID == id then [last] else []);
      }
    }
  }
}
