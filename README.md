# CTP configuration, TRD event records and the EMCAL write-out buffer in Dafny

This project models three parts of the O2 framework.

**The Central Trigger Processor configuration** (`CTPConfiguration`) and its run manager (`CTPRunManager`).
- A configuration holds:
  - bunch-crossing masks;
  - trigger inputs;
  - descriptors, which combine inputs;
  - detectors;
  - clusters, which are groups of detectors;
  - trigger classes.
- It is read from text in one of two dialects:
  - the header dialect, where sections are introduced by `PARTITION:`, `VERSION:`, `INPUTS:`, `DESCRIPTORS:`, `CLUSTERS:` and `CLASSES:`;
  - the Run 3 dialect, where the section of each line is inferred from keywords (`run`, `bcm`, `LTG`, `cluster`, generator names) and from the previous line's section.
- Masks are modelled as sets of bit positions.
- The detector registry is modelled as a parameter that maps a name to an id and a mask.
- `isDetector` is the predicate `CtpTypes.IsDetector`.
- The run manager:
  - starts runs with a freshly parsed configuration;
  - reads scaler records, whose leading counters name the runs still taking data;
  - stops every run that a record no longer names, writing its configuration to the conditions database;
  - builds the scaler-name index.

**The TRD event-record container** (`EventRecordContainer`).
- It keeps one event record per interaction.
- It sorts tracklets and digits by pad: detector, then pad row, then pad column.
- It flattens the records into tracklet, digit and trigger-record vectors; each trigger record holds offsets into the flattened vectors.
- It accumulates per-time-frame counts.
- It serialises configuration events.

**The EMCAL digits write-out buffer** (`DigitsWriteoutBuffer`).
- It is a queue of time slots, each mapping a tower to its digits.
- A marker moves through the queue. Slots in front of the marker are dropped once the marker is more than 15 slots in.

Pure logic is written as functions with lemmas about them. State-changing code is written as classes whose methods are specified against those functions:
- `CtpConfiguration.CTPConfiguration`;
- `CtpRunManager.CTPRunManager`;
- `TrdEventRecord.EventRecordContainer`;
- `EmcalWriteoutBuffer.DigitsWriteoutBuffer`.

String handling (`trim`, `tokenize`, `toupper`, `find`, `stoull`) lives in module `Text`.

## Model

| member | source | states |
|---|---|---|
| Text.SplitJoin | DataFormats/Detectors/CTP/src/Configuration.cxx:163 | splitting a line at the delimiter loses nothing: joining the pieces with the delimiter gives the line back |
| Text.Lines | DataFormats/Detectors/CTP/src/Configuration.cxx:129 | the lines `getline` yields contain no newline, and empty text yields no line |
| Text.Trim | DataFormats/Detectors/CTP/src/Configuration.cxx:130 | the trimmed line starts and ends with a non-space, keeps only characters of the line, and is empty for an all-blank line |
| Text.TrimIdempotent | DataFormats/Detectors/CTP/src/Configuration.cxx:130 | trimming an already trimmed line changes nothing |
| Text.Tokenize | DataFormats/Detectors/CTP/src/Configuration.cxx:337 | every token is non-empty, contains no delimiter, and starts and ends with a non-space |
| Text.TokenizeBlank | DataFormats/Detectors/CTP/src/Configuration.cxx:337-341 | a line of only blanks and delimiters has no tokens (the zero-token early return) |
| Text.Find | DataFormats/Detectors/CTP/src/Configuration.cxx:312 | `find` returns the first position where the pattern occurs, and returns none exactly when the pattern occurs nowhere |
| Text.ToUpper | DataFormats/Detectors/CTP/src/Configuration.cxx:37-42 | the result is never a lower-case letter; a lower-case letter moves down by 32; anything else is unchanged |
| Text.UpperString | DataFormats/Detectors/CTP/src/Configuration.cxx:37-42 | the result has the same length, no lower-case letter, and every other character in place |
| Text.UpperStringAt | DataFormats/Detectors/CTP/src/Configuration.cxx:37-42 | capitalising a string applies `toupper` to each character |
| Text.UpperStringIdempotent | DataFormats/Detectors/CTP/src/Configuration.cxx:37-42 | capitalising twice is the same as capitalising once |
| Text.DigitRun | DataFormats/Detectors/CTP/src/Configuration.cxx:359 | the digit run is the longest prefix of digits in the radix |
| Text.ParseUnsigned | DataFormats/Detectors/CTP/src/Configuration.cxx:359 | a value that `stoull` accepts is below 2^64 |
| Text.ParseRejectsNonNumeric | DataFormats/Detectors/CTP/src/Configuration.cxx:358-363 | a token that starts with neither a blank, a sign nor a digit is rejected, which is the path where `stoull` throws |
| Text.ParseDecimal | DataFormats/Detectors/CTP/src/Configuration.cxx:412 | the decimal rendering of every number below 2^64 parses back to that number |
| Text.ParseDigits | DataFormats/Detectors/CTP/src/Configuration.cxx:209 | a string made only of digits, whose value fits in 64 bits, parses to that value |
| CtpTypes.BitsOfFits | DataFormats/Detectors/CTP/src/Configuration.cxx:359 | a number below 2^w sets only bit positions below w, so a parsed 64-bit mask fits in 64 bits |
| CtpQueries.InputsMask | DataFormats/Detectors/CTP/src/Configuration.cxx:61-68 | a bit is in a descriptor's input mask iff some input the descriptor refers to sets it |
| CtpQueries.ClassMask | DataFormats/Detectors/CTP/src/Configuration.cxx:548-555 | a bit is in the trigger-class mask iff some class sets it |
| CtpQueries.DetectorsMask | DataFormats/Detectors/CTP/src/Configuration.cxx:392-397 | a bit is in a cluster mask iff the registry mask of some member detector sets it |
| CtpQueries.FirstIndex | DataFormats/Detectors/CTP/src/Configuration.cxx:418 | `find_if` returns the first matching position, and returns none iff no element matches |
| CtpQueries.FindInput | DataFormats/Detectors/CTP/src/Configuration.cxx:522-530 | the found input has the name, no earlier input has it, and none is found iff no input has the name |
| CtpQueries.FindDescriptor | DataFormats/Detectors/CTP/src/Configuration.cxx:418-424 | the found descriptor has the name, no earlier one has it, and none is found iff no descriptor has the name |
| CtpQueries.FindCluster | DataFormats/Detectors/CTP/src/Configuration.cxx:427-433 | the found cluster has the name, no earlier one has it, and none is found iff no cluster has the name |
| CtpQueries.InputsMaskStable | DataFormats/Detectors/CTP/src/Configuration.cxx:61-68 | appending inputs does not change the mask of a descriptor that refers to earlier inputs |
| CtpQueries.ClassMaskAppend | DataFormats/Detectors/CTP/src/Configuration.cxx:463-466 | adding a class ORs its class mask into the trigger-class mask |
| CtpQueries.InputsMaskFits | DataFormats/Detectors/CTP/src/Configuration.cxx:61-68 | the OR of 64-bit input masks is a 64-bit mask |
| CtpQueries.InputsOfDetector | DataFormats/Detectors/CTP/src/Configuration.cxx:540-547 | the group of a detector holds exactly the inputs with that detector id |
| CtpQueries.DetectorIds | DataFormats/Detectors/CTP/src/Configuration.cxx:540-547 | an id is listed iff some input carries it |
| CtpQueries.NoInputsOfOtherDetector | DataFormats/Detectors/CTP/src/Configuration.cxx:540-547 | a detector that no input names has an empty group |
| CtpQueries.Det2InputMap | DataFormats/Detectors/CTP/src/Configuration.cxx:540-547 | no detector is mapped to an empty group |
| CtpQueries.Det2InputMapGroups | DataFormats/Detectors/CTP/src/Configuration.cxx:540-547 | the map's keys are exactly the detector ids of the inputs, and each key maps to that detector's inputs in their original order |
| HeaderDialect.ResolveInputs | DataFormats/Detectors/CTP/src/Configuration.cxx:373-381 | all descriptor items resolve iff every item names an input; the references point at the named inputs; otherwise a missing item is reported |
| HeaderDialect.HeaderIndex | DataFormats/Detectors/CTP/src/Configuration.cxx:312-335 | the returned keyword occurs in the line, and no earlier keyword does; none is returned iff no keyword occurs |
| HeaderDialect.HeaderEffect | DataFormats/Detectors/CTP/src/Configuration.cxx:312-335 | a keyword line changes at most the name or the version, and adds no entity |
| HeaderDialect.InputsLine | DataFormats/Detectors/CTP/src/Configuration.cxx:343-366 | an accepted INPUTS line changes only the inputs and stays in section 1 |
| HeaderDialect.DescriptorsLine | DataFormats/Detectors/CTP/src/Configuration.cxx:367-385 | an accepted DESCRIPTORS line changes only the descriptors and stays in section 3 |
| HeaderDialect.ClustersLine | DataFormats/Detectors/CTP/src/Configuration.cxx:386-401 | a CLUSTERS line always appends exactly one cluster and changes nothing else |
| HeaderDialect.ClassesLine | DataFormats/Detectors/CTP/src/Configuration.cxx:402-436 | an accepted CLASSES line changes only the classes and stays in section 7 |
| HeaderDialect.BodyLine | DataFormats/Detectors/CTP/src/Configuration.cxx:337-441 | a section line only appends to the configuration, adds at most one entity, and keeps the descriptors' input references valid |
| HeaderDialect.StepHeader | DataFormats/Detectors/CTP/src/Configuration.cxx:303-442 | a line only appends, adds at most one entity, and keeps descriptor references valid |
| HeaderDialect.LoadLines | DataFormats/Detectors/CTP/src/Configuration.cxx:138-152 | loading only appends to the starting configuration, and an abort names a line of the text |
| HeaderDialect.HeaderIndexFirst | DataFormats/Detectors/CTP/src/Configuration.cxx:311-335 | the keyword checks are tried in source order: the first keyword present wins |
| HeaderDialect.HeaderLine | DataFormats/Detectors/CTP/src/Configuration.cxx:311-335 | PARTITION and VERSION set the name and version to the trimmed rest of the line after the keyword is erased; the section keywords set levels 1, 3, 4 and 7 |
| HeaderDialect.PartitionLine | DataFormats/Detectors/CTP/src/Configuration.cxx:312-315 | a "PARTITION:" line names the configuration after its trimmed rest |
| HeaderDialect.VersionLine | DataFormats/Detectors/CTP/src/Configuration.cxx:316-319 | a "VERSION:" line sets the version to its trimmed rest |
| HeaderDialect.ClassesLineEffect | DataFormats/Detectors/CTP/src/Configuration.cxx:402-436 | the abort cases in their order of checking (count, mask, descriptor, cluster); otherwise exactly that class is appended |
| HeaderDialect.DescriptorsLineEffect | DataFormats/Detectors/CTP/src/Configuration.cxx:367-385 | an item that names no input aborts with that item; otherwise one descriptor is appended, carrying its name and the indices of its inputs |
| HeaderDialect.ClusterLineMask | DataFormats/Detectors/CTP/src/Configuration.cxx:386-401 | a two-detector cluster's mask is the union of the two registry masks |
| HeaderDialect.AbortIsFirstFailure | DataFormats/Detectors/CTP/src/Configuration.cxx:145-150 | every line before the aborting one loads cleanly |
| HeaderDialect.AbortIgnoresRest | DataFormats/Detectors/CTP/src/Configuration.cxx:145-150 | lines after the aborting one have no influence on the outcome |
| HeaderDialect.LoadKeepsDescriptorsResolved | DataFormats/Detectors/CTP/src/Configuration.cxx:367-385 | after a successful load, every descriptor still refers only to existing inputs |
| Run3Dialect.InferLevel | DataFormats/Detectors/CTP/src/Configuration.cxx:169-191 | "run" wins; generators give GENS; MASKS, LTGitems and CLASS persist only from the previous level; LTG and cluster come from their keyword or the previous level |
| Run3Dialect.ParseAll | DataFormats/Detectors/CTP/src/Configuration.cxx:206-215 | item k of a mask line is parsed into slot k |
| Run3Dialect.BunchesOf | DataFormats/Detectors/CTP/src/Configuration.cxx:206-215 | every collected crossing is inside the orbit, and a failure reports a crossing outside it |
| Run3Dialect.BunchesOfFails | DataFormats/Detectors/CTP/src/Configuration.cxx:214 | collecting succeeds iff every parsed item's 32-bit value lies inside the orbit |
| Run3Dialect.BunchesOfReports | DataFormats/Detectors/CTP/src/Configuration.cxx:214 | the reported crossing is the value of some parsed item |
| Run3Dialect.BunchesOfBits | DataFormats/Detectors/CTP/src/Configuration.cxx:206-215 | the collected crossings are exactly the 32-bit values of the parsed items |
| Run3Dialect.MasksLine | DataFormats/Detectors/CTP/src/Configuration.cxx:198-220 | an accepted mask line changes only the BC masks and stays at MASKS |
| Run3Dialect.LtgLine | DataFormats/Detectors/CTP/src/Configuration.cxx:228-242 | an LTG line changes only the detectors and moves on to LTGitems |
| Run3Dialect.LtgItemLine | DataFormats/Detectors/CTP/src/Configuration.cxx:243-249 | a one-item line sets the mode of the last detector, and faults iff there is none; any other line changes nothing |
| Run3Dialect.ClusterLine | DataFormats/Detectors/CTP/src/Configuration.cxx:250-274 | it stops at CLUSTER iff the hardware mask does not parse; a parsed line with fewer than three items faults with `MissingItem(3)`; otherwise it moves to CLASS and appends exactly one cluster, named by the third item, whose hardware mask is the parsed first item and whose mask is the OR of the registry masks of the upper-cased detectors from the fourth item on |
| Run3Dialect.ClassLine | DataFormats/Detectors/CTP/src/Configuration.cxx:275-293 | it stops at CLASS iff the index does not parse; otherwise nothing changes |
| Run3Dialect.Act | DataFormats/Detectors/CTP/src/Configuration.cxx:193-297 | a line only appends, adds at most one entity, never touches inputs or descriptors, and stops only at CLUSTER or CLASS; a RUN line keeps the low 32 bits of its number |
| Run3Dialect.StepRun3 | DataFormats/Detectors/CTP/src/Configuration.cxx:153-302 | the same per-line guarantees, with blank, comment and token-less lines included |
| Run3Dialect.LoadRun3Lines | DataFormats/Detectors/CTP/src/Configuration.cxx:129-135 | loading only appends, and a stop or fault names a line of the text (and its level) |
| Run3Dialect.InferencePrecedence | DataFormats/Detectors/CTP/src/Configuration.cxx:177-191 | the keyword order bcm, LTG, cluster; otherwise the level becomes UNKNOWN unless it was LTGitems or CLASS |
| Run3Dialect.MaskLineBits | DataFormats/Detectors/CTP/src/Configuration.cxx:198-220 | a list mask whose crossings lie in the orbit is appended under its name, setting exactly the crossings its items parse to; unparsable items are skipped |
| Run3Dialect.MaskLineOutOfOrbit | DataFormats/Detectors/CTP/src/Configuration.cxx:207-214 | an item whose crossing lies outside the orbit makes the line fault (the `bitset::set` range error) |
| Run3Dialect.SyntaxErrorStops | DataFormats/Detectors/CTP/src/Configuration.cxx:250-283 | an unparsable first item in a cluster or class line stops the parse with that level |
| Run3Dialect.StopIsFirst | DataFormats/Detectors/CTP/src/Configuration.cxx:129-134 | the lines before the stopping line load cleanly to the configuration the stop reports |
| Run3Dialect.SeedClassKept | DataFormats/Detectors/CTP/src/Configuration.cxx:121-123 | the class "test" pushed before parsing stays right after the classes that were already there |
| Run3Dialect.LoadKeepsDescriptorsResolved | DataFormats/Detectors/CTP/src/Configuration.cxx:119-137 | a Run 3 load keeps descriptor references valid |
| CtpConfiguration.CTPConfiguration.SetRunNumber | DataFormats/Detectors/CTP/src/Configuration.cxx:580 | only the run number changes |
| CtpConfiguration.CTPConfiguration.AddBCMask | DataFormats/Detectors/CTP/src/Configuration.cxx:443-446 | the mask is appended and nothing else changes |
| CtpConfiguration.CTPConfiguration.AddCTPInput | DataFormats/Detectors/CTP/src/Configuration.cxx:447-450 | the input is appended and nothing else changes |
| CtpConfiguration.CTPConfiguration.AddCTPDescriptor | DataFormats/Detectors/CTP/src/Configuration.cxx:451-454 | the descriptor is appended and nothing else changes |
| CtpConfiguration.CTPConfiguration.AddCTPDetector | DataFormats/Detectors/CTP/src/Configuration.cxx:455-458 | the detector is appended and nothing else changes |
| CtpConfiguration.CTPConfiguration.AddCTPCluster | DataFormats/Detectors/CTP/src/Configuration.cxx:459-462 | the cluster is appended and nothing else changes |
| CtpConfiguration.CTPConfiguration.AddCTPClass | DataFormats/Detectors/CTP/src/Configuration.cxx:463-466 | the class is appended and nothing else changes |
| CtpConfiguration.CTPConfiguration.CapitaliseString | DataFormats/Detectors/CTP/src/Configuration.cxx:37-42 | the buffer is capitalised in place |
| CtpConfiguration.CTPConfiguration.Capitalised | DataFormats/Detectors/CTP/src/Configuration.cxx:231 | the copy that is passed to the registry is the capitalised name |
| CtpConfiguration.CTPConfiguration.GetInputMask | DataFormats/Detectors/CTP/src/Configuration.cxx:495-503 | the mask of the first input with the name, and 0 when none has it |
| CtpConfiguration.CTPConfiguration.IsMaskInInputs | DataFormats/Detectors/CTP/src/Configuration.cxx:504-512 | true iff some input has exactly this mask |
| CtpConfiguration.CTPConfiguration.IsBCMaskInConfig | DataFormats/Detectors/CTP/src/Configuration.cxx:513-521 | true iff some BC mask has the name |
| CtpConfiguration.CTPConfiguration.IsInputInConfig | DataFormats/Detectors/CTP/src/Configuration.cxx:522-530 | the position of the first input with the name, or none |
| CtpConfiguration.CTPConfiguration.DescriptorInputsMask | DataFormats/Detectors/CTP/src/Configuration.cxx:61-68 | the OR of the masks of the descriptor's inputs |
| CtpConfiguration.CTPConfiguration.GetDecrtiptorInputsMask | DataFormats/Detectors/CTP/src/Configuration.cxx:531-539 | the inputs mask of the first descriptor with the name, and the 0xffffffff sentinel when none has it |
| CtpConfiguration.CTPConfiguration.GetDet2InputMap | DataFormats/Detectors/CTP/src/Configuration.cxx:540-547 | the inputs grouped by detector id, in order |
| CtpConfiguration.CTPConfiguration.GetTriggerClassMask | DataFormats/Detectors/CTP/src/Configuration.cxx:548-555 | the OR of all class masks |
| CtpConfiguration.CTPConfiguration.GetTriggerClassList | DataFormats/Detectors/CTP/src/Configuration.cxx:556-566 | exactly the bit positions below 64 set in the class mask, strictly increasing |
| CtpConfiguration.CTPConfiguration.ProcessInputsLine | DataFormats/Detectors/CTP/src/Configuration.cxx:343-366 | the object changes and reports exactly as the INPUTS rule prescribes |
| CtpConfiguration.CTPConfiguration.ProcessDescriptorsLine | DataFormats/Detectors/CTP/src/Configuration.cxx:367-385 | the object changes and reports exactly as the DESCRIPTORS rule prescribes |
| CtpConfiguration.CTPConfiguration.ResolveItems | DataFormats/Detectors/CTP/src/Configuration.cxx:373-381 | the lookup loop computes the resolution of the items |
| CtpConfiguration.CTPConfiguration.ProcessClustersLine | DataFormats/Detectors/CTP/src/Configuration.cxx:386-401 | the object changes exactly as the CLUSTERS rule prescribes |
| CtpConfiguration.CTPConfiguration.ProcessClassesLine | DataFormats/Detectors/CTP/src/Configuration.cxx:402-436 | the object changes and reports exactly as the CLASSES rule prescribes |
| CtpConfiguration.CTPConfiguration.ProcessConfigurationLine | DataFormats/Detectors/CTP/src/Configuration.cxx:303-442 | one header-dialect line changes the object as the line rule prescribes |
| CtpConfiguration.CTPConfiguration.LoadConfiguration | DataFormats/Detectors/CTP/src/Configuration.cxx:138-152 | the loop over the lines ends in the state and status of the header-dialect load |
| CtpConfiguration.CTPConfiguration.ProcessMasksLine | DataFormats/Detectors/CTP/src/Configuration.cxx:198-220 | the object changes and reports exactly as the mask-line rule prescribes |
| CtpConfiguration.CTPConfiguration.MaskBunches | DataFormats/Detectors/CTP/src/Configuration.cxx:206-215 | the item loop collects the crossings or meets the first crossing outside the orbit |
| CtpConfiguration.CTPConfiguration.ProcessLtgLine | DataFormats/Detectors/CTP/src/Configuration.cxx:228-242 | the object changes exactly as the LTG rule prescribes |
| CtpConfiguration.CTPConfiguration.ProcessLtgItemLine | DataFormats/Detectors/CTP/src/Configuration.cxx:243-249 | the object changes exactly as the LTG-item rule prescribes |
| CtpConfiguration.CTPConfiguration.ProcessClusterLine | DataFormats/Detectors/CTP/src/Configuration.cxx:250-274 | the object changes exactly as the cluster rule prescribes |
| CtpConfiguration.CTPConfiguration.Run3Act | DataFormats/Detectors/CTP/src/Configuration.cxx:193-297 | the switch on the level changes the object as the level's rule prescribes |
| CtpConfiguration.CTPConfiguration.ProcessConfigurationLineRun3 | DataFormats/Detectors/CTP/src/Configuration.cxx:153-302 | one Run 3 line changes the object as the line rule prescribes |
| CtpConfiguration.CTPConfiguration.LoadConfigurationRun3 | DataFormats/Detectors/CTP/src/Configuration.cxx:119-137 | the seeded loop over the lines ends in the state and status of the Run 3 load |
| CtpConfiguration.ResolveStopsAtMissing | DataFormats/Detectors/CTP/src/Configuration.cxx:375-377 | resolution reports the first item that names no input |
| CtpConfiguration.BunchesStopAtOutOfRange | DataFormats/Detectors/CTP/src/Configuration.cxx:214 | collecting reports the first crossing outside the orbit |
| CtpRunManager.AscendingMembers | DataFormats/Detectors/CTP/src/Configuration.cxx:621 | iterating the run table visits exactly its run numbers |
| CtpRunManager.AscendingIncreasing | DataFormats/Detectors/CTP/src/Configuration.cxx:621 | iterating the run table visits run numbers in increasing order |
| CtpRunManager.Marked | DataFormats/Detectors/CTP/src/Configuration.cxx:609-620 | marking keeps the set of runs |
| CtpRunManager.Swept | DataFormats/Detectors/CTP/src/Configuration.cxx:621-629 | the sweep keeps the set of runs |
| CtpRunManager.Stops | DataFormats/Detectors/CTP/src/Configuration.cxx:621-625 | at most one database write per visited run |
| CtpRunManager.StopsOnlyStopped | DataFormats/Detectors/CTP/src/Configuration.cxx:621-625 | every write belongs to a run that was not marked, and records its start, its new end and its configuration |
| CtpRunManager.StopsWritesEachStopped | DataFormats/Detectors/CTP/src/Configuration.cxx:621-625 | every unmarked run that is visited is written |
| CtpRunManager.StopsInRunOrder | DataFormats/Detectors/CTP/src/Configuration.cxx:621-625 | the writes come in increasing run-number order |
| CtpRunManager.ScalerRecordOutcome | DataFormats/Detectors/CTP/src/Configuration.cxx:609-629 | after a record: the same runs, all marks cleared, configurations and start times kept; a run that was named or already marked keeps its end; any other run ends now |
| CtpRunManager.SeenHolds | DataFormats/Detectors/CTP/src/Configuration.cxx:609-612 | a non-zero leading counter (read as 32 bits) names a run |
| CtpRunManager.Positions | DataFormats/Detectors/CTP/src/Configuration.cxx:687-689 | the index has exactly the scaler names as keys |
| CtpRunManager.PositionIsLast | DataFormats/Detectors/CTP/src/Configuration.cxx:687-689 | a repeated name maps to its last position |
| CtpRunManager.CTPRunManager.StartRun | DataFormats/Detectors/CTP/src/Configuration.cxx:568-584 | the run is entered under the manager's run number, marked, with start time now and no end, holding the Run 3 parse of the text stamped with that run number, and 0 is returned; a parse that throws (an unparsable run number, a crossing outside the orbit) leaves the table unchanged and the exception is the result |
| CtpRunManager.CTPRunManager.LoadRunConfiguration | DataFormats/Detectors/CTP/src/Configuration.cxx:575-580 | a load that throws is reported as that exception; otherwise the configuration is the Run 3 parse of the text into a fresh configuration, with the run number set |
| CtpRunManager.CTPRunManager.StopRun | DataFormats/Detectors/CTP/src/Configuration.cxx:656-675 | a known run gets end time now, its configuration is written with its start and end, and it stays in the table; an unknown run returns 1 and changes nothing |
| CtpRunManager.CTPRunManager.ProcessScalers | DataFormats/Detectors/CTP/src/Configuration.cxx:596-631 | a wrong item count returns 1 and changes nothing; otherwise the counters are stored, the runs they name are marked, and the sweep's state and writes follow |
| CtpRunManager.CTPRunManager.StoreCounters | DataFormats/Detectors/CTP/src/Configuration.cxx:605-607 | counter i takes the value of item i; counter 0 is kept |
| CtpRunManager.CTPRunManager.MarkRuns | DataFormats/Detectors/CTP/src/Configuration.cxx:609-620 | exactly the runs named by the leading counters become marked |
| CtpRunManager.CTPRunManager.Sweep | DataFormats/Detectors/CTP/src/Configuration.cxx:621-629 | the table becomes the swept table, and the writes are the stops in run-number order |
| CtpRunManager.CTPRunManager.SweepRun | DataFormats/Detectors/CTP/src/Configuration.cxx:622-628 | one visited run is stopped or unmarked |
| CtpRunManager.CTPRunManager.LoadScalerNames | DataFormats/Detectors/CTP/src/Configuration.cxx:680-691 | a count mismatch returns 1 and leaves the index alone; otherwise every name is entered at its (last) position |
| TrdEventRecord.PadBeforeStrict | Detectors/TRD/reconstruction/src/EventRecord.cxx:46-50 | the pad ordering is irreflexive, asymmetric and transitive, as `std::sort` needs |
| TrdEventRecord.SortByPad | Detectors/TRD/reconstruction/src/EventRecord.cxx:51 | the array ends sorted by pad and is a permutation of what it held |
| TrdEventRecord.SortData | Detectors/TRD/reconstruction/src/EventRecord.cxx:44-57 | tracklets are sorted by pad as a permutation; digits are sorted likewise when asked and untouched otherwise; nothing else changes |
| TrdEventRecord.Triggers | Detectors/TRD/reconstruction/src/EventRecord.cxx:70-78 | one trigger record per event record |
| TrdEventRecord.TriggerIndexesItsDigits | Detectors/TRD/reconstruction/src/EventRecord.cxx:73-75 | trigger k carries event k's interaction; its digit range in the flattened digits is exactly event k's digits |
| TrdEventRecord.TriggerIndexesItsTracklets | Detectors/TRD/reconstruction/src/EventRecord.cxx:72-76 | trigger k's tracklet range in the flattened tracklets is exactly event k's tracklets |
| TrdEventRecord.CalibCount | Detectors/TRD/reconstruction/src/EventRecord.cxx:108-110 | at most one calibration trigger per record |
| TrdEventRecord.ConfigEventRoundTrip | Detectors/TRD/reconstruction/src/EventRecord.cxx:143-157 | a configuration event is 9 words plus its payload, and reading it back recovers the orbit, the four headers, the payload and whatever follows |
| TrdEventRecord.CountersOf | Detectors/TRD/reconstruction/src/EventRecord.cxx:77 | one counter block per record, in order |
| TrdEventRecord.EventRecordContainer.SetCurrentEventRecord | Detectors/TRD/reconstruction/src/EventRecord.cxx:114-129 | a known interaction selects its last record and adds none; an unknown one appends a fresh record and selects it |
| TrdEventRecord.EventRecordContainer.Reset | Detectors/TRD/reconstruction/src/EventRecord.cxx:131-137 | records, statistics and configuration events are cleared; the current index is kept |
| TrdEventRecord.EventRecordContainer.AddConfigEvent | Detectors/TRD/reconstruction/src/EventRecord.cxx:139-158 | the event is flagged present and its words are appended to the earlier ones |
| TrdEventRecord.EventRecordContainer.AccumulateStats | Detectors/TRD/reconstruction/src/EventRecord.cxx:99-112 | the trigger total is set, and tracklet, digit and calibration counts are added over all records |
| TrdEventRecord.EventRecordContainer.SendData | Detectors/TRD/reconstruction/src/EventRecord.cxx:59-97 | every record ends sorted; the outputs are the flattened digits, tracklets and trigger records, plus the statistics, link counters and configuration events when they are enabled |
| TrdEventRecord.EventRecordContainer.SortAndCollect | Detectors/TRD/reconstruction/src/EventRecord.cxx:70-78 | the loop sorts every record and builds the flattened outputs |
| EmcalWriteoutBuffer.AddTo | Detectors/EMCAL/simulation/src/DigitsWriteoutBuffer.cxx:44-49 | after adding, the slot has an entry for the tower |
| EmcalWriteoutBuffer.AddToAppends | Detectors/EMCAL/simulation/src/DigitsWriteoutBuffer.cxx:44-49 | the digit goes at the end of its tower's list, starting an empty list if needed; other towers are untouched |
| EmcalWriteoutBuffer.ForwardShifts | Detectors/EMCAL/simulation/src/DigitsWriteoutBuffer.cxx:53-67 | moving on keeps the buffer well formed; the current slot ends up just behind the marker, with a fresh slot added after it; the queue grows by one unless the front is dropped |
| EmcalWriteoutBuffer.ForwardWindow | Detectors/EMCAL/simulation/src/DigitsWriteoutBuffer.cxx:53-72 | the last n samples after moving on are the last n - 1 samples before it plus the slot that was current |
| EmcalWriteoutBuffer.DigitsWriteoutBuffer.constructor | Detectors/EMCAL/simulation/src/DigitsWriteoutBuffer.cxx:23-30 | there are nTimeBins empty slots, the marker is at the front and the reference time is 0 |
| EmcalWriteoutBuffer.DigitsWriteoutBuffer.Clear | Detectors/EMCAL/simulation/src/DigitsWriteoutBuffer.cxx:32-38 | the queue is empty, the marker is at the front and the reference time is 0 |
| EmcalWriteoutBuffer.DigitsWriteoutBuffer.AddDigit | Detectors/EMCAL/simulation/src/DigitsWriteoutBuffer.cxx:40-51 | only the slot `offset` past the marker changes: the digit is appended to its tower's list |
| EmcalWriteoutBuffer.DigitsWriteoutBuffer.ForwardMarker | Detectors/EMCAL/simulation/src/DigitsWriteoutBuffer.cxx:53-67 | the buffer moves on as `Forward` prescribes, and the reference time becomes the event time |
| EmcalWriteoutBuffer.DigitsWriteoutBuffer.GetLastNSamples | Detectors/EMCAL/simulation/src/DigitsWriteoutBuffer.cxx:69-72 | the n slots just before the marker, in order |

## Left out

- Logging, `printStream`, the standard-output traces and `printActiveRuns` are left out; they have no effect on state.
- The conditions database (`CcdbApi`) is left out. `storeConfigInCcdb` becomes an append of run, start, end and configuration to the `ccdbLog` sequence. The host setting (`setCcdbHost`) is not modelled.
- Clocks are parameters. `startRun` and `stopRun` take `now`. `processScalers` reads the clock once, and that one value is used for every run the sweep stops.
- `startRunCounters`, `updateCounters` and the per-run `CTPRunScalers` object only log; they are left out.
- CtpRunManager.CTPRunManager.ProcessScalers: the leading time stamp is read by `stod` only for a log line, so its value is not modelled. The exception `stod` throws on a non-numeric stamp, before any counter is stored, is not modelled either: such a record is processed as if its stamp were valid.
- CtpRunManager.CTPRunManager.ProcessScalers: requires every counter item to parse. The `stoull` exception on a non-numeric counter is not modelled.
- The header constants `CTPRunScalers::NCOUNTERS`, `NRUNS` and the scaler name list are constructor parameters. So are the TRD `CONFIGEVENTENDA`/`CONFIGEVENTENDB` words. The counter array is assumed to have `NCOUNTERS + 1` slots, starting at 0.
- `LHCMaxBunches` is the LHC constant 3564. The EMCAL `mNumberReadoutSamples` is 15.
- The `LOG(fatal)` in `loadScalerNames` is modelled as its `return 1`. The process abort is not modelled. In the header dialect, a `LOG(fatal)` line ends the parse with an `Abort` outcome.
- The detector registry (`o2::detectors::DetID`) is a parameter that maps names to ids and masks; its own code is not part of this model. `isDetector` is `CtpTypes.IsDetector`. In every caller except the LTG line, its result is ignored, and the model ignores it there too.
- `o2::utils::Str` is not part of this model. `trim` and `tokenize` are written as `Text.Trim` and `Text.Tokenize`.
- `std::stoull` is written as `Text.ParseUnsigned`. It accepts leading blanks, a sign (a minus negates modulo 2^64), and base 0's `0x`/`0` prefixes. Overflow above 2^64 - 1 counts as a failure. Locale-dependent behaviour is not modelled.
- In the Run 3 dialect, some things the code does not guard are modelled as an explicit `Fault` outcome instead of a precondition. These are:
  - an unchecked token index (`tokens[1]`, `tokens[2]`);
  - `mDetectors.back()` on an empty vector;
  - the uncaught `stoul` of a RUN line;
  - `bitset::set` outside the orbit.
- The Jusko (`L`/`H`) mask notation is left empty, as in the code. The mask items are read into a `uint32_t`, and the model keeps that 32-bit truncation (`Crossing`).
- Generators (GENS lines) build a local object that is never stored, and the commented-out class creation is absent from the code. Neither is modelled beyond the level change.
- In `stopRun` the run stays in the table, because the code's erase is commented out. The commented-out erase is the only sign that removal was intended; the model follows the code as it runs.
- CtpQueries.InputsMaskStable: descriptor references are indices into `inputs`, so they stay valid when inputs are appended. The code stores `CTPInput*` pointers into `mInputs`. A later INPUTS line or `addCTPInput` appends with `push_back`, which can reallocate the vector and leave those pointers dangling. Neither that invalidation nor pointers shared between copied configurations is modelled.
- HeaderDialect.LoadKeepsDescriptorsResolved: for the same reason, "every descriptor refers to an existing input" holds for the model's indices. It does not hold for the code's pointers once a later INPUTS section reallocates `mInputs`.
- The run table holds each `activeRun` by value. The configuration is snapshotted when the run starts, so pointer aliasing between the table and the configuration is not modelled.
- CtpRunManager.CTPRunManager.StartRun: the manager's `rr` is taken as an unbounded `nat` and stored as it is. The class header that fixes its width is not part of this model, so no wrap-around is applied. A RUN line of the Run 3 dialect, whose `stoul` value goes into the 32-bit `mRunNumber`, is truncated to its low 32 bits in `Run3Dialect.Act`. A load that faults without throwing (`Run3Dialect.Throws` is false: a missing item or `back()` on no detector) is undefined behaviour in the code; the model files the run with what was parsed before that line.
- The initial `Tmax` of an active run is unset (`None`). The code leaves that field uninitialised.
- TRD `EventRecord` objects are values. Sorting happens on array copies that replace the record, so the in-place update inside `mEventRecords` is modelled only by its result. `Tracklet64` and `Digit` are reduced to their pad and an opaque payload. The per-trigger link counters are an opaque word sequence. The framework snapshot calls become the fields of an `Outputs` value.
- TrdEventRecord.EventRecordContainer.AccumulateStats: the floating-point timing sums (`mTimeTakenFor*`) and the `TFIDInfo` filling are not modelled. Only the integer counters are.
- TrdEventRecord.EventRecordContainer.AddConfigEvent: requires the payload range to lie inside `data`. The fixed `HBFBUFFERMAX` array makes an out-of-range read undefined in the code. The 32-bit length word `end - start` is modelled with its wrap-around.
- EmcalWriteoutBuffer.DigitsWriteoutBuffer.AddDigit: the slot offset `int((eventTime - referenceTime) / timeBinWidth)` is a floating-point computation. It is taken here as an integer parameter. An offset outside the queue is excluded by a precondition, because dereferencing it is undefined in the code.
- EmcalWriteoutBuffer.DigitsWriteoutBuffer.GetLastNSamples: requires n to be at most the marker position. A span before the queue start is undefined in the code. The result is the logical window of n slots. The code builds a contiguous `gsl::span` over a `std::deque`, which is contiguous only within one storage block, so a window that crosses a block boundary reads memory outside the queue. That non-contiguity is not modelled.
- EmcalWriteoutBuffer.DigitsWriteoutBuffer.ForwardMarker: requires the marker to lie on a slot (`marker < |timedDigits|`). After `clear` or with zero time bins, the marker is `end()`, and the code increments that iterator, which is undefined.
- The marker is an index, not a deque iterator, so iterator invalidation by `push_back` is not modelled.
- `LabeledDigit` is an opaque type parameter, and the tower lists are sequences.
