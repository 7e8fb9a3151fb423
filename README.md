# AliRoot HLT cores in Dafny

This project models four pieces of the AliRoot analysis framework.

- **HLT data types** (`hlt_datatypes.dfy`, module `HltDataTypes`). A component data type is an 8-byte ID
  plus a 4-byte origin. The module models:
  - the constants for void, any and all data types, each with its trailing NUL;
  - the wildcard topic comparison `Topicncmp`;
  - exact comparison (`MatchExactly`);
  - wildcard comparison (`operator==` and `operator!=`), including the all-data-types short-circuit
    and the void flags that carry over from the origin pass into the ID pass;
  - the origin merge `operator|`;
  - the NUL-terminated and the space-padded initialisers;
  - the 12-byte ZMQ topic `AliHLTDataTopic` and the conversions between it and a data type.
- **Level-3 tracker orchestration** (`level3.dfy`, module `Level3`). `AliLevel3` drives the TPC tracking
  of an event:
  - `Init` chooses the patch partition;
  - `ProcessEvent` runs an ascending slice loop and merges globally once, at the end;
  - `ProcessSlice` runs a descending patch loop, decides the vertex on the first visited patch, and
    sends each patch's tracks through the inter merger into the patch merger;
  - `WriteTracks` and `WriteResults` write the global merger's arrays.

  The tracker, vertex finder, cluster finder, mergers, memory handlers and geometry are opaque
  collaborators. Every call made on them is appended to a trace. The track arrays they return are
  symbolic terms that record what they were computed from. The properties say which calls happen, in
  what order and with what arguments. The model fixes the configuration without AliROOT input; there the
  cluster finder runs exactly when binary input is used.
- **Calorimeter/track reader configuration** (`calo_track_reader.dfy`, module `CaloTrackReader`). This is
  the inline state of `AliCaloTrackReader`:
  - the detector switches;
  - the calo-filter patch, which is only active for AOD input and which turns the central tracking off;
  - the centrality bin, whose setter also selects percentile option 100;
  - the bounded centrality-bin getter and smearing-parameter setter;
  - the lazily created fiducial cut.
- **Kaon cut of the 2010 pp phi analysis** (`rsn_cut_kaon.dfy`, module `RsnCutKaon`):
  - the TOF-match test on the 64-bit status word;
  - the four PID parameter setters;
  - the embedded track-quality cut.

Properties about one call are the `ensures` of that member. Properties that relate calls, or that hold
for all inputs, are lemmas. The imperative members proved against those functions are:
- the loops of `Topicncmp`, `operator==` and the initialisers;
- both loops of `AliLevel3`;
- the value-changing setters.

Each is proved against a specification function whose properties are proved separately.

## Model

| member | source | states |
|---|---|---|
| HltDataTypes.Topicncmp | HLT/BASE/AliHLTDataTypes.h:817-828 | the result is false exactly when some byte pair among the first min(topicSize, referenceSize) bytes has neither byte equal to '*' or NUL and the two bytes differ |
| HltDataTypes.MatchExactly | HLT/BASE/AliHLTDataTypes.h:1703-1712 | true exactly when all 8 ID bytes and all 4 origin bytes are equal; fStructSize plays no part |
| HltDataTypes.OriginPass | HLT/BASE/AliHLTDataTypes.h:1724-1733 | the origin loop succeeds exactly when the any/void/match test holds after every origin byte, and then hands on whether each origin is entirely void |
| HltDataTypes.IdPass | HLT/BASE/AliHLTDataTypes.h:1735-1744 | given the carried-over void flags, the ID loop succeeds exactly when the test holds after every ID byte; any and match restart, void continues |
| HltDataTypes.Equals | HLT/BASE/AliHLTDataTypes.h:1719-1746 | operator== returns exactly the closed-form wildcard equality `Matches`: the all-data-types short-circuit on either side, or both passes succeed |
| HltDataTypes.NotEquals | HLT/BASE/AliHLTDataTypes.h:1752-1755 | operator!= is exactly the negation of operator== |
| HltDataTypes.MatchesReflexive | HLT/BASE/AliHLTDataTypes.h:1719-1746 | every data type equals itself |
| HltDataTypes.MatchesSymmetric | HLT/BASE/AliHLTDataTypes.h:1719-1746 | operator== gives the same answer with its arguments swapped |
| HltDataTypes.AllDataTypesMatchesEverything | HLT/BASE/AliHLTDataTypes.h:1719-1722 | kAliHLTAllDataTypes ("ALLDATA" with the "***" origin) equals every data type, on either side |
| HltDataTypes.MatchExactlyImpliesMatches | HLT/BASE/AliHLTDataTypes.h:1703-1746 | data types with the same ID and origin compare equal under operator==, whatever their fStructSize |
| HltDataTypes.AnyDataTypeMatches | HLT/BASE/AliHLTDataTypes.h:1724-1744 | kAliHLTAnyDataType equals exactly the data types whose origin does not start with NUL; their ID plays no part |
| HltDataTypes.VoidDataTypeMatches | HLT/BASE/AliHLTDataTypes.h:1724-1744 | kAliHLTVoidDataType equals only data types with its own ID and origin, or the all-data-types entry |
| HltDataTypes.AnyNeverMatchesVoid | HLT/BASE/AliHLTDataTypes.h:1173-1199 | the any data type and the void data type never compare equal, in either order |
| HltDataTypes.AnyOriginMatchesSameId | HLT/BASE/AliHLTDataTypes.h:1724-1744 | a data type with the "***" origin equals the same ID under every origin that does not start with NUL |
| HltDataTypes.MergeOrigin | HLT/BASE/AliHLTDataTypes.h:1760-1766 | operator\| gives srcdt with its origin replaced by the first four bytes of `origin`; the ID and fStructSize stay those of srcdt |
| HltDataTypes.MergeLastOriginWins | HLT/BASE/AliHLTDataTypes.h:1760-1766 | (dt\|o1)\|o2 == dt\|o2 |
| HltDataTypes.CopiedLength | HLT/BASE/AliHLTDataTypes.h:1777-1780 | the copy loop copies the bytes before the first NUL, at most the field size; it stops early only at a NUL |
| HltDataTypes.CStringField | HLT/BASE/AliHLTDataTypes.h:1773-1782 | the field the NUL-terminated initialiser produces: copied bytes first, NUL after them |
| HltDataTypes.CopyUpToNul | HLT/BASE/AliHLTDataTypes.h:1777-1780 | one copy loop over an all-NUL field gives exactly that field |
| HltDataTypes.Initializer | HLT/BASE/AliHLTDataTypes.h:1773-1782 | starting from the void type, the ID is copied up to its first NUL (at most 8 bytes) and the origin up to its first NUL (at most 4); the other bytes stay NUL |
| HltDataTypes.InitializerFromType | HLT/BASE/AliHLTDataTypes.h:1813-1816 | the data-type overload is the NUL-terminated initialiser applied to the ID of src |
| HltDataTypes.CStringFieldKeepsNormalField | HLT/BASE/AliHLTDataTypes.h:1773-1782 | a field whose bytes after its first NUL are all NUL passes through the initialiser unchanged |
| HltDataTypes.ConstantIdsAreNulNormal | HLT/BASE/AliHLTDataTypes.h:278-288 | the void, any and all IDs and the void and any origins, with their terminators, have only NUL after their first NUL |
| HltDataTypes.CStrLen | HLT/BASE/AliHLTDataTypes.h:1794-1798 | strlen is the index of the first NUL |
| HltDataTypes.PaddedField | HLT/BASE/AliHLTDataTypes.h:1789-1803 | the padded field: the first min(n, strlen) bytes, then spaces up to n bytes |
| HltDataTypes.NoNulCopiedInFull | HLT/BASE/AliHLTDataTypes.h:1777-1780 | a buffer with no NUL in its first n bytes is copied in full |
| HltDataTypes.PaddedBufferCopiedInFull | HLT/BASE/AliHLTDataTypes.h:1797-1802 | the space-padded, NUL-terminated buffer is copied in full, so it becomes the padded field |
| HltDataTypes.FillPadded | HLT/BASE/AliHLTDataTypes.h:1791-1801 | a buffer of n+1 bytes is filled with the first min(n, strlen) bytes, then spaces, then a NUL |
| HltDataTypes.InitializerWithPadding | HLT/BASE/AliHLTDataTypes.h:1789-1803 | the ID becomes the first min(8, strlen) ID bytes right-padded with spaces to 8; the origin likewise to 4 |
| HltDataTypes.TopicOf | HLT/BASE/AliHLTDataTypes.h:849-850 | the 12 topic bytes are the ID followed by the origin |
| HltDataTypes.AssignTopic | HLT/BASE/AliHLTDataTypes.h:769-774 | assigning a topic sets the ID to topic bytes 0..7 and the origin to bytes 8..11, and keeps fStructSize |
| HltDataTypes.TopicRoundTrip | HLT/BASE/AliHLTDataTypes.h:769-774 | assigning the topic of dt back into any data type restores dt's ID and origin |
| HltDataTypes.WildcardTopicMatchesAll | HLT/BASE/AliHLTDataTypes.h:817-828 | a topic made only of '*' and NUL agrees with every topic, in both argument orders |
| HltDataTypes.VoidTopicMatchesAnyTopic | HLT/BASE/AliHLTDataTypes.h:817-828 | the void and any topics agree under Topicncmp, although the two data types differ under operator== |
| HltDataTypes.DataTopic.constructor | HLT/BASE/AliHLTDataTypes.h:838-842 | the default topic is all NUL, with specification 0 |
| HltDataTypes.DataTopic.FromDataType | HLT/BASE/AliHLTDataTypes.h:845-851 | a topic built from a data type holds its ID and origin, with specification 0 |
| HltDataTypes.DataTopic.FromBlockData | HLT/BASE/AliHLTDataTypes.h:854-860 | a topic built from a block descriptor holds its data type's bytes and its specification |
| HltDataTypes.DataTopic.AssignDataType | HLT/BASE/AliHLTDataTypes.h:863-868 | operator=(dataType) overwrites the topic bytes and leaves the specification untouched |
| HltDataTypes.DataTopic.AssignBlockData | HLT/BASE/AliHLTDataTypes.h:871-877 | operator=(blockData) overwrites the topic bytes and copies the specification |
| HltDataTypes.DataTopic.Equals | HLT/BASE/AliHLTDataTypes.h:879-883 | topic equality is the full-size Topicncmp of the two topics; the specifications play no part |
| HltDataTypes.DataTopic.GetID | HLT/BASE/AliHLTDataTypes.h:901-905 | GetID gives the first 8 topic bytes |
| HltDataTypes.DataTopic.GetOrigin | HLT/BASE/AliHLTDataTypes.h:895-899 | GetOrigin gives the 4 topic bytes after the ID |
| HltDataTypes.TopicConversion | HLT/BASE/AliHLTDataTypes.h:845-905 | a topic built from dt has GetID() == dt's ID and GetOrigin() == dt's origin, and assigning it back restores both |
| Level3.PatchScheme | HLT/src/AliLevel3.cxx:147-174 | npatches 1 gives one patch with rows [0, GetNRows()]; 2 gives [0, LastRow(1)] and [FirstRow(2), LastRow(5)]; any other value gives 6 patches, patch i being [FirstRow(i), LastRow(i)] |
| Level3.PatchSchemeTiles | HLT/src/AliLevel3.cxx:147-174 | on a gap-free geometry the 2- and 6-patch schemes tile rows 0..nRows-1, while the 1-patch scheme ends at nRows |
| Level3.Level3.SetPatchScheme | HLT/src/AliLevel3.cxx:147-174 | fNPatch and the fRow slots of the chosen patches receive the scheme; the other fRow slots are unchanged |
| Level3.Level3.constructor | HLT/src/AliLevel3.cxx:58-110 | only whether an input file is present is set; there is no trace, global merger or slice track data yet |
| Level3.Level3.Init | HLT/src/AliLevel3.cxx:122-187 | without binary input and without an input file nothing changes; otherwise the geometry is initialised, write-out/ROI/non-vertex/vertex finding are off, eta is [0, 1.1], the event is 0, there is no global merger, and the patch scheme is chosen |
| Level3.TrackerSettingsFollowConstraint | HLT/src/AliLevel3.cxx:218-240 | SetTrackerParam makes 7 tracker calls; exactly one of the main-vertex and non-vertex settings is applied, selected by the vertex constraint, and the last two calls are SetParamDone and InitVolumes |
| Level3.Level3.SetTrackerParam | HLT/src/AliLevel3.cxx:218-240 | the tracker receives exactly the calls TrackerParamCalls lists |
| Level3.PatchStepOutcome | HLT/src/AliLevel3.cxx:285-303 | a patch completes exactly when its input can be read; then it tracks with the patch vertex and hands on the tracker output; otherwise the digit file is missing in binary mode and the vertex is kept |
| Level3.PatchAbortsAfterOpen | HLT/src/AliLevel3.cxx:296-300 | a patch whose digit file is missing ends with the attempt to open it, under patch index -1 when there is a single patch |
| Level3.PatchStepVisits | HLT/src/AliLevel3.cxx:285-286 | a patch's first call initialises the file handler with its slice, patch and rows, and this is its only visit |
| Level3.PatchStepVertex | HLT/src/AliLevel3.cxx:426-447 | a patch that reads its input decides the vertex and hands it to the patch merger exactly when it is patch fNPatch-1 |
| Level3.PatchStepTracking | HLT/src/AliLevel3.cxx:448-462 | a patch that reads its input gives the tracker its vertex and runs the main-vertex pass, then the non-vertex pass exactly when fDoNonVertex is set |
| Level3.TrackingRuns | HLT/src/AliLevel3.cxx:448-462 | the tracker part of a patch sets the vertex and runs the passes, and nothing else of that kind |
| Level3.PatchLoopTried | HLT/src/AliLevel3.cxx:285-300 | the patch loop tries at most patch+1 patches, and when it completes it has fed all of them |
| Level3.PatchLoopStops | HLT/src/AliLevel3.cxx:285-300 | the loop completes exactly when every patch from `patch` down to 0 can read its input; otherwise it stops at the first patch that cannot |
| Level3.PatchLoopVisits | HLT/src/AliLevel3.cxx:285-286 | the loop visits the patches patch, patch-1, ..., in this order, each with its own rows, up to and including the one where it stops |
| Level3.PatchLoopQuiet | HLT/src/AliLevel3.cxx:285-516 | the patch loop makes no patch-merger concatenation and no global-merger call |
| Level3.LowerPatchesVertex | HLT/src/AliLevel3.cxx:426-447 | below the first visited patch the vertex stays as it is given |
| Level3.LowerPatchesFed | HLT/src/AliLevel3.cxx:426-515 | below the first visited patch, every patch fed to the patch merger feeds its own tracker output, tracked with that vertex |
| Level3.LowerPatchesUndecided | HLT/src/AliLevel3.cxx:426-447 | below the first visited patch the vertex is never decided |
| Level3.LowerPatchesTracking | HLT/src/AliLevel3.cxx:448-462 | below the first visited patch, every fed patch hands the given vertex to the tracker and runs the passes |
| Level3.TopPatchFed | HLT/src/AliLevel3.cxx:426-515 | the loop ends with the vertex decided on patch fNPatch-1 (or the old vertex if that patch cannot read its input, when nothing is fed), and patch top-k is the k-th input, tracked with that vertex |
| Level3.TopPatchDecides | HLT/src/AliLevel3.cxx:426-447 | the vertex is decided once per slice: by the vertex finder on the first patch's points, or set to zero, then handed to the patch merger |
| Level3.TopPatchTracking | HLT/src/AliLevel3.cxx:426-462 | every patch fed to the patch merger tracks with the slice vertex, and no other patch runs the tracker |
| Level3.SliceRunOutcome | HLT/src/AliLevel3.cxx:281-533 | ProcessSlice starts by resetting the patch merger and completes exactly when every patch can read its input; then it stores the concatenation of fNPatch patch inputs as the slice track data; otherwise it returns early and leaves the track data as it was |
| Level3.SliceRunConcats | HLT/src/AliLevel3.cxx:517-521 | the patch merger concatenates once, exactly when the slice completes |
| Level3.SliceRunVisits | HLT/src/AliLevel3.cxx:285-300 | ProcessSlice visits patches fNPatch-1 down to 0 in this order, up to the first one that cannot read its input |
| Level3.SliceRunLocal | HLT/src/AliLevel3.cxx:268-536 | ProcessSlice never calls the global merger |
| Level3.SliceVertex | HLT/src/AliLevel3.cxx:426-515 | the vertex is decided on the first visited patch and kept; every patch fed to the patch merger was tracked with it |
| Level3.SliceVertexDecidedOnce | HLT/src/AliLevel3.cxx:426-447 | if the first patch reads its input, the vertex is decided exactly once in the slice and handed to the patch merger; otherwise it is not decided |
| Level3.SliceTracking | HLT/src/AliLevel3.cxx:448-462 | each fed patch hands the slice vertex to the tracker and runs the passes; no other patch runs the tracker |
| Level3.SliceRunTrackData | HLT/src/AliLevel3.cxx:529-533 | the slice track data is the patch merger output when the slice completes, and unchanged otherwise |
| Level3.SliceLoopCount | HLT/src/AliLevel3.cxx:248-256 | the slice loop registers one track array per slice of first..last and leaves the slice track data reset |
| Level3.SliceLoopRegistered | HLT/src/AliLevel3.cxx:248-256 | each registered array is its own slice's patch-merger output, or else the track data found: the incoming data for the first slice, the reset value for every later one |
| Level3.SliceLoopInits | HLT/src/AliLevel3.cxx:248-256 | the global merger initialises slices first, first+1, ..., last in this order |
| Level3.SliceLoopFills | HLT/src/AliLevel3.cxx:248-256 | the global merger is filled once per slice with the array registered for it, in slice order |
| Level3.EventFromEnds | HLT/src/AliLevel3.cxx:246-265 | an event creates the global merger first and deletes it last |
| Level3.MergeOnceAfterAllSlices | HLT/src/AliLevel3.cxx:242-266 | between creation and deletion, the global merger initialises slices first..last in order and is filled once per slice; it then runs AddAllTracks and SlowMerge once each, after every slice |
| Level3.Level3.ProcessEvent | HLT/src/AliLevel3.cxx:242-266 | the trace grows by exactly the event's calls (EventCalls), the event number is stored, and the global merger is gone afterwards |
| Level3.Level3.RunSlices | HLT/src/AliLevel3.cxx:248-256 | the slice loop makes exactly the calls and registrations of SliceLoop and leaves its vertex and track data |
| Level3.Level3.ProcessAndRegister | HLT/src/AliLevel3.cxx:249-255 | one iteration is ProcessSlice followed by the registration of its track data; the track data is then reset |
| Level3.Level3.RegisterSlice | HLT/src/AliLevel3.cxx:250-255 | the global merger gets the vertex, initialises the slice and is filled with the slice track data; the file handler frees its memory and the track data is reset |
| Level3.Level3.FinishEvent | HLT/src/AliLevel3.cxx:257-265 | AddAllTracks, SlowMerge, the results in write-out mode, then deletion of the global merger |
| Level3.Level3.ProcessSlice | HLT/src/AliLevel3.cxx:268-536 | the calls, the vertex and the track data are those of SliceRun |
| Level3.Level3.RunPatches | HLT/src/AliLevel3.cxx:285-516 | the patch loop's calls, completion, final vertex and patch-merger inputs are exactly those of PatchLoop from fNPatch-1 |
| Level3.Level3.ProcessPatch | HLT/src/AliLevel3.cxx:285-515 | one patch's calls, completion, vertex and tracks are exactly those of PatchStep |
| Level3.Level3.ReadPatchInput | HLT/src/AliLevel3.cxx:286-403 | the visit and, in binary mode, the attempt to open the digit file; success means the file exists; the cluster finder then runs over the patch rows |
| Level3.Level3.DecideVertex | HLT/src/AliLevel3.cxx:426-447 | with fFindVertex the vertex finder runs on the points, otherwise the vertex is set to zero; the result goes to the patch merger |
| Level3.Level3.TrackPatch | HLT/src/AliLevel3.cxx:448-486 | the tracker is set up with slice, patch rows, eta and the current vertex, reads the hits and runs the passes; its output is recorded in the track array |
| Level3.Level3.MergePatch | HLT/src/AliLevel3.cxx:488-515 | the inter merger is filled but not run; the patch merger receives the tracker output unchanged |
| Level3.WrittenArrays | HLT/src/AliLevel3.cxx:553-563 | opt 'a' writes the inputs then the output; 'i' only the inputs; 'o' only the output; any other opt writes nothing |
| Level3.WriteCalls | HLT/src/AliLevel3.cxx:554-562 | one write per array, in order |
| Level3.Level3.WriteTracks | HLT/src/AliLevel3.cxx:550-568 | opens the file, writes WrittenArrays in order, closes it, and returns 1 |
| Level3.ResultsFiles | HLT/src/AliLevel3.cxx:570-580 | WriteResults writes all inputs and then the output to tracks.raw, and the output alone to tracks_gl.raw |
| Level3.ResultsOutputOnly | HLT/src/AliLevel3.cxx:570-580 | WriteResults makes nothing but output calls |
| Level3.Level3.WriteResults | HLT/src/AliLevel3.cxx:570-580 | the calls are WriteTracks with 'a' on tracks.raw, then with 'o' on tracks_gl.raw |
| CaloTrackReader.Reader.constructor | PWG4/PartCorrBase/AliCaloTrackReader.h:339-421 | a reader with the given data type, every switch off, no fiducial cut and zeroed centrality and smearing arrays |
| CaloTrackReader.Reader.GetDataType | PWG4/PartCorrBase/AliCaloTrackReader.h:70 | returns fDataType |
| CaloTrackReader.Reader.SetDataType | PWG4/PartCorrBase/AliCaloTrackReader.h:71 | stores any value as the data type and changes nothing else |
| CaloTrackReader.Reader.GetFiducialCut | PWG4/PartCorrBase/AliCaloTrackReader.h:116-117 | never null: the cut already held is returned, or else a fresh cut is created, kept and returned |
| CaloTrackReader.Reader.SetFiducialCut | PWG4/PartCorrBase/AliCaloTrackReader.h:118 | keeps the given cut, null included |
| CaloTrackReader.Reader.SwitchOnFiducialCut | PWG4/PartCorrBase/AliCaloTrackReader.h:120 | the check is on and a fresh cut replaces any held one |
| CaloTrackReader.Reader.SwitchOffFiducialCut | PWG4/PartCorrBase/AliCaloTrackReader.h:121 | the check is off and the cut stays |
| CaloTrackReader.Reader.SwitchOnCTS | PWG4/PartCorrBase/AliCaloTrackReader.h:132 | sets fFillCTS and only it |
| CaloTrackReader.Reader.SwitchOffCTS | PWG4/PartCorrBase/AliCaloTrackReader.h:133 | clears fFillCTS and only it |
| CaloTrackReader.Reader.SwitchOnEMCAL | PWG4/PartCorrBase/AliCaloTrackReader.h:136 | sets fFillEMCAL and only it |
| CaloTrackReader.Reader.SwitchOffEMCAL | PWG4/PartCorrBase/AliCaloTrackReader.h:137 | clears fFillEMCAL and only it |
| CaloTrackReader.Reader.SwitchOnPHOS | PWG4/PartCorrBase/AliCaloTrackReader.h:140 | sets fFillPHOS and only it |
| CaloTrackReader.Reader.SwitchOffPHOS | PWG4/PartCorrBase/AliCaloTrackReader.h:141 | clears fFillPHOS and only it |
| CaloTrackReader.Reader.SwitchOnEMCALCells | PWG4/PartCorrBase/AliCaloTrackReader.h:144 | sets fFillEMCALCells and only it |
| CaloTrackReader.Reader.SwitchOffEMCALCells | PWG4/PartCorrBase/AliCaloTrackReader.h:145 | clears fFillEMCALCells and only it |
| CaloTrackReader.Reader.SwitchOnPHOSCells | PWG4/PartCorrBase/AliCaloTrackReader.h:148 | sets fFillPHOSCells and only it |
| CaloTrackReader.Reader.SwitchOffPHOSCells | PWG4/PartCorrBase/AliCaloTrackReader.h:149 | clears fFillPHOSCells and only it |
| CaloTrackReader.Reader.SwitchOnEmbeddedClustersSelection | PWG4/PartCorrBase/AliCaloTrackReader.h:151 | sets fSelectEmbeddedClusters and only it |
| CaloTrackReader.Reader.SwitchOffEmbeddedClustersSelection | PWG4/PartCorrBase/AliCaloTrackReader.h:152 | clears fSelectEmbeddedClusters and only it |
| CaloTrackReader.Reader.IsCaloFilterPatchOn | PWG4/PartCorrBase/AliCaloTrackReader.h:235-236 | the patch can be on only for AOD input (kAOD = 1), and for AOD input it is on exactly when its flag is set |
| CaloTrackReader.Reader.SwitchOnCaloFilterPatch | PWG4/PartCorrBase/AliCaloTrackReader.h:233 | sets the filter flag and switches the CTS off; the patch is then on exactly for AOD input |
| CaloTrackReader.Reader.SwitchOffCaloFilterPatch | PWG4/PartCorrBase/AliCaloTrackReader.h:234 | clears only the filter flag; the CTS switch is left as it was |
| CaloTrackReader.Reader.GetCentralityOpt | PWG4/PartCorrBase/AliCaloTrackReader.h:257 | returns fCentralityOpt |
| CaloTrackReader.Reader.SetCentralityOpt | PWG4/PartCorrBase/AliCaloTrackReader.h:255 | stores any option value |
| CaloTrackReader.Reader.GetCentralityBin | PWG4/PartCorrBase/AliCaloTrackReader.h:262-263 | bound 0 is the minimum and bound 1 the maximum; any other index gives 0 |
| CaloTrackReader.Reader.SetCentralityBin | PWG4/PartCorrBase/AliCaloTrackReader.h:259-261 | stores both bounds; the option becomes 100 if min >= 0 and max > 0, and is unchanged otherwise |
| CaloTrackReader.Reader.SwitchOnClusterEnergySmearing | PWG4/PartCorrBase/AliCaloTrackReader.h:276 | sets fSmearClusterEnergy and only it |
| CaloTrackReader.Reader.SwitchOffClusterEnergySmearing | PWG4/PartCorrBase/AliCaloTrackReader.h:277 | clears fSmearClusterEnergy and only it |
| CaloTrackReader.Reader.SetSmearingParameters | PWG4/PartCorrBase/AliCaloTrackReader.h:279 | for i < 3 exactly parameter i is replaced; for a larger i all three are unchanged |
| RsnCutKaon.MatchTOF | PWG2/RESONANCES/AliRsnCutKaonForPhi2010PP.h:47-62 | false for a null track; otherwise true exactly when both the kTOFout and the kTIME bit are set in the status word; it reads no field of the cut |
| RsnCutKaon.MatchTOFMonotone | PWG2/RESONANCES/AliRsnCutKaonForPhi2010PP.h:58-61 | setting more status bits never turns a match into a non-match |
| RsnCutKaon.MatchTOFNeedsBoth | PWG2/RESONANCES/AliRsnCutKaonForPhi2010PP.h:58-61 | clearing either bit undoes the match, whatever else is set |
| RsnCutKaon.MatchTOFMinimal | PWG2/RESONANCES/AliRsnCutKaonForPhi2010PP.h:58-61 | the two bits together match, and each alone does not |
| RsnCutKaon.KaonCut.constructor | PWG2/RESONANCES/AliRsnCutKaonForPhi2010PP.h:35-40 | the four PID parameters as given, and an embedded quality cut of its own |
| RsnCutKaon.KaonCut.SetTPCNSigmaLow | PWG2/RESONANCES/AliRsnCutKaonForPhi2010PP.h:22 | sets fNSigmaTPCLow and only it |
| RsnCutKaon.KaonCut.SetTPCNSigmaHigh | PWG2/RESONANCES/AliRsnCutKaonForPhi2010PP.h:23 | sets fNSigmaTPCHigh and only it |
| RsnCutKaon.KaonCut.SetTPCLimit | PWG2/RESONANCES/AliRsnCutKaonForPhi2010PP.h:24 | sets fLimitTPC and only it |
| RsnCutKaon.KaonCut.SetTOFNSigma | PWG2/RESONANCES/AliRsnCutKaonForPhi2010PP.h:25 | sets fNSigmaTOF and only it |
| RsnCutKaon.KaonCut.CutQuality | PWG2/RESONANCES/AliRsnCutKaonForPhi2010PP.h:29 | the embedded quality cut: never null, and the same object on every call |

## Left out

- HLT/BASE/AliHLTDataTypes.h, out of scope:
  - raw pointers in block data;
  - function-pointer environment structs and interface typedefs;
  - `std::bitset` trigger masks;
  - `PrintDataType`, which has no definition;
  - the `snprintf` hex formatting of `AliHLTDataTopic::Description`.
- BlockData: reduced to the data type and the specification, the only members the topic conversions read.
- AliLevel3.cxx, collaborators: the tracker, vertex finder, cluster finder, mergers, memory handler and
  `AliL3Transform` geometry are not part of this model. Their calls are recorded with their arguments. The
  geometry's `GetFirstRow`, `GetLastRow` and `GetNRows` are a value handed to `Init`.
- AliLevel3.cxx, I/O: file and ROOT I/O, the raw-digit codec, and the space-point and track file contents.
  Write-out is one trace entry per file; `sprintf` naming is reduced to the patch index -1 rule for a
  single patch.
- AliLevel3.cxx, branches not modelled:
  - benchmark timing;
  - the `use_aliroot` and `ASVVERSION` branches;
  - the dead `if(0)` branches.
- AliLevel3.cxx, the points-file branch (lines 405-414): without AliROOT input the cluster finder runs
  exactly when binary input is used, so this branch is unreachable.
- SetClusterFinderParam and the float cluster-error settings: they only configure the cluster finder,
  which is opaque.
- SetTrackerParam: the default arguments are declared in the header, which is not part of this model.
- AliLevel3.cxx, memory: on an early return from `ProcessSlice` the memory handler is not deleted. The model
  has no allocation, so this leak is not visible.
- Level3.Level3.constructor: the constructors leave every member except `fInputFile` uninitialised. The
  model starts them from neutral values: no tracks and the initial vertex.
- Level3.Level3.Init: the configuration members are grouped into one value; `fRow` slots beyond the chosen
  patches keep their old values.
- Track arrays are symbolic: a track array records what it was computed from, not its tracks.
- Level3.Level3: the inline setters of `AliLevel3.h` that switch on `fDoNonVertex`, `fFindVertex`, `fDoRoi`
  and `fWriteOut` and set `fWriteOutPath` are not part of this model, so no sequence of `Level3` calls turns
  these flags on after `Init` clears them. The contracts of `ProcessEvent`, `ProcessSlice` and the patch
  methods, and the lemmas about `SliceRun` and `PatchLoop`, hold for any configuration value, so the
  non-vertex pass, the vertex finder, the ROI read and the write-outs are covered there.
- Level3.Level3.ProcessSlice, call order: the calls within a patch are recorded at the grain of the
  `InputCall`, `TrackerCall` and merger datatypes, and only the visits, the vertex decisions, the tracker
  runs and the merger calls are stated as properties. Some calls are folded or not recorded:
  - the plain binary read's `CompBinary2Memory` and `CloseBinaryInput` (lines 301-302) are the single
    `UnpackDigits(false)` entry;
  - the ROI read's `memory->Allocate`, `CompBinary2CompMemory`, `fFileHandler->Allocate`,
    `CompMemory2Memory` and `memory->Free` (lines 349-357) are the single `UnpackDigits(true)` entry;
  - the space-point `memory->Allocate` (line 383) is not recorded;
  - the `Allocate`/`TrackArray2Memory` pairs for the tracker output (lines 477-478), the inter-merger
    input (lines 509-510) and `fTrackData` (lines 530-532) are not recorded;
  - the final `delete memory` (line 535) is not recorded.
- AliCaloTrackReader.h:
  - the out-of-line methods (`FillInput*`, vertex, centrality lookups, `InitParameters` defaults);
  - ROOT objects;
  - the float pt cuts and the random generator;
  - the other inline setters and getters of the header (AOD output, event selection, MC reading, pt
    cuts), which only store or return a value.
- CaloTrackReader.Reader.constructor: it is a stand-in for the out-of-line constructor and `InitParameters`,
  which are not part of this model.
- CaloTrackReader.Reader.GetCentralityBin: the bounds are `Int_t`, returned as `Float_t`. The model returns
  the integer, because small integers convert exactly.
- CaloTrackReader.Reader.SetSmearingParameters: requires i >= 0. A negative index writes outside the array,
  and the header does not guard against it.
- Float_t and Double_t parameters are `real`, without rounding.
- AliRsnCutKaonForPhi2010PP.h:
  - `IsSelected`, which is out of line, with its n-sigma cuts;
  - the out-of-line constructor's defaults;
  - the `AliWarning` message on a null track.
- RsnCutKaon.MatchTOF: the bit values kTOFout = 0x2000 and kTIME = 0x80000000 follow `AliESDtrack`, which is
  not part of this model.
- RAW/AliRawReaderDateOnline.cxx: a blocking event loop on the DATE monitoring library.
- EVE/EveBase/AliEveMainWindow.h: a GUI.
- ITS/AliITSRawData.h and HMPID/HMPIDbase/AliHMPIDQAChecker.h: they hold declarations only.
- FMD/scripts/PatternDigits.C: a display script.
