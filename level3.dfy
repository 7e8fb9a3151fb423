/**
 * The event/slice/patch orchestration of the Level-3 TPC tracker (AliLevel3).
 *
 * The tracker, vertex finder, cluster finder, mergers, memory handlers and
 * geometry are opaque collaborators.  Every call the orchestrator makes on them
 * is appended to `trace`; the track arrays they produce are symbolic terms that
 * record what they were computed from.  The model fixes the configuration
 * without AliROOT input, where the cluster finder runs exactly when binary
 * input is used.
 */
module Level3 {

  datatype Option<T> = None | Some(value: T)

  /** Number of patches of a slice in the finest partition */
  const MaxPatches: nat := 6
  /** Capacity of the space-point buffer handed to the cluster finder */
  const MaxPoints: int := 100000

  /** An inclusive row range of one patch: fRow[patch][0..1] */
  datatype RowRange = RowRange(first: int, last: int)

  /** The eta acceptance window fEta[0..1] */
  datatype Eta = Eta(low: real, high: real)

  /**
   * The detector geometry AliL3Transform provides once initialised:
   * GetFirstRow(patch), GetLastRow(patch) for the six patches, and GetNRows().
   */
  datatype Geometry = Geometry(firstRow: seq<int>, lastRow: seq<int>, nRows: int)
  {
    ghost predicate Valid() { |firstRow| == MaxPatches && |lastRow| == MaxPatches }
  }

  /** The space points of one partition, as produced by the cluster finder */
  datatype Points = NoPoints | Clusters(slice: int, patch: int)

  /** The content of the vertex object fVertex */
  datatype Vertex = InitialVertex | ZeroVertex | FoundVertex(points: Points)

  /** A track array, described by what it was computed from */
  datatype TrackArray =
    | NoTracks
    | TrackerTracks(slice: int, rows: RowRange, eta: Eta, vertex: Vertex, points: Points, nonVertexPass: bool)
    | PatchMerged(slice: int, inputs: seq<PatchInput>)
    | GlobalMerged(first: int, last: int, sliceTracks: seq<TrackArray>)

  /** One input of the patch merger: the tracks of one patch */
  datatype PatchInput = PatchInput(patch: int, tracks: TrackArray)

  /** The raw digit file of a partition: "<path>digits_<slice>_<patch>.raw" */
  datatype DigitFile = DigitFile(path: string, slice: int, patch: int)

  /** The files written in write-out mode */
  datatype OutputFile =
    | TracksFile(dir: string)           // "<dir>tracks.raw"
    | GlobalTracksFile(dir: string)     // "<dir>tracks_gl.raw"

  /** The parameters of SetTrackerParam */
  datatype TrackerParams = TrackerParams(
    phiSegments: int, etaSegments: int,
    trackletLength: int, trackLength: int,
    rowScopeTracklet: int, rowScopeTrack: int,
    minPtFit: real, maxAngle: real, goodDist: real,
    hitChi2Cut: real, goodHitChi2: real, trackChi2Cut: real,
    maxDist: int, maxPhi: real, maxEta: real, vertexConstraint: bool)

  /** What AliL3Merger::GetNIn/GetInTracks/GetOutTracks show of a merger */
  datatype MergerView = MergerView(inputs: seq<TrackArray>, output: TrackArray)

  /** The global merger between its creation and its deletion */
  datatype GlobalMergerState = GlobalMergerState(first: int, last: int, inputs: seq<TrackArray>, output: TrackArray)

  // ---------------------------------------------------------------------------
  // Calls on the collaborators
  // ---------------------------------------------------------------------------

  datatype SetupCall =
    | GeometryInit(path: string, aliRootInput: bool)   // AliL3Transform::Init
    | ComponentsCreated(nPatch: int)                    // tracker, vertex finder, mergers, file handler

  datatype TrackerCall =
    | SetNSegments(phiSegments: int, etaSegments: int)
    | SetMaxDca(minPtFit: real)
    | SetTrackCuts(hitChi2Cut: real, goodHitChi2: real, trackChi2Cut: real, maxDist: int, vertexConstraint: bool)
    | SetTrackletCuts(maxAngle: real, goodDist: real, vertexConstraint: bool)
    | MainVertexSettings(trackletLength: int, trackLength: int, rowScopeTracklet: int, rowScopeTrack: int, maxPhi: real, maxEta: real)
    | NonVertexSettings(trackletLength: int, trackLength: int, rowScopeTracklet: int, rowScopeTrack: int)
    | SetParamDone
    | InitVolumes
    | InitSector(slice: int, rows: RowRange, eta: Eta)
    | SetTrackerVertex(vertex: Vertex)
    | ReadHits(points: Points)
    | MainVertexTracking
    | NonVertexTracking
    | FillTracks

  /** The file handler, the slice's memory handler and the cluster finder */
  datatype InputCall =
    | FileHandlerInit(slice: int, patch: int, rows: RowRange)
    | FileHandlerFree
    | SetRoi(eta: Eta)
    | OpenDigits(file: DigitFile, roi: bool)            // SetBinaryInput on the file handler or, with ROI, the memory handler
    | UnpackDigits(roi: bool)                          // decompression into memory, closing the input
    | FindClusters(slice: int, patch: int, rows: RowRange, maxPoints: int)
    | MemoryFree

  datatype VertexCall =
    | RunVertexFinder(points: Points)                  // Reset, Read, Analyze, Write, fVertex->Read
    | SetZeroVertex

  /** The patch merger fTrackMerger */
  datatype PatchMergerCall =
    | MergerReset
    | MergerSetRows(patchRows: seq<RowRange>)
    | MergerSetVertex(vertex: Vertex)
    | MergerInitSector(slice: int, patch: int)
    | MergerFillTracks(tracks: TrackArray)
    | MergerAddAllTracks

  datatype InterMergerCall =
    | InterReset
    | InterInit(rows: RowRange, patch: int)
    | InterFillTracks(tracks: TrackArray)

  datatype GlobalCall =
    | GlobalCreate(first: int, last: int)
    | GlobalSetVertex(vertex: Vertex)
    | GlobalInitSlice(slice: int)
    | GlobalFillTracks(tracks: TrackArray)
    | GlobalAddAllTracks
    | GlobalSlowMerge
    | GlobalDelete

  datatype OutputCall =
    | WriteSpacePoints(slice: int, patch: int, points: Points)    // "<out>points_<slice>_<patch>.raw"
    | WriteTrackerTracks(slice: int, patch: int, tracks: TrackArray)  // "<out>tracks_tr_<slice>_<patch>.raw"
    | OpenOutput(file: OutputFile)
    | WriteTrackArray(tracks: TrackArray)
    | CloseOutput

  /** One call on a collaborator */
  datatype Call =
    | Setup(setup: SetupCall)
    | Tracker(tracker: TrackerCall)
    | Input(input: InputCall)
    | VertexDecision(vertexCall: VertexCall)
    | PatchMerger(patchMerger: PatchMergerCall)
    | InterMerger(interMerger: InterMergerCall)
    | Global(globalCall: GlobalCall)
    | Output(output: OutputCall)


  /** The kinds of calls the properties below are about */
  datatype Kind =
    | Visits          // a patch is visited: the file handler is initialised for it
    | VertexSettings  // the vertex is decided and handed to the patch merger
    | TrackerRuns     // the tracker is given a vertex, and the tracking passes
    | Concats         // the patch merger concatenates its inputs
    | GlobalCalls     // any call on the global merger
    | SliceInits      // the global merger initialises a slice
    | MergeSteps      // the global merger is filled, or merges

  predicate OfKind(c: Call, k: Kind)
  {
    match k
    case Visits => c.Input? && c.input.FileHandlerInit?
    case VertexSettings => c.VertexDecision? || (c.PatchMerger? && c.patchMerger.MergerSetVertex?)
    case TrackerRuns => (c.Tracker? && c.tracker.SetTrackerVertex?) || c == Tracker(MainVertexTracking) || c == Tracker(NonVertexTracking)
    case Concats => c == PatchMerger(MergerAddAllTracks)
    case GlobalCalls => c.Global?
    case SliceInits => c.Global? && c.globalCall.GlobalInitSlice?
    case MergeSteps => c.Global? && (c.globalCall.GlobalFillTracks? || c.globalCall.GlobalAddAllTracks? || c.globalCall.GlobalSlowMerge?)
  }

  /** The configuration ProcessSlice and ProcessEvent read */
  datatype Settings = Settings(
    useBinary: bool, writeOut: bool, doRoi: bool, doNonVertex: bool, findVertex: bool,
    eta: Eta, path: string, writeOutPath: string, nPatch: int, rows: seq<RowRange>)
  {
    ghost predicate Valid() { 1 <= nPatch <= |rows| }
  }

  lemma AppendAssoc<T>(a: seq<T>, b: seq<T>, c: seq<T>)
    ensures a + (b + c) == (a + b) + c
  {
  }

  // ---------------------------------------------------------------------------
  // The calls of one kind
  // ---------------------------------------------------------------------------

  /** The calls of kind `k` in `calls`, in their order */
  function Select(k: Kind, calls: seq<Call>): seq<Call>
    decreases |calls|, 1
  {
    if calls == [] then [] else SelectFrom(k, calls)
  }

  /** Select on a non-empty sequence: its first call if it is of kind `k`, then the others of that kind */
  function SelectFrom(k: Kind, calls: seq<Call>): seq<Call>
    requires calls != []
    decreases |calls|, 0
  {
    (if OfKind(calls[0], k) then [calls[0]] else []) + Select(k, calls[1..])
  }

  lemma {:induction false} SelectAppend(k: Kind, a: seq<Call>, b: seq<Call>)
    ensures Select(k, a + b) == Select(k, a) + Select(k, b)
  {
    if a == [] {
      assert a + b == b;
    } else {
      assert (a + b)[0] == a[0];
      assert (a + b)[1..] == a[1..] + b;
      assert Select(k, a + b) == SelectFrom(k, a + b);
      assert Select(k, a) == SelectFrom(k, a);
      SelectAppend(k, a[1..], b);
      AppendAssoc(if OfKind(a[0], k) then [a[0]] else [], Select(k, a[1..]), Select(k, b));
    }
  }

  lemma SelectSingle(k: Kind, c: Call)
    ensures Select(k, [c]) == if OfKind(c, k) then [c] else []
  {
    assert [c][1..] == [] && Select(k, []) == [];
    assert Select(k, [c]) == SelectFrom(k, [c]);
  }

  lemma SelectOptional(k: Kind, b: bool, c: Call)
    ensures Select(k, if b then [c] else []) == if b && OfKind(c, k) then [c] else []
  {
    if b {
      SelectSingle(k, c);
    }
  }

  lemma {:induction false} SelectNone(k: Kind, calls: seq<Call>)
    requires forall c | c in calls :: !OfKind(c, k)
    ensures Select(k, calls) == []
  {
    if calls != [] {
      assert calls[0] in calls;
      assert forall c | c in calls[1..] :: c in calls;
      assert Select(k, calls) == SelectFrom(k, calls);
      SelectNone(k, calls[1..]);
    }
  }

  /** A sequence without global-merger calls initialises no slice and merges nothing */
  lemma {:induction false} NoGlobalCalls(calls: seq<Call>)
    requires Select(GlobalCalls, calls) == []
    ensures Select(SliceInits, calls) == [] && Select(MergeSteps, calls) == []
  {
    if calls != [] {
      assert Select(GlobalCalls, calls) == SelectFrom(GlobalCalls, calls);
      assert Select(SliceInits, calls) == SelectFrom(SliceInits, calls);
      assert Select(MergeSteps, calls) == SelectFrom(MergeSteps, calls);
      NoGlobalCalls(calls[1..]);
    }
  }

  // ---------------------------------------------------------------------------
  // Init: the patch partition
  // ---------------------------------------------------------------------------

  /** The number of patches Init chooses for a requested number */
  function PatchCount(npatches: int): nat
  {
    if npatches == 1 then 1 else if npatches == 2 then 2 else MaxPatches
  }

  /** The row ranges Init stores in fRow for the patches it chooses */
  function PatchScheme(npatches: int, geo: Geometry): (r: seq<RowRange>)
    requires geo.Valid()
    ensures |r| == PatchCount(npatches)
    ensures npatches == 1 ==> r == [RowRange(0, geo.nRows)]
    ensures npatches == 2 ==> r == [RowRange(0, geo.lastRow[1]), RowRange(geo.firstRow[2], geo.lastRow[5])]
    ensures npatches != 1 && npatches != 2 ==>
      forall i | 0 <= i < MaxPatches :: r[i] == RowRange(geo.firstRow[i], geo.lastRow[i])
  {
    if npatches == 1 then [RowRange(0, geo.nRows)]
    else if npatches == 2 then [RowRange(0, geo.lastRow[1]), RowRange(geo.firstRow[2], geo.lastRow[5])]
    else seq(MaxPatches, i requires 0 <= i < MaxPatches => RowRange(geo.firstRow[i], geo.lastRow[i]))
  }

  /** A geometry whose six patches tile rows 0 .. nRows-1 without gaps */
  ghost predicate Contiguous(geo: Geometry)
    requires geo.Valid()
  {
    && geo.firstRow[0] == 0
    && geo.lastRow[MaxPatches - 1] == geo.nRows - 1
    && forall i | 0 <= i < MaxPatches - 1 :: geo.lastRow[i] + 1 == geo.firstRow[i + 1]
  }

  /**
   * On a contiguous geometry the two- and six-patch schemes tile the rows
   * 0 .. nRows-1; the one-patch scheme ends at GetNRows(), one row further.
   */
  lemma PatchSchemeTiles(npatches: int, geo: Geometry)
    requires geo.Valid() && Contiguous(geo)
    ensures var r := PatchScheme(npatches, geo);
      && r[0].first == 0
      && (forall i | 0 <= i < |r| - 1 :: r[i].last + 1 == r[i + 1].first)
      && r[|r| - 1].last == (if npatches == 1 then geo.nRows else geo.nRows - 1)
  {
  }

  // ---------------------------------------------------------------------------
  // SetTrackerParam
  // ---------------------------------------------------------------------------

  /** The calls SetTrackerParam makes on the tracker */
  function TrackerParamCalls(p: TrackerParams): seq<Call>
  {
    [ Tracker(SetNSegments(p.phiSegments, p.etaSegments)),
      Tracker(SetMaxDca(p.minPtFit)),
      Tracker(SetTrackCuts(p.hitChi2Cut, p.goodHitChi2, p.trackChi2Cut, p.maxDist, p.vertexConstraint)),
      Tracker(SetTrackletCuts(p.maxAngle, p.goodDist, p.vertexConstraint)) ] +
    (if p.vertexConstraint
     then [Tracker(MainVertexSettings(p.trackletLength, p.trackLength, p.rowScopeTracklet, p.rowScopeTrack, p.maxPhi, p.maxEta))]
     else [Tracker(NonVertexSettings(p.trackletLength, p.trackLength, p.rowScopeTracklet, p.rowScopeTrack))]) +
    [Tracker(SetParamDone), Tracker(InitVolumes)]
  }

  /**
   * Exactly one of the main-vertex and non-vertex settings is applied, chosen
   * by the vertex constraint, and the parameters are closed by SetParamDone
   * and InitVolumes.
   */
  lemma TrackerSettingsFollowConstraint(p: TrackerParams)
    ensures var calls := TrackerParamCalls(p);
      && |calls| == 7
      && (forall c | c in calls :: c.Tracker?)
      && (calls[4].tracker.MainVertexSettings? <==> p.vertexConstraint)
      && (calls[4].tracker.NonVertexSettings? <==> !p.vertexConstraint)
      && (forall i | 0 <= i < |calls| && i != 4 :: !calls[i].tracker.MainVertexSettings? && !calls[i].tracker.NonVertexSettings?)
      && calls[5..] == [Tracker(SetParamDone), Tracker(InitVolumes)]
  {
  }

  // ---------------------------------------------------------------------------
  // ProcessSlice: one patch, segment by segment
  // ---------------------------------------------------------------------------

  /** The digit file of a patch: patch index -1 when the slice is one patch (outside ROI mode) */
  function DigitFileOf(s: Settings, slice: int, patch: int): DigitFile
  {
    if s.doRoi then DigitFile(s.path, slice, patch)
    else DigitFile(s.path, slice, if s.nPatch == 1 then -1 else patch)
  }

  /** The space points a patch obtains: cluster-finder output in binary mode, nothing otherwise */
  function PointsOf(s: Settings, slice: int, patch: int): Points
  {
    if s.useBinary then Clusters(slice, patch) else NoPoints
  }

  /** The vertex decided on the first visited patch */
  function DecidedVertex(s: Settings, points: Points): Vertex
  {
    if s.findVertex then FoundVertex(points) else ZeroVertex
  }

  /** How the vertex is decided: by the vertex finder on the points, or set to zero */
  function VertexDecisionOf(s: Settings, points: Points): Call
  {
    VertexDecision(if s.findVertex then RunVertexFinder(points) else SetZeroVertex)
  }

  /** Whether the input of a patch can be read */
  predicate InputAvailable(s: Settings, slice: int, patch: int, files: set<DigitFile>)
  {
    !s.useBinary || DigitFileOf(s, slice, patch) in files
  }

  /** The attempt to open the digit file of a patch */
  function OpenCall(s: Settings, slice: int, patch: int): Call
  {
    Input(OpenDigits(DigitFileOf(s, slice, patch), s.doRoi))
  }

  /** After the visit: the attempt to open the digit file (binary mode only) */
  function OpenCalls(s: Settings, slice: int, patch: int): seq<Call>
  {
    if !s.useBinary then []
    else [Input(FileHandlerFree)] + (if s.doRoi then [Input(SetRoi(s.eta))] else []) + [OpenCall(s, slice, patch)]
  }

  /** The visit of a patch, then the attempt to open its digit file */
  function OpeningCalls(s: Settings, slice: int, patch: int): seq<Call>
    requires 0 <= patch < |s.rows|
  {
    [Input(FileHandlerInit(slice, patch, s.rows[patch]))] + OpenCalls(s, slice, patch)
  }

  /** Unpacking and cluster finding, once the digit file is open */
  function ClusterCalls(s: Settings, slice: int, patch: int): seq<Call>
    requires 0 <= patch < |s.rows|
  {
    if s.useBinary
    then [Input(UnpackDigits(s.doRoi)), Input(FindClusters(slice, patch, s.rows[patch], MaxPoints)), Input(FileHandlerFree)]
    else []
  }

  /** Deciding the vertex on the first visited patch and handing it to the patch merger */
  function VertexCalls(s: Settings, patch: int, points: Points): seq<Call>
  {
    if patch != s.nPatch - 1 then []
    else [VertexDecisionOf(s, points)] + [PatchMerger(MergerSetVertex(DecidedVertex(s, points)))]
  }

  /** The tracking passes: the main-vertex pass and, with fDoNonVertex, the non-vertex pass */
  function Passes(s: Settings): seq<Call>
  {
    [Tracker(MainVertexTracking)] + (if s.doNonVertex then [Tracker(NonVertexTracking)] else [])
  }

  /** Filling the tracks, optional write-out, and freeing the input memory */
  function TrackingTail(s: Settings, slice: int, patch: int, points: Points, tracks: TrackArray): seq<Call>
  {
    [Tracker(FillTracks)] +
    (if s.writeOut then [Output(WriteSpacePoints(slice, patch, points))] else []) +
    [Input(if s.useBinary then MemoryFree else FileHandlerFree)] +
    (if s.writeOut then [Output(WriteTrackerTracks(slice, patch, tracks))] else [])
  }

  /** The tracker run over a patch with the vertex `v` */
  function TrackingCalls(s: Settings, slice: int, patch: int, v: Vertex, points: Points, tracks: TrackArray): seq<Call>
    requires 0 <= patch < |s.rows|
  {
    [Tracker(InitSector(slice, s.rows[patch], s.eta))] + [Tracker(SetTrackerVertex(v))] + [Tracker(ReadHits(points))] +
    Passes(s) + TrackingTail(s, slice, patch, points, tracks)
  }

  /** The inter merger is filled and bypassed; its input 0 goes to the patch merger */
  function MergeCalls(s: Settings, slice: int, patch: int, tracks: TrackArray): seq<Call>
    requires 0 <= patch < |s.rows|
  {
    [InterMerger(InterReset), InterMerger(InterInit(s.rows[patch], patch)), InterMerger(InterFillTracks(tracks)),
     Input(MemoryFree), PatchMerger(MergerInitSector(slice, patch)), PatchMerger(MergerFillTracks(tracks)), Input(MemoryFree)]
  }

  /** The tracker output of a patch */
  function TrackerOutput(s: Settings, slice: int, patch: int, vertex: Vertex): TrackArray
    requires 0 <= patch < |s.rows|
  {
    TrackerTracks(slice, s.rows[patch], s.eta, vertex, PointsOf(s, slice, patch), s.doNonVertex)
  }

  /** The vertex a patch tracks with: decided on the first visited patch, inherited below it */
  function PatchVertex(s: Settings, slice: int, patch: int, vertex: Vertex): Vertex
  {
    if patch == s.nPatch - 1 then DecidedVertex(s, PointsOf(s, slice, patch)) else vertex
  }

  /** All calls of a patch after its digits could be read */
  function TrackedCalls(s: Settings, slice: int, patch: int, v: Vertex): seq<Call>
    requires 0 <= patch < |s.rows|
  {
    var points := PointsOf(s, slice, patch);
    ClusterCalls(s, slice, patch) + VertexCalls(s, patch, points) +
    TrackingCalls(s, slice, patch, v, points, TrackerOutput(s, slice, patch, v)) +
    MergeCalls(s, slice, patch, TrackerOutput(s, slice, patch, v))
  }

  datatype PatchOutcome = PatchOutcome(calls: seq<Call>, completed: bool, vertex: Vertex, tracks: TrackArray)

  /** One iteration of the patch loop of ProcessSlice */
  function PatchStep(s: Settings, slice: int, patch: int, vertex: Vertex, files: set<DigitFile>): PatchOutcome
    requires s.Valid() && 0 <= patch < s.nPatch
  {
    var input := OpeningCalls(s, slice, patch);
    if !InputAvailable(s, slice, patch, files) then PatchOutcome(input, false, vertex, NoTracks)
    else
      var v := PatchVertex(s, slice, patch, vertex);
      PatchOutcome(input + TrackedCalls(s, slice, patch, v), true, v, TrackerOutput(s, slice, patch, v))
  }

  datatype LoopOutcome = LoopOutcome(calls: seq<Call>, completed: bool, vertex: Vertex, fed: seq<PatchInput>)

  /** The outcome `rest` of the lower patches, after visits that made `calls` and fed `fed` */
  function After(calls: seq<Call>, fed: seq<PatchInput>, rest: LoopOutcome): LoopOutcome
  {
    LoopOutcome(calls + rest.calls, rest.completed, rest.vertex, fed + rest.fed)
  }

  /** The patch loop from `patch` down to 0; it stops at the first patch whose input is missing */
  function PatchLoop(s: Settings, slice: int, patch: int, vertex: Vertex, files: set<DigitFile>): LoopOutcome
    requires s.Valid() && -1 <= patch < s.nPatch
    decreases patch + 1, 2
  {
    if patch < 0 then LoopOutcome([], true, vertex, []) else PatchVisit(s, slice, patch, vertex, files)
  }

  /** The patch loop at patch `patch`: a patch whose input is missing stops it, any other is fed to the patch merger */
  function PatchVisit(s: Settings, slice: int, patch: int, vertex: Vertex, files: set<DigitFile>): LoopOutcome
    requires s.Valid() && 0 <= patch < s.nPatch
    decreases patch + 1, 1
  {
    if !InputAvailable(s, slice, patch, files) then LoopOutcome(OpeningCalls(s, slice, patch), false, vertex, [])
    else PatchFed(s, slice, patch, vertex, files)
  }

  /** A patch that reads its input is tracked and fed to the patch merger, and the loop goes on below it */
  function PatchFed(s: Settings, slice: int, patch: int, vertex: Vertex, files: set<DigitFile>): LoopOutcome
    requires s.Valid() && 0 <= patch < s.nPatch
    decreases patch + 1, 0
  {
    var step := PatchStep(s, slice, patch, vertex, files);
    After(step.calls, [PatchInput(patch, step.tracks)], PatchLoop(s, slice, patch - 1, step.vertex, files))
  }

  /** One turn of the patch loop, in terms of the patch's own outcome */
  lemma PatchLoopUnfold(s: Settings, slice: int, patch: int, vertex: Vertex, files: set<DigitFile>)
    requires s.Valid() && 0 <= patch < s.nPatch
    ensures var step := PatchStep(s, slice, patch, vertex, files);
      PatchLoop(s, slice, patch, vertex, files) ==
        if step.completed then After(step.calls, [PatchInput(patch, step.tracks)], PatchLoop(s, slice, patch - 1, step.vertex, files))
        else LoopOutcome(step.calls, false, vertex, [])
  {
    assert PatchLoop(s, slice, patch, vertex, files) == PatchVisit(s, slice, patch, vertex, files);
    if InputAvailable(s, slice, patch, files) {
      assert PatchVisit(s, slice, patch, vertex, files) == PatchFed(s, slice, patch, vertex, files);
    }
  }

  datatype SliceOutcome = SliceOutcome(calls: seq<Call>, completed: bool, vertex: Vertex, fed: seq<PatchInput>, trackData: TrackArray)

  function SliceHead(s: Settings): seq<Call>
  {
    [PatchMerger(MergerReset), PatchMerger(MergerSetRows(s.rows))]
  }

  /** ProcessSlice: reset the patch merger, run the patch loop, concatenate the patch tracks */
  function SliceRun(s: Settings, slice: int, vertex: Vertex, trackData: TrackArray, files: set<DigitFile>): SliceOutcome
    requires s.Valid()
  {
    SliceFrom(s, slice, PatchLoop(s, slice, s.nPatch - 1, vertex, files), trackData)
  }

  /** A slice around the outcome of its patch loop */
  function SliceFrom(s: Settings, slice: int, loop: LoopOutcome, trackData: TrackArray): SliceOutcome
  {
    if loop.completed
    then SliceOutcome(SliceHead(s) + loop.calls + [PatchMerger(MergerAddAllTracks)], true, loop.vertex, loop.fed, PatchMerged(slice, loop.fed))
    else SliceOutcome(SliceHead(s) + loop.calls, false, loop.vertex, loop.fed, trackData)
  }

  // ---------------------------------------------------------------------------
  // ProcessEvent, WriteTracks, WriteResults
  // ---------------------------------------------------------------------------

  /** Registering one slice with the global merger, after ProcessSlice */
  function RegistrationCalls(vertex: Vertex, slice: int, tracks: TrackArray): seq<Call>
  {
    [Global(GlobalSetVertex(vertex))] + [Global(GlobalInitSlice(slice))] + [Global(GlobalFillTracks(tracks))] + [Input(FileHandlerFree)]
  }

  datatype EventOutcome = EventOutcome(calls: seq<Call>, vertex: Vertex, trackData: TrackArray, registered: seq<TrackArray>)

  /** The outcome `rest` of the later slices, after slices that made `calls` and registered `registered` */
  function SlicesAfter(calls: seq<Call>, registered: seq<TrackArray>, rest: EventOutcome): EventOutcome
  {
    EventOutcome(calls + rest.calls, rest.vertex, rest.trackData, registered + rest.registered)
  }

  /** The ascending slice loop of ProcessEvent from `slice` to `last` */
  function SliceLoop(s: Settings, slice: int, last: int, vertex: Vertex, trackData: TrackArray, files: set<DigitFile>): EventOutcome
    requires s.Valid()
    decreases if slice <= last then last - slice + 1 else 0, 1
  {
    if slice > last then EventOutcome([], vertex, trackData, []) else SliceVisit(s, slice, last, vertex, trackData, files)
  }

  /** The slice loop at slice `slice`: ProcessSlice, the registration with the global merger, and the slices after it */
  function SliceVisit(s: Settings, slice: int, last: int, vertex: Vertex, trackData: TrackArray, files: set<DigitFile>): EventOutcome
    requires s.Valid() && slice <= last
    decreases last - slice + 1, 0
  {
    var r := SliceRun(s, slice, vertex, trackData, files);
    SlicesAfter(r.calls + RegistrationCalls(r.vertex, slice, r.trackData), [r.trackData],
                SliceLoop(s, slice + 1, last, r.vertex, NoTracks, files))
  }

  /** The arrays WriteTracks writes for an option character */
  function WrittenArrays(m: MergerView, opt: char): (r: seq<TrackArray>)
    ensures opt == 'a' ==> r == m.inputs + [m.output]
    ensures opt == 'i' ==> r == m.inputs
    ensures opt == 'o' ==> r == [m.output]
    ensures opt != 'a' && opt != 'i' && opt != 'o' ==> r == []
  {
    (if opt == 'a' || opt == 'i' then m.inputs else []) + (if opt == 'o' || opt == 'a' then [m.output] else [])
  }

  function WriteCalls(arrays: seq<TrackArray>): (r: seq<Call>)
    ensures |r| == |arrays| && forall i | 0 <= i < |arrays| :: r[i] == Output(WriteTrackArray(arrays[i]))
  {
    seq(|arrays|, i requires 0 <= i < |arrays| => Output(WriteTrackArray(arrays[i])))
  }

  /** The calls of one WriteTracks */
  function TrackFileCalls(file: OutputFile, m: MergerView, opt: char): seq<Call>
  {
    [Output(OpenOutput(file))] + WriteCalls(WrittenArrays(m, opt)) + [Output(CloseOutput)]
  }

  /** The calls of WriteResults */
  function ResultCalls(dir: string, m: MergerView): seq<Call>
  {
    TrackFileCalls(TracksFile(dir), m, 'a') + TrackFileCalls(GlobalTracksFile(dir), m, 'o')
  }

  /** WriteResults writes all inputs and then the output to one file, and the output alone to another */
  lemma ResultsFiles(dir: string, m: MergerView)
    ensures ResultCalls(dir, m) ==
      [Output(OpenOutput(TracksFile(dir)))] + WriteCalls(m.inputs) +
      [Output(WriteTrackArray(m.output)), Output(CloseOutput)] +
      [Output(OpenOutput(GlobalTracksFile(dir))), Output(WriteTrackArray(m.output)), Output(CloseOutput)]
  {
    assert WriteCalls(m.inputs + [m.output]) == WriteCalls(m.inputs) + [Output(WriteTrackArray(m.output))];
  }

  /** ProcessEvent: create the global merger, run the slices, merge once, write, delete */
  function EventCalls(s: Settings, first: int, last: int, vertex: Vertex, trackData: TrackArray, files: set<DigitFile>): seq<Call>
    requires s.Valid()
  {
    EventFrom(s, first, last, SliceLoop(s, first, last, vertex, trackData, files))
  }

  /** An event around the outcome of its slice loop */
  function EventFrom(s: Settings, first: int, last: int, out: EventOutcome): seq<Call>
  {
    [Global(GlobalCreate(first, last))] + out.calls + EventTail(s, first, last, out.registered)
  }

  // ---------------------------------------------------------------------------
  // Properties of the segments of one patch
  // ---------------------------------------------------------------------------

  /** What the tracker is told on a patch it runs over: the vertex, then the passes */
  function PatchTracking(s: Settings, v: Vertex): seq<Call>
  {
    [Tracker(SetTrackerVertex(v))] + Passes(s)
  }

  lemma OpeningVisits(s: Settings, slice: int, patch: int)
    requires 0 <= patch < |s.rows|
    ensures Select(Visits, OpeningCalls(s, slice, patch)) == [Input(FileHandlerInit(slice, patch, s.rows[patch]))]
  {
    var visit := Input(FileHandlerInit(slice, patch, s.rows[patch]));
    SelectSingle(Visits, visit);
    SelectNone(Visits, OpenCalls(s, slice, patch));
    SelectAppend(Visits, [visit], OpenCalls(s, slice, patch));
  }

  lemma OpeningQuiet(k: Kind, s: Settings, slice: int, patch: int)
    requires 0 <= patch < |s.rows| && k != Visits
    ensures Select(k, OpeningCalls(s, slice, patch)) == []
  {
    SelectNone(k, OpeningCalls(s, slice, patch));
  }

  lemma ClusterQuiet(k: Kind, s: Settings, slice: int, patch: int)
    requires 0 <= patch < |s.rows|
    ensures Select(k, ClusterCalls(s, slice, patch)) == []
  {
    SelectNone(k, ClusterCalls(s, slice, patch));
  }

  lemma MergeQuiet(k: Kind, s: Settings, slice: int, patch: int, tracks: TrackArray)
    requires 0 <= patch < |s.rows|
    ensures Select(k, MergeCalls(s, slice, patch, tracks)) == []
  {
    SelectNone(k, MergeCalls(s, slice, patch, tracks));
  }

  lemma VertexSettingsOf(s: Settings, patch: int, points: Points)
    ensures Select(VertexSettings, VertexCalls(s, patch, points)) == VertexCalls(s, patch, points)
  {
    if patch == s.nPatch - 1 {
      var a, b := VertexDecisionOf(s, points), PatchMerger(MergerSetVertex(DecidedVertex(s, points)));
      SelectSingle(VertexSettings, a);
      SelectSingle(VertexSettings, b);
      SelectAppend(VertexSettings, [a], [b]);
    }
  }

  lemma VertexQuiet(k: Kind, s: Settings, patch: int, points: Points)
    requires k != VertexSettings
    ensures Select(k, VertexCalls(s, patch, points)) == []
  {
    SelectNone(k, VertexCalls(s, patch, points));
  }

  lemma PassesRuns(s: Settings)
    ensures Select(TrackerRuns, Passes(s)) == Passes(s)
  {
    SelectSingle(TrackerRuns, Tracker(MainVertexTracking));
    SelectOptional(TrackerRuns, s.doNonVertex, Tracker(NonVertexTracking));
    SelectAppend(TrackerRuns, [Tracker(MainVertexTracking)], if s.doNonVertex then [Tracker(NonVertexTracking)] else []);
  }

  lemma TailQuiet(k: Kind, s: Settings, slice: int, patch: int, points: Points, tracks: TrackArray)
    ensures Select(k, TrackingTail(s, slice, patch, points, tracks)) == []
  {
    SelectNone(k, TrackingTail(s, slice, patch, points, tracks));
  }

  lemma TrackerSetupRuns(rows: RowRange, slice: int, eta: Eta, v: Vertex, points: Points)
    ensures Select(TrackerRuns, [Tracker(InitSector(slice, rows, eta))] + [Tracker(SetTrackerVertex(v))] + [Tracker(ReadHits(points))])
      == [Tracker(SetTrackerVertex(v))]
  {
    var k := TrackerRuns;
    var a := [Tracker(InitSector(slice, rows, eta))];
    var b := [Tracker(SetTrackerVertex(v))];
    var c := [Tracker(ReadHits(points))];
    SelectSingle(k, a[0]);
    SelectSingle(k, b[0]);
    SelectSingle(k, c[0]);
    SelectAppend(k, a, b);
    SelectAppend(k, a + b, c);
  }

  /** The tracker is given the vertex and runs its passes; nothing else in a tracker run is of that kind */
  lemma TrackingRuns(s: Settings, slice: int, patch: int, v: Vertex, points: Points, tracks: TrackArray)
    requires 0 <= patch < |s.rows|
    ensures Select(TrackerRuns, TrackingCalls(s, slice, patch, v, points, tracks)) == PatchTracking(s, v)
  {
    var k := TrackerRuns;
    var setup := [Tracker(InitSector(slice, s.rows[patch], s.eta))] + [Tracker(SetTrackerVertex(v))] + [Tracker(ReadHits(points))];
    var p := Passes(s);
    var tail := TrackingTail(s, slice, patch, points, tracks);
    TrackerSetupRuns(s.rows[patch], slice, s.eta, v, points);
    PassesRuns(s);
    TailQuiet(k, s, slice, patch, points, tracks);
    SelectAppend(k, setup, p);
    SelectAppend(k, setup + p, tail);
  }

  lemma TrackingQuiet(k: Kind, s: Settings, slice: int, patch: int, v: Vertex, points: Points, tracks: TrackArray)
    requires 0 <= patch < |s.rows| && k != TrackerRuns
    ensures Select(k, TrackingCalls(s, slice, patch, v, points, tracks)) == []
  {
    SelectNone(k, TrackingCalls(s, slice, patch, v, points, tracks));
  }

  lemma TrackedVertex(s: Settings, slice: int, patch: int, v: Vertex)
    requires 0 <= patch < |s.rows|
    ensures Select(VertexSettings, TrackedCalls(s, slice, patch, v)) == VertexCalls(s, patch, PointsOf(s, slice, patch))
  {
    var k := VertexSettings;
    var points := PointsOf(s, slice, patch);
    var tracks := TrackerOutput(s, slice, patch, v);
    var a, b := ClusterCalls(s, slice, patch), VertexCalls(s, patch, points);
    var c, d := TrackingCalls(s, slice, patch, v, points, tracks), MergeCalls(s, slice, patch, tracks);
    ClusterQuiet(k, s, slice, patch);
    VertexSettingsOf(s, patch, points);
    TrackingQuiet(k, s, slice, patch, v, points, tracks);
    MergeQuiet(k, s, slice, patch, tracks);
    SelectAppend(k, a, b);
    SelectAppend(k, a + b, c);
    SelectAppend(k, a + b + c, d);
  }

  lemma TrackedRuns(s: Settings, slice: int, patch: int, v: Vertex)
    requires 0 <= patch < |s.rows|
    ensures Select(TrackerRuns, TrackedCalls(s, slice, patch, v)) == PatchTracking(s, v)
  {
    var k := TrackerRuns;
    var points := PointsOf(s, slice, patch);
    var tracks := TrackerOutput(s, slice, patch, v);
    var a, b := ClusterCalls(s, slice, patch), VertexCalls(s, patch, points);
    var c, d := TrackingCalls(s, slice, patch, v, points, tracks), MergeCalls(s, slice, patch, tracks);
    ClusterQuiet(k, s, slice, patch);
    VertexQuiet(k, s, patch, points);
    TrackingRuns(s, slice, patch, v, points, tracks);
    MergeQuiet(k, s, slice, patch, tracks);
    SelectAppend(k, a, b);
    SelectAppend(k, a + b, c);
    SelectAppend(k, a + b + c, d);
  }

  lemma TrackedQuiet(k: Kind, s: Settings, slice: int, patch: int, v: Vertex)
    requires 0 <= patch < |s.rows| && k != VertexSettings && k != TrackerRuns
    ensures Select(k, TrackedCalls(s, slice, patch, v)) == []
  {
    var points := PointsOf(s, slice, patch);
    var tracks := TrackerOutput(s, slice, patch, v);
    var a, b := ClusterCalls(s, slice, patch), VertexCalls(s, patch, points);
    var c, d := TrackingCalls(s, slice, patch, v, points, tracks), MergeCalls(s, slice, patch, tracks);
    ClusterQuiet(k, s, slice, patch);
    VertexQuiet(k, s, patch, points);
    TrackingQuiet(k, s, slice, patch, v, points, tracks);
    MergeQuiet(k, s, slice, patch, tracks);
    SelectAppend(k, a, b);
    SelectAppend(k, a + b, c);
    SelectAppend(k, a + b + c, d);
  }

  // ---------------------------------------------------------------------------
  // Properties of one patch
  // ---------------------------------------------------------------------------

  /**
   * A patch completes exactly when its input can be read; then it tracks with
   * the patch vertex and hands the tracker output on.  Otherwise the digit
   * file is missing in binary mode, and the vertex is kept.
   */
  lemma PatchStepOutcome(s: Settings, slice: int, patch: int, vertex: Vertex, files: set<DigitFile>)
    requires s.Valid() && 0 <= patch < s.nPatch
    ensures var step := PatchStep(s, slice, patch, vertex, files);
      && (step.completed <==> InputAvailable(s, slice, patch, files))
      && (step.completed ==> step.vertex == PatchVertex(s, slice, patch, vertex)
                             && step.tracks == TrackerOutput(s, slice, patch, step.vertex))
      && (!step.completed ==> step.vertex == vertex && s.useBinary && DigitFileOf(s, slice, patch) !in files)
  {
  }

  /** A patch whose digit file is missing ends with the attempt to open that file */
  lemma PatchAbortsAfterOpen(s: Settings, slice: int, patch: int, vertex: Vertex, files: set<DigitFile>)
    requires s.Valid() && 0 <= patch < s.nPatch
    requires !InputAvailable(s, slice, patch, files)
    ensures var calls := PatchStep(s, slice, patch, vertex, files).calls;
      |calls| > 0 && calls[|calls| - 1] == OpenCall(s, slice, patch)
  {
  }

  /** The visit of a patch is its first call, and the only visit it makes */
  lemma PatchStepVisits(s: Settings, slice: int, patch: int, vertex: Vertex, files: set<DigitFile>)
    requires s.Valid() && 0 <= patch < s.nPatch
    ensures var step := PatchStep(s, slice, patch, vertex, files);
      && step.calls[0] == Input(FileHandlerInit(slice, patch, s.rows[patch]))
      && Select(Visits, step.calls) == [Input(FileHandlerInit(slice, patch, s.rows[patch]))]
  {
    var step := PatchStep(s, slice, patch, vertex, files);
    OpeningVisits(s, slice, patch);
    if step.completed {
      TrackedQuiet(Visits, s, slice, patch, step.vertex);
      SelectAppend(Visits, OpeningCalls(s, slice, patch), TrackedCalls(s, slice, patch, step.vertex));
    }
  }

  /** A patch that reads its input decides the vertex exactly when it is the first visited patch */
  lemma PatchStepVertex(s: Settings, slice: int, patch: int, vertex: Vertex, files: set<DigitFile>)
    requires s.Valid() && 0 <= patch < s.nPatch
    ensures var step := PatchStep(s, slice, patch, vertex, files);
      Select(VertexSettings, step.calls) == if step.completed then VertexCalls(s, patch, PointsOf(s, slice, patch)) else []
  {
    var step := PatchStep(s, slice, patch, vertex, files);
    OpeningQuiet(VertexSettings, s, slice, patch);
    if step.completed {
      TrackedVertex(s, slice, patch, step.vertex);
      SelectAppend(VertexSettings, OpeningCalls(s, slice, patch), TrackedCalls(s, slice, patch, step.vertex));
    }
  }

  /** A patch that reads its input hands its vertex to the tracker and runs the passes */
  lemma PatchStepTracking(s: Settings, slice: int, patch: int, vertex: Vertex, files: set<DigitFile>)
    requires s.Valid() && 0 <= patch < s.nPatch
    ensures var step := PatchStep(s, slice, patch, vertex, files);
      Select(TrackerRuns, step.calls) == if step.completed then PatchTracking(s, step.vertex) else []
  {
    var step := PatchStep(s, slice, patch, vertex, files);
    OpeningQuiet(TrackerRuns, s, slice, patch);
    if step.completed {
      TrackedRuns(s, slice, patch, step.vertex);
      SelectAppend(TrackerRuns, OpeningCalls(s, slice, patch), TrackedCalls(s, slice, patch, step.vertex));
    }
  }

  /** A patch makes no calls of the slice and event levels */
  lemma PatchStepQuiet(k: Kind, s: Settings, slice: int, patch: int, vertex: Vertex, files: set<DigitFile>)
    requires s.Valid() && 0 <= patch < s.nPatch
    requires k != Visits && k != VertexSettings && k != TrackerRuns
    ensures Select(k, PatchStep(s, slice, patch, vertex, files).calls) == []
  {
    var step := PatchStep(s, slice, patch, vertex, files);
    OpeningQuiet(k, s, slice, patch);
    if step.completed {
      TrackedQuiet(k, s, slice, patch, step.vertex);
      SelectAppend(k, OpeningCalls(s, slice, patch), TrackedCalls(s, slice, patch, step.vertex));
    }
  }

  // ---------------------------------------------------------------------------
  // Properties of the patch loop
  // ---------------------------------------------------------------------------

  /** The visits of the patches patch, patch-1, ..., patch-n+1 (down to 0), each with its own rows */
  function VisitsFrom(s: Settings, slice: int, patch: int, n: int): seq<Call>
    requires patch < |s.rows|
    decreases n
  {
    if n <= 0 || patch < 0 then [] else [Input(FileHandlerInit(slice, patch, s.rows[patch]))] + VisitsFrom(s, slice, patch - 1, n - 1)
  }

  function Repeat(x: seq<Call>, n: nat): seq<Call>
  {
    if n == 0 then [] else x + Repeat(x, n - 1)
  }

  lemma {:induction false} VisitsFromIndex(s: Settings, slice: int, patch: int, n: nat)
    requires n <= patch + 1 && patch < |s.rows|
    ensures |VisitsFrom(s, slice, patch, n)| == n
    ensures forall k | 0 <= k < n :: VisitsFrom(s, slice, patch, n)[k] == Input(FileHandlerInit(slice, patch - k, s.rows[patch - k]))
    decreases n
  {
    if n > 0 {
      VisitsFromIndex(s, slice, patch - 1, n - 1);
      var r := VisitsFrom(s, slice, patch, n);
      forall k | 0 <= k < n
        ensures r[k] == Input(FileHandlerInit(slice, patch - k, s.rows[patch - k]))
      {
        if k > 0 {
          assert r[k] == VisitsFrom(s, slice, patch - 1, n - 1)[k - 1];
        }
      }
    }
  }

  lemma {:induction false} RepeatLength(x: seq<Call>, n: nat)
    ensures |Repeat(x, n)| == n * |x|
  {
    if n > 0 {
      RepeatLength(x, n - 1);
      assert n * |x| == |x| + (n - 1) * |x|;
    }
  }

  /** How many patches a loop tried: those it fed to the patch merger, and the failed one when it stopped */
  function Tried(r: LoopOutcome): nat
  {
    if r.completed then |r.fed| else |r.fed| + 1
  }

  /** The patch loop tries at most the patches from `patch` down to 0, and feeds them all when it completes */
  lemma {:induction false} PatchLoopTried(s: Settings, slice: int, patch: int, vertex: Vertex, files: set<DigitFile>)
    requires s.Valid() && -1 <= patch < s.nPatch
    ensures var r := PatchLoop(s, slice, patch, vertex, files);
      && Tried(r) <= patch + 1
      && (r.completed ==> |r.fed| == patch + 1)
    decreases patch + 1
  {
    if patch >= 0 {
      var step := PatchStep(s, slice, patch, vertex, files);
      PatchLoopUnfold(s, slice, patch, vertex, files);
      if step.completed {
        PatchLoopTried(s, slice, patch - 1, step.vertex, files);
      }
    }
  }

  /**
   * The patch loop completes exactly when every patch from `patch` down to 0
   * can read its input; otherwise it stops at the first patch whose input is
   * missing.
   */
  lemma {:induction false} PatchLoopStops(s: Settings, slice: int, patch: int, vertex: Vertex, files: set<DigitFile>)
    requires s.Valid() && -1 <= patch < s.nPatch
    ensures var r := PatchLoop(s, slice, patch, vertex, files);
      && (r.completed <==> forall p | 0 <= p <= patch :: InputAvailable(s, slice, p, files))
      && (!r.completed ==> !InputAvailable(s, slice, patch - |r.fed|, files))
    decreases patch + 1
  {
    if patch >= 0 {
      var step := PatchStep(s, slice, patch, vertex, files);
      PatchLoopUnfold(s, slice, patch, vertex, files);
      PatchStepOutcome(s, slice, patch, vertex, files);
      if step.completed {
        PatchLoopStops(s, slice, patch - 1, step.vertex, files);
      }
    }
  }

  /**
   * The patch loop visits the patches patch, patch-1, ... in this order, each
   * with its own rows, up to the first one whose input is missing.
   */
  lemma {:induction false} PatchLoopVisits(s: Settings, slice: int, patch: int, vertex: Vertex, files: set<DigitFile>)
    requires s.Valid() && -1 <= patch < s.nPatch
    ensures var r := PatchLoop(s, slice, patch, vertex, files);
      Select(Visits, r.calls) == VisitsFrom(s, slice, patch, Tried(r))
    decreases patch + 1
  {
    if patch >= 0 {
      var step := PatchStep(s, slice, patch, vertex, files);
      PatchLoopUnfold(s, slice, patch, vertex, files);
      PatchStepVisits(s, slice, patch, vertex, files);
      if step.completed {
        var rest := PatchLoop(s, slice, patch - 1, step.vertex, files);
        PatchLoopVisits(s, slice, patch - 1, step.vertex, files);
        SelectAppend(Visits, step.calls, rest.calls);
      }
    }
  }

  /** The patch loop makes no calls of the slice and event levels */
  lemma {:induction false} PatchLoopQuiet(k: Kind, s: Settings, slice: int, patch: int, vertex: Vertex, files: set<DigitFile>)
    requires s.Valid() && -1 <= patch < s.nPatch
    requires k != Visits && k != VertexSettings && k != TrackerRuns
    ensures Select(k, PatchLoop(s, slice, patch, vertex, files).calls) == []
    decreases patch + 1
  {
    if patch >= 0 {
      var step := PatchStep(s, slice, patch, vertex, files);
      PatchLoopUnfold(s, slice, patch, vertex, files);
      PatchStepQuiet(k, s, slice, patch, vertex, files);
      if step.completed {
        PatchLoopQuiet(k, s, slice, patch - 1, step.vertex, files);
        SelectAppend(k, step.calls, PatchLoop(s, slice, patch - 1, step.vertex, files).calls);
      }
    }
  }

  /** Below the first visited patch the vertex stays as it is given */
  lemma {:induction false} LowerPatchesVertex(s: Settings, slice: int, patch: int, vertex: Vertex, files: set<DigitFile>)
    requires s.Valid() && -1 <= patch < s.nPatch - 1
    ensures PatchLoop(s, slice, patch, vertex, files).vertex == vertex
    decreases patch + 1
  {
    if patch >= 0 {
      var step := PatchStep(s, slice, patch, vertex, files);
      PatchLoopUnfold(s, slice, patch, vertex, files);
      PatchStepOutcome(s, slice, patch, vertex, files);
      if step.completed {
        LowerPatchesVertex(s, slice, patch - 1, vertex, files);
      }
    }
  }

  /**
   * Below the first visited patch the vertex stays as it is given, and every
   * patch feeds its own tracker output, tracked with that vertex, to the
   * patch merger.
   */
  lemma {:induction false} LowerPatchesFed(s: Settings, slice: int, patch: int, vertex: Vertex, files: set<DigitFile>)
    requires s.Valid() && -1 <= patch < s.nPatch - 1
    ensures var r := PatchLoop(s, slice, patch, vertex, files);
      && r.vertex == vertex
      && |r.fed| <= patch + 1
      && (forall k | 0 <= k < |r.fed| :: r.fed[k] == PatchInput(patch - k, TrackerOutput(s, slice, patch - k, vertex)))
    decreases patch + 1
  {
    if patch >= 0 {
      var r := PatchLoop(s, slice, patch, vertex, files);
      var step := PatchStep(s, slice, patch, vertex, files);
      PatchLoopUnfold(s, slice, patch, vertex, files);
      PatchStepOutcome(s, slice, patch, vertex, files);
      if step.completed {
        LowerPatchesFed(s, slice, patch - 1, vertex, files);
        var rest := PatchLoop(s, slice, patch - 1, vertex, files);
        forall k | 0 <= k < |r.fed|
          ensures r.fed[k] == PatchInput(patch - k, TrackerOutput(s, slice, patch - k, vertex))
        {
          if k > 0 {
            assert r.fed[k] == rest.fed[k - 1];
          }
        }
      }
    }
  }

  /** Below the first visited patch nothing decides the vertex */
  lemma {:induction false} LowerPatchesUndecided(s: Settings, slice: int, patch: int, vertex: Vertex, files: set<DigitFile>)
    requires s.Valid() && -1 <= patch < s.nPatch - 1
    ensures Select(VertexSettings, PatchLoop(s, slice, patch, vertex, files).calls) == []
    decreases patch + 1
  {
    if patch >= 0 {
      var step := PatchStep(s, slice, patch, vertex, files);
      PatchLoopUnfold(s, slice, patch, vertex, files);
      PatchStepVertex(s, slice, patch, vertex, files);
      if step.completed {
        LowerPatchesUndecided(s, slice, patch - 1, step.vertex, files);
        SelectAppend(VertexSettings, step.calls, PatchLoop(s, slice, patch - 1, step.vertex, files).calls);
      }
    }
  }

  /**
   * Below the first visited patch every patch fed to the patch merger hands
   * the vertex it is given to the tracker and runs the main-vertex pass and,
   * exactly when fDoNonVertex is set, the non-vertex pass.
   */
  lemma {:induction false} LowerPatchesTracking(s: Settings, slice: int, patch: int, vertex: Vertex, files: set<DigitFile>)
    requires s.Valid() && -1 <= patch < s.nPatch - 1
    ensures var r := PatchLoop(s, slice, patch, vertex, files);
      Select(TrackerRuns, r.calls) == Repeat(PatchTracking(s, vertex), |r.fed|)
    decreases patch + 1
  {
    if patch >= 0 {
      var r := PatchLoop(s, slice, patch, vertex, files);
      var step := PatchStep(s, slice, patch, vertex, files);
      PatchLoopUnfold(s, slice, patch, vertex, files);
      PatchStepTracking(s, slice, patch, vertex, files);
      PatchStepOutcome(s, slice, patch, vertex, files);
      if step.completed {
        var rest := PatchLoop(s, slice, patch - 1, vertex, files);
        LowerPatchesTracking(s, slice, patch - 1, vertex, files);
        SelectAppend(TrackerRuns, step.calls, rest.calls);
        assert |r.fed| == |rest.fed| + 1;
      }
    }
  }

  /** Whether the first visited patch of a slice gets past reading its input */
  predicate FirstPatchRead(s: Settings, slice: int, files: set<DigitFile>)
  {
    InputAvailable(s, slice, s.nPatch - 1, files)
  }

  /**
   * From the first visited patch, the loop ends with the vertex decided on
   * that patch, and every patch it feeds to the patch merger was tracked
   * with it; if the first patch cannot read its input, the vertex stays and
   * nothing is fed.
   */
  lemma TopPatchFed(s: Settings, slice: int, vertex: Vertex, files: set<DigitFile>)
    requires s.Valid()
    ensures var top := s.nPatch - 1;
      var r := PatchLoop(s, slice, top, vertex, files);
      && r.vertex == (if FirstPatchRead(s, slice, files) then DecidedVertex(s, PointsOf(s, slice, top)) else vertex)
      && (!FirstPatchRead(s, slice, files) ==> r.fed == [])
      && |r.fed| <= s.nPatch
      && (forall k | 0 <= k < |r.fed| :: r.fed[k] == PatchInput(top - k, TrackerOutput(s, slice, top - k, r.vertex)))
  {
    var top := s.nPatch - 1;
    var r := PatchLoop(s, slice, top, vertex, files);
    var step := PatchStep(s, slice, top, vertex, files);
    PatchLoopUnfold(s, slice, top, vertex, files);
    PatchStepOutcome(s, slice, top, vertex, files);
    if step.completed {
      LowerPatchesFed(s, slice, top - 1, step.vertex, files);
      var rest := PatchLoop(s, slice, top - 1, step.vertex, files);
      forall k | 0 <= k < |r.fed|
        ensures r.fed[k] == PatchInput(top - k, TrackerOutput(s, slice, top - k, r.vertex))
      {
        if k > 0 {
          assert r.fed[k] == rest.fed[k - 1];
        }
      }
    }
  }

  /**
   * From the first visited patch the vertex is decided once, by the vertex
   * finder on that patch's points or set to zero, and handed to the patch
   * merger; if that patch cannot read its input it is not decided at all.
   */
  lemma TopPatchDecides(s: Settings, slice: int, vertex: Vertex, files: set<DigitFile>)
    requires s.Valid()
    ensures var top := s.nPatch - 1;
      var r := PatchLoop(s, slice, top, vertex, files);
      Select(VertexSettings, r.calls) ==
        if FirstPatchRead(s, slice, files) then [VertexDecisionOf(s, PointsOf(s, slice, top)), PatchMerger(MergerSetVertex(r.vertex))] else []
  {
    var top := s.nPatch - 1;
    var step := PatchStep(s, slice, top, vertex, files);
    PatchLoopUnfold(s, slice, top, vertex, files);
    PatchStepVertex(s, slice, top, vertex, files);
    PatchStepOutcome(s, slice, top, vertex, files);
    if step.completed {
      var rest := PatchLoop(s, slice, top - 1, step.vertex, files);
      LowerPatchesUndecided(s, slice, top - 1, step.vertex, files);
      LowerPatchesVertex(s, slice, top - 1, step.vertex, files);
      SelectAppend(VertexSettings, step.calls, rest.calls);
    }
  }

  /** From the first visited patch, every patch fed to the patch merger tracks with the slice vertex */
  lemma TopPatchTracking(s: Settings, slice: int, vertex: Vertex, files: set<DigitFile>)
    requires s.Valid()
    ensures var r := PatchLoop(s, slice, s.nPatch - 1, vertex, files);
      Select(TrackerRuns, r.calls) == Repeat(PatchTracking(s, r.vertex), |r.fed|)
  {
    var top := s.nPatch - 1;
    var r := PatchLoop(s, slice, top, vertex, files);
    var step := PatchStep(s, slice, top, vertex, files);
    PatchLoopUnfold(s, slice, top, vertex, files);
    PatchStepTracking(s, slice, top, vertex, files);
    PatchStepOutcome(s, slice, top, vertex, files);
    if step.completed {
      var rest := PatchLoop(s, slice, top - 1, step.vertex, files);
      LowerPatchesTracking(s, slice, top - 1, step.vertex, files);
      LowerPatchesVertex(s, slice, top - 1, step.vertex, files);
      SelectAppend(TrackerRuns, step.calls, rest.calls);
      assert |r.fed| == |rest.fed| + 1;
    }
  }

  // ---------------------------------------------------------------------------
  // Properties of one slice
  // ---------------------------------------------------------------------------

  lemma HeadQuiet(k: Kind, s: Settings)
    ensures Select(k, SliceHead(s)) == []
  {
    SelectNone(k, SliceHead(s));
  }

  /** Apart from the concatenation, a slice makes the calls of its patch loop */
  lemma SliceFromSelect(k: Kind, s: Settings, slice: int, loop: LoopOutcome, trackData: TrackArray)
    requires k != Concats
    ensures Select(k, SliceFrom(s, slice, loop, trackData).calls) == Select(k, loop.calls)
  {
    var concat := PatchMerger(MergerAddAllTracks);
    HeadQuiet(k, s);
    SelectAppend(k, SliceHead(s), loop.calls);
    if loop.completed {
      SelectNone(k, [concat]);
      SelectAppend(k, SliceHead(s) + loop.calls, [concat]);
    }
  }

  /** A slice concatenates the patch tracks once, exactly when its patch loop completes */
  lemma SliceFromConcats(s: Settings, slice: int, loop: LoopOutcome, trackData: TrackArray)
    requires Select(Concats, loop.calls) == []
    ensures var r := SliceFrom(s, slice, loop, trackData);
      Select(Concats, r.calls) == if r.completed then [PatchMerger(MergerAddAllTracks)] else []
  {
    var concat := PatchMerger(MergerAddAllTracks);
    HeadQuiet(Concats, s);
    SelectAppend(Concats, SliceHead(s), loop.calls);
    if loop.completed {
      SelectSingle(Concats, concat);
      SelectAppend(Concats, SliceHead(s) + loop.calls, [concat]);
    }
  }

  /**
   * A ProcessSlice run starts by resetting the patch merger and completes
   * exactly when every patch can read its input.  Then the patch merger's
   * concatenation of all patches becomes the slice track data; otherwise it
   * returns at the first patch whose input is missing, leaving the track data
   * as it was.
   */
  lemma SliceRunOutcome(s: Settings, slice: int, vertex: Vertex, trackData: TrackArray, files: set<DigitFile>)
    requires s.Valid()
    ensures var r := SliceRun(s, slice, vertex, trackData, files);
      && r.calls[0] == PatchMerger(MergerReset)
      && (r.completed <==> forall p | 0 <= p < s.nPatch :: InputAvailable(s, slice, p, files))
      && (r.completed ==> |r.fed| == s.nPatch && r.trackData == PatchMerged(slice, r.fed))
      && (!r.completed ==> r.trackData == trackData && !InputAvailable(s, slice, s.nPatch - 1 - |r.fed|, files))
  {
    PatchLoopTried(s, slice, s.nPatch - 1, vertex, files);
    PatchLoopStops(s, slice, s.nPatch - 1, vertex, files);
  }

  /** A ProcessSlice run concatenates the patch tracks once, exactly when it completes */
  lemma SliceRunConcats(s: Settings, slice: int, vertex: Vertex, trackData: TrackArray, files: set<DigitFile>)
    requires s.Valid()
    ensures var r := SliceRun(s, slice, vertex, trackData, files);
      Select(Concats, r.calls) == if r.completed then [PatchMerger(MergerAddAllTracks)] else []
  {
    var loop := PatchLoop(s, slice, s.nPatch - 1, vertex, files);
    PatchLoopQuiet(Concats, s, slice, s.nPatch - 1, vertex, files);
    SliceFromConcats(s, slice, loop, trackData);
  }

  /**
   * A ProcessSlice run visits the patches nPatch-1, ..., 0 in this order, up
   * to the first one that cannot read its input.
   */
  lemma SliceRunVisits(s: Settings, slice: int, vertex: Vertex, trackData: TrackArray, files: set<DigitFile>)
    requires s.Valid()
    ensures var r := SliceRun(s, slice, vertex, trackData, files);
      var tried := if r.completed then |r.fed| else |r.fed| + 1;
      && tried <= s.nPatch
      && Select(Visits, r.calls) == VisitsFrom(s, slice, s.nPatch - 1, tried)
  {
    var loop := PatchLoop(s, slice, s.nPatch - 1, vertex, files);
    PatchLoopTried(s, slice, s.nPatch - 1, vertex, files);
    PatchLoopVisits(s, slice, s.nPatch - 1, vertex, files);
    SliceFromSelect(Visits, s, slice, loop, trackData);
  }

  /** A ProcessSlice run never calls the global merger */
  lemma SliceRunLocal(s: Settings, slice: int, vertex: Vertex, trackData: TrackArray, files: set<DigitFile>)
    requires s.Valid()
    ensures Select(GlobalCalls, SliceRun(s, slice, vertex, trackData, files).calls) == []
  {
    var loop := PatchLoop(s, slice, s.nPatch - 1, vertex, files);
    PatchLoopQuiet(GlobalCalls, s, slice, s.nPatch - 1, vertex, files);
    SliceFromSelect(GlobalCalls, s, slice, loop, trackData);
  }

  /**
   * The vertex is decided once per slice, on the first visited patch, and
   * kept for the rest of the slice; every patch fed to the patch merger was
   * tracked with it.  If the first patch cannot read its input, the previous
   * vertex stays and nothing is fed.
   */
  lemma SliceVertex(s: Settings, slice: int, vertex: Vertex, trackData: TrackArray, files: set<DigitFile>)
    requires s.Valid()
    ensures var r := SliceRun(s, slice, vertex, trackData, files);
      var top := s.nPatch - 1;
      && r.vertex == (if FirstPatchRead(s, slice, files) then DecidedVertex(s, PointsOf(s, slice, top)) else vertex)
      && (!FirstPatchRead(s, slice, files) ==> r.fed == [])
      && |r.fed| <= s.nPatch
      && (forall k | 0 <= k < |r.fed| :: r.fed[k] == PatchInput(top - k, TrackerOutput(s, slice, top - k, r.vertex)))
  {
    TopPatchFed(s, slice, vertex, files);
  }

  /**
   * When the first patch reads its input, the vertex is decided exactly once
   * in the slice, by the vertex finder on that patch's points or set to zero,
   * and handed to the patch merger; otherwise it is not decided at all.
   */
  lemma SliceVertexDecidedOnce(s: Settings, slice: int, vertex: Vertex, trackData: TrackArray, files: set<DigitFile>)
    requires s.Valid()
    ensures var r := SliceRun(s, slice, vertex, trackData, files);
      Select(VertexSettings, r.calls) ==
        if FirstPatchRead(s, slice, files) then [VertexDecisionOf(s, PointsOf(s, slice, s.nPatch - 1)), PatchMerger(MergerSetVertex(r.vertex))] else []
  {
    var loop := PatchLoop(s, slice, s.nPatch - 1, vertex, files);
    TopPatchDecides(s, slice, vertex, files);
    SliceFromSelect(VertexSettings, s, slice, loop, trackData);
  }

  /**
   * Every patch of a slice fed to the patch merger hands the slice vertex to
   * the tracker and runs the main-vertex pass and, exactly when fDoNonVertex
   * is set, the non-vertex pass; no other patch runs the tracker.
   */
  lemma SliceTracking(s: Settings, slice: int, vertex: Vertex, trackData: TrackArray, files: set<DigitFile>)
    requires s.Valid()
    ensures var r := SliceRun(s, slice, vertex, trackData, files);
      Select(TrackerRuns, r.calls) == Repeat(PatchTracking(s, r.vertex), |r.fed|)
  {
    var loop := PatchLoop(s, slice, s.nPatch - 1, vertex, files);
    TopPatchTracking(s, slice, vertex, files);
    SliceFromSelect(TrackerRuns, s, slice, loop, trackData);
  }

  // ---------------------------------------------------------------------------
  // Properties of the event loop
  // ---------------------------------------------------------------------------

  /** The initialisation of the global merger's slices slice, slice+1, ..., last */
  function InitsFrom(slice: int, last: int): seq<Call>
    decreases if slice <= last then last - slice + 1 else 0
  {
    if slice > last then [] else [Global(GlobalInitSlice(slice))] + InitsFrom(slice + 1, last)
  }

  /** Filling the global merger with each of `arrays`, in order */
  function Fills(arrays: seq<TrackArray>): seq<Call>
  {
    if arrays == [] then [] else [Global(GlobalFillTracks(arrays[0]))] + Fills(arrays[1..])
  }

  lemma RegistrationInits(vertex: Vertex, slice: int, tracks: TrackArray)
    ensures Select(SliceInits, RegistrationCalls(vertex, slice, tracks)) == [Global(GlobalInitSlice(slice))]
  {
    var k := SliceInits;
    var a, b, c, d := Global(GlobalSetVertex(vertex)), Global(GlobalInitSlice(slice)), Global(GlobalFillTracks(tracks)), Input(FileHandlerFree);
    SelectSingle(k, a);
    SelectSingle(k, b);
    SelectSingle(k, c);
    SelectSingle(k, d);
    SelectAppend(k, [a], [b]);
    SelectAppend(k, [a] + [b], [c]);
    SelectAppend(k, [a] + [b] + [c], [d]);
  }

  lemma RegistrationFills(vertex: Vertex, slice: int, tracks: TrackArray)
    ensures Select(MergeSteps, RegistrationCalls(vertex, slice, tracks)) == [Global(GlobalFillTracks(tracks))]
  {
    var k := MergeSteps;
    var a, b, c, d := Global(GlobalSetVertex(vertex)), Global(GlobalInitSlice(slice)), Global(GlobalFillTracks(tracks)), Input(FileHandlerFree);
    SelectSingle(k, a);
    SelectSingle(k, b);
    SelectSingle(k, c);
    SelectSingle(k, d);
    SelectAppend(k, [a], [b]);
    SelectAppend(k, [a] + [b], [c]);
    SelectAppend(k, [a] + [b] + [c], [d]);
  }

  /** A ProcessSlice run leaves the patch merger's concatenation as the slice track data exactly when it completes */
  lemma SliceRunTrackData(s: Settings, slice: int, vertex: Vertex, trackData: TrackArray, files: set<DigitFile>)
    requires s.Valid()
    ensures var r := SliceRun(s, slice, vertex, trackData, files);
      r.trackData == if r.completed then PatchMerged(slice, r.fed) else trackData
  {
  }

  /** ProcessEvent's loop registers one track array per slice and leaves the slice track data reset */
  lemma {:induction false} SliceLoopCount(s: Settings, slice: int, last: int, vertex: Vertex, trackData: TrackArray, files: set<DigitFile>)
    requires s.Valid()
    ensures var out := SliceLoop(s, slice, last, vertex, trackData, files);
      && |out.registered| == (if slice <= last then last - slice + 1 else 0)
      && (slice <= last ==> out.trackData == NoTracks)
    decreases if slice <= last then last - slice + 1 else 0
  {
    if slice <= last {
      var r := SliceRun(s, slice, vertex, trackData, files);
      assert SliceLoop(s, slice, last, vertex, trackData, files) == SliceVisit(s, slice, last, vertex, trackData, files);
      SliceLoopCount(s, slice + 1, last, r.vertex, NoTracks, files);
    }
  }

  /**
   * ProcessEvent's loop hands the global merger, for each slice, that
   * slice's own patch-merger output, or else the track data the slice found:
   * the one it is given for the first slice and the reset value for every
   * later one.
   */
  lemma {:induction false} SliceLoopRegistered(s: Settings, slice: int, last: int, vertex: Vertex, trackData: TrackArray, files: set<DigitFile>)
    requires s.Valid()
    ensures var out := SliceLoop(s, slice, last, vertex, trackData, files);
      && (|out.registered| > 0 ==> out.registered[0] == trackData || out.registered[0] == PatchMerged(slice, SliceRun(s, slice, vertex, trackData, files).fed))
      && forall k | 1 <= k < |out.registered| ::
           out.registered[k] == NoTracks || (out.registered[k].PatchMerged? && out.registered[k].slice == slice + k)
    decreases if slice <= last then last - slice + 1 else 0
  {
    var out := SliceLoop(s, slice, last, vertex, trackData, files);
    if slice <= last {
      var r := SliceRun(s, slice, vertex, trackData, files);
      var rest := SliceLoop(s, slice + 1, last, r.vertex, NoTracks, files);
      assert out == SliceVisit(s, slice, last, vertex, trackData, files);
      assert out.registered == [r.trackData] + rest.registered;
      SliceRunTrackData(s, slice, vertex, trackData, files);
      SliceLoopRegistered(s, slice + 1, last, r.vertex, NoTracks, files);
      forall k | 1 <= k < |out.registered|
        ensures out.registered[k] == NoTracks || (out.registered[k].PatchMerged? && out.registered[k].slice == slice + k)
      {
        assert out.registered[k] == rest.registered[k - 1];
      }
    }
  }

  /**
   * ProcessEvent's loop initialises the global merger's slices slice,
   * slice+1, ..., last in this order.
   */
  lemma {:induction false} SliceLoopInits(s: Settings, slice: int, last: int, vertex: Vertex, trackData: TrackArray, files: set<DigitFile>)
    requires s.Valid()
    ensures Select(SliceInits, SliceLoop(s, slice, last, vertex, trackData, files).calls) == InitsFrom(slice, last)
    decreases if slice <= last then last - slice + 1 else 0
  {
    if slice <= last {
      var r := SliceRun(s, slice, vertex, trackData, files);
      SliceRunLocal(s, slice, vertex, trackData, files);
      NoGlobalCalls(r.calls);
      SliceLoopInits(s, slice + 1, last, r.vertex, NoTracks, files);
      var rest := SliceLoop(s, slice + 1, last, r.vertex, NoTracks, files);
      var reg := RegistrationCalls(r.vertex, slice, r.trackData);
      RegistrationInits(r.vertex, slice, r.trackData);
      SelectAppend(SliceInits, r.calls, reg);
      SelectAppend(SliceInits, r.calls + reg, rest.calls);
    }
  }

  /** ProcessEvent's loop fills the global merger once per slice with the track array it registers */
  lemma {:induction false} SliceLoopFills(s: Settings, slice: int, last: int, vertex: Vertex, trackData: TrackArray, files: set<DigitFile>)
    requires s.Valid()
    ensures var out := SliceLoop(s, slice, last, vertex, trackData, files);
      Select(MergeSteps, out.calls) == Fills(out.registered)
    decreases if slice <= last then last - slice + 1 else 0
  {
    if slice <= last {
      var r := SliceRun(s, slice, vertex, trackData, files);
      SliceRunLocal(s, slice, vertex, trackData, files);
      NoGlobalCalls(r.calls);
      SliceLoopFills(s, slice + 1, last, r.vertex, NoTracks, files);
      var rest := SliceLoop(s, slice + 1, last, r.vertex, NoTracks, files);
      var reg := RegistrationCalls(r.vertex, slice, r.trackData);
      RegistrationFills(r.vertex, slice, r.trackData);
      SelectAppend(MergeSteps, r.calls, reg);
      SelectAppend(MergeSteps, r.calls + reg, rest.calls);
      assert ([r.trackData] + rest.registered)[1..] == rest.registered;
    }
  }

  /** WriteResults calls nothing but the output */
  lemma ResultsOutputOnly(dir: string, m: MergerView)
    ensures forall c | c in ResultCalls(dir, m) :: c.Output?
  {
    var a := WriteCalls(WrittenArrays(m, 'a'));
    var o := WriteCalls(WrittenArrays(m, 'o'));
    assert forall c | c in a :: c.Output?;
    assert forall c | c in o :: c.Output?;
  }

  /** The end of an event: the global merge, the optional write-out and the deletion of the merger */
  function EventTail(s: Settings, first: int, last: int, registered: seq<TrackArray>): seq<Call>
  {
    var view := MergerView(registered, GlobalMerged(first, last, registered));
    ([Global(GlobalAddAllTracks)] + [Global(GlobalSlowMerge)]) +
    (if s.writeOut then ResultCalls(s.writeOutPath, view) else []) + [Global(GlobalDelete)]
  }

  /** WriteResults makes no call on the global merger */
  lemma ResultsQuiet(k: Kind, dir: string, m: MergerView)
    requires k == GlobalCalls || k == SliceInits || k == MergeSteps
    ensures Select(k, ResultCalls(dir, m)) == []
  {
    ResultsOutputOnly(dir, m);
    SelectNone(k, ResultCalls(dir, m));
  }

  lemma EventTailInits(s: Settings, first: int, last: int, registered: seq<TrackArray>)
    ensures Select(SliceInits, EventTail(s, first, last, registered)) == []
  {
    var view := MergerView(registered, GlobalMerged(first, last, registered));
    var mid := [Global(GlobalAddAllTracks)] + [Global(GlobalSlowMerge)];
    var writes := if s.writeOut then ResultCalls(s.writeOutPath, view) else [];
    ResultsQuiet(SliceInits, s.writeOutPath, view);
    SelectNone(SliceInits, mid);
    SelectNone(SliceInits, [Global(GlobalDelete)]);
    SelectAppend(SliceInits, mid, writes);
    SelectAppend(SliceInits, mid + writes, [Global(GlobalDelete)]);
  }

  lemma EventTailMerges(s: Settings, first: int, last: int, registered: seq<TrackArray>)
    ensures Select(MergeSteps, EventTail(s, first, last, registered)) == [Global(GlobalAddAllTracks), Global(GlobalSlowMerge)]
  {
    var view := MergerView(registered, GlobalMerged(first, last, registered));
    var mid := [Global(GlobalAddAllTracks)] + [Global(GlobalSlowMerge)];
    var writes := if s.writeOut then ResultCalls(s.writeOutPath, view) else [];
    ResultsQuiet(MergeSteps, s.writeOutPath, view);
    SelectSingle(MergeSteps, Global(GlobalAddAllTracks));
    SelectSingle(MergeSteps, Global(GlobalSlowMerge));
    SelectSingle(MergeSteps, Global(GlobalDelete));
    SelectAppend(MergeSteps, [Global(GlobalAddAllTracks)], [Global(GlobalSlowMerge)]);
    SelectAppend(MergeSteps, mid, writes);
    SelectAppend(MergeSteps, mid + writes, [Global(GlobalDelete)]);
  }

  /** An event creates the global merger first and deletes it last */
  lemma EventFromEnds(s: Settings, first: int, last: int, out: EventOutcome)
    ensures var calls := EventFrom(s, first, last, out);
      calls[0] == Global(GlobalCreate(first, last)) && calls[|calls| - 1] == Global(GlobalDelete)
  {
  }

  lemma EventFromInits(s: Settings, first: int, last: int, out: EventOutcome)
    ensures Select(SliceInits, EventFrom(s, first, last, out)) == Select(SliceInits, out.calls)
  {
    var head := [Global(GlobalCreate(first, last))];
    var tail := EventTail(s, first, last, out.registered);
    EventTailInits(s, first, last, out.registered);
    SelectSingle(SliceInits, head[0]);
    SelectAppend(SliceInits, head, out.calls);
    SelectAppend(SliceInits, head + out.calls, tail);
  }

  lemma EventFromMerges(s: Settings, first: int, last: int, out: EventOutcome)
    ensures Select(MergeSteps, EventFrom(s, first, last, out)) == Select(MergeSteps, out.calls) + [Global(GlobalAddAllTracks), Global(GlobalSlowMerge)]
  {
    var head := [Global(GlobalCreate(first, last))];
    var tail := EventTail(s, first, last, out.registered);
    EventTailMerges(s, first, last, out.registered);
    SelectSingle(MergeSteps, head[0]);
    SelectAppend(MergeSteps, head, out.calls);
    SelectAppend(MergeSteps, head + out.calls, tail);
  }

  /**
   * The global merge runs exactly once per event, after every slice has been
   * registered: between its creation and its deletion the global merger
   * initialises the slices first..last in increasing order, is filled once
   * per slice, and then runs AddAllTracks and SlowMerge, once each.
   */
  lemma MergeOnceAfterAllSlices(s: Settings, first: int, last: int, vertex: Vertex, trackData: TrackArray, files: set<DigitFile>)
    requires s.Valid()
    ensures var calls := EventCalls(s, first, last, vertex, trackData, files);
      var out := SliceLoop(s, first, last, vertex, trackData, files);
      && calls[0] == Global(GlobalCreate(first, last))
      && calls[|calls| - 1] == Global(GlobalDelete)
      && Select(SliceInits, calls) == InitsFrom(first, last)
      && |out.registered| == (if first <= last then last - first + 1 else 0)
      && Select(MergeSteps, calls) == Fills(out.registered) + [Global(GlobalAddAllTracks), Global(GlobalSlowMerge)]
  {
    var out := SliceLoop(s, first, last, vertex, trackData, files);
    SliceLoopCount(s, first, last, vertex, trackData, files);
    SliceLoopInits(s, first, last, vertex, trackData, files);
    SliceLoopFills(s, first, last, vertex, trackData, files);
    EventFromEnds(s, first, last, out);
    EventFromInits(s, first, last, out);
    EventFromMerges(s, first, last, out);
  }

  // ---------------------------------------------------------------------------
  // The orchestrator
  // ---------------------------------------------------------------------------

  /** AliLevel3 */
  class Level3 {
    /** Whether fInputFile is non-null */
    var hasInputFile: bool
    /**
     * The configuration members: fUseBinary, fWriteOut, fDoRoi,
     * fDoNonVertex, fFindVertex, fEta, fPath, fWriteOutPath, fNPatch and the
     * row table fRow, one row range per patch slot
     */
    var config: Settings
    var event: int
    /** The content of fVertex */
    var vertex: Vertex
    /** fTrackData/fNTrackData: the current slice track data */
    var trackData: TrackArray
    /** fGlobalMerger, while it exists */
    var global: Option<GlobalMergerState>
    /** Every call made on a collaborator, in order */
    var trace: seq<Call>
    /** Init has configured the object and created its collaborators */
    ghost var ready: bool

    ghost predicate Valid()
      reads this`config, this`ready
    {
      |config.rows| == MaxPatches && (ready ==> 1 <= config.nPatch <= MaxPatches)
    }

    /**
     * The constructors: only the presence of the input file is set up; the
     * remaining members get neutral values.
     */
    constructor (inputFilePresent: bool)
      ensures Valid() && !ready
      ensures hasInputFile == inputFilePresent && trace == [] && global == None && trackData == NoTracks
    {
      hasInputFile := inputFilePresent;
      config := Settings(false, false, false, false, false, Eta(0.0, 0.0), "", "", 0, seq(MaxPatches, _ => RowRange(0, 0)));
      event := 0;
      vertex, trackData, global, trace := InitialVertex, NoTracks, None, [];
      ready := false;
    }

    /**
     * Init: without binary input and without an input file it returns at
     * once; otherwise it initialises the geometry, sets the default flags and
     * the eta window, and chooses the patch partition.
     */
    method Init(p: string, binary: bool, npatches: int, geo: Geometry)
      requires Valid() && geo.Valid()
      modifies this
      ensures Valid()
      ensures !binary && !old(hasInputFile) ==> unchanged(this)
      ensures binary || old(hasInputFile) ==>
        && ready && hasInputFile == old(hasInputFile) && global == None && event == 0
        && config == Settings(binary, false, false, false, false, Eta(0.0, 1.1), p, old(config).writeOutPath,
                              PatchCount(npatches), PatchScheme(npatches, geo) + old(config).rows[PatchCount(npatches)..])
        && vertex == InitialVertex && trackData == old(trackData)
        && trace == old(trace) + [Setup(GeometryInit(p, !binary)), Setup(ComponentsCreated(config.nPatch))]
    {
      if !binary && !hasInputFile {
        return;
      }
      config := config.(writeOut := false, useBinary := binary, path := p);
      global := None;
      config := config.(doRoi := false, doNonVertex := false, findVertex := false);
      config := config.(eta := Eta(0.0, 1.1));
      event := 0;
      SetPatchScheme(npatches, geo);
      vertex := InitialVertex;
      trace := trace + [Setup(GeometryInit(p, !binary)), Setup(ComponentsCreated(config.nPatch))];
      ready := true;
    }

    /** The patch partition of Init */
    method SetPatchScheme(npatches: int, geo: Geometry)
      requires |config.rows| == MaxPatches && geo.Valid()
      modifies this`config
      ensures config == old(config).(nPatch := PatchCount(npatches), rows := PatchScheme(npatches, geo) + old(config).rows[PatchCount(npatches)..])
    {
      var rows := config.rows;
      if npatches == 1 {
        rows := rows[0 := RowRange(0, geo.nRows)];
        config := config.(nPatch := 1);
      } else if npatches == 2 {
        rows := rows[0 := RowRange(0, geo.lastRow[1])];
        rows := rows[1 := RowRange(geo.firstRow[2], geo.lastRow[5])];
        config := config.(nPatch := 2);
      } else {
        for i := 0 to MaxPatches
          invariant |rows| == MaxPatches
          invariant rows[..i] == PatchScheme(npatches, geo)[..i]
        {
          rows := rows[i := RowRange(geo.firstRow[i], geo.lastRow[i])];
        }
        config := config.(nPatch := 6);
      }
      config := config.(rows := rows);
    }

    /** SetTrackerParam: hands the parameters to the tracker */
    method SetTrackerParam(p: TrackerParams)
      requires Valid() && ready
      modifies this`trace
      ensures trace == old(trace) + TrackerParamCalls(p)
    {
      var calls := [Tracker(SetNSegments(p.phiSegments, p.etaSegments)), Tracker(SetMaxDca(p.minPtFit))];
      calls := calls + [Tracker(SetTrackCuts(p.hitChi2Cut, p.goodHitChi2, p.trackChi2Cut, p.maxDist, p.vertexConstraint))];
      calls := calls + [Tracker(SetTrackletCuts(p.maxAngle, p.goodDist, p.vertexConstraint))];
      if p.vertexConstraint {
        calls := calls + [Tracker(MainVertexSettings(p.trackletLength, p.trackLength, p.rowScopeTracklet, p.rowScopeTrack, p.maxPhi, p.maxEta))];
      } else {
        calls := calls + [Tracker(NonVertexSettings(p.trackletLength, p.trackLength, p.rowScopeTracklet, p.rowScopeTrack))];
      }
      calls := calls + [Tracker(SetParamDone), Tracker(InitVolumes)];
      trace := trace + calls;
    }

    /**
     * ProcessEvent: creates the global merger, processes slices first..last
     * in increasing order, registering each slice's tracks with the global
     * merger and resetting the slice track data, then merges once, writes the
     * results in write-out mode and deletes the global merger.
     */
    method ProcessEvent(first: int, last: int, ev: int, files: set<DigitFile>)
      requires Valid() && ready
      modifies this`trace, this`vertex, this`trackData, this`global, this`event
      ensures event == ev && global == None
      ensures var out := SliceLoop(config, first, last, old(vertex), old(trackData), files);
        && trace == old(trace) + EventCalls(config, first, last, old(vertex), old(trackData), files)
        && vertex == out.vertex && trackData == out.trackData
    {
      global := Some(GlobalMergerState(first, last, [], NoTracks));
      event := ev;
      var sliceCalls := RunSlices(first, last, files);
      var tail := FinishEvent(first, last);
      trace := trace + ([Global(GlobalCreate(first, last))] + sliceCalls + tail);
    }

    /** The slice loop of ProcessEvent; `calls` are the calls it makes */
    method RunSlices(first: int, last: int, files: set<DigitFile>) returns (calls: seq<Call>)
      requires Valid() && ready && global == Some(GlobalMergerState(first, last, [], NoTracks))
      modifies this`vertex, this`trackData, this`global
      ensures global.Some? && global.value == GlobalMergerState(first, last, global.value.inputs, NoTracks)
      ensures SliceLoop(config, first, last, old(vertex), old(trackData), files) == EventOutcome(calls, vertex, trackData, global.value.inputs)
    {
      ghost var s := config;
      ghost var whole := SliceLoop(s, first, last, vertex, trackData, files);
      calls := [];
      var i := first;
      while i <= last
        invariant global.Some? && global.value == GlobalMergerState(first, last, global.value.inputs, NoTracks)
        invariant whole == SlicesAfter(calls, global.value.inputs, SliceLoop(s, i, last, vertex, trackData, files))
        decreases last - i + 1
      {
        ghost var inputs := global.value.inputs;
        ghost var r := SliceRun(s, i, vertex, trackData, files);
        var sliceCalls := ProcessAndRegister(i, files);
        ghost var rest := SliceLoop(s, i + 1, last, r.vertex, NoTracks, files);
        AppendAssoc(calls, sliceCalls, rest.calls);
        AppendAssoc(inputs, [r.trackData], rest.registered);
        calls := calls + sliceCalls;
        i := i + 1;
      }
      assert calls + [] == calls;
      assert global.value.inputs + [] == global.value.inputs;
    }

    /** One iteration of the slice loop: ProcessSlice, then the registration with the global merger */
    method ProcessAndRegister(slice: int, files: set<DigitFile>) returns (calls: seq<Call>)
      requires Valid() && ready && global.Some?
      modifies this`vertex, this`trackData, this`global
      ensures var r := SliceRun(config, slice, old(vertex), old(trackData), files);
        && calls == r.calls + RegistrationCalls(r.vertex, slice, r.trackData)
        && vertex == r.vertex && trackData == NoTracks
        && global == Some(old(global).value.(inputs := old(global).value.inputs + [r.trackData]))
    {
      var sliceCalls := ProcessSlice(slice, files);
      var reg := RegisterSlice(slice);
      calls := sliceCalls + reg;
    }

    /**
     * After a slice: the global merger gets the vertex, initialises the
     * slice and is filled with the slice track data, the file handler frees
     * its memory, and the slice track data is reset.
     */
    method RegisterSlice(slice: int) returns (calls: seq<Call>)
      requires global.Some?
      modifies this`trackData, this`global
      ensures calls == RegistrationCalls(vertex, slice, old(trackData))
      ensures global == Some(old(global).value.(inputs := old(global).value.inputs + [old(trackData)]))
      ensures trackData == NoTracks
    {
      global := Some(global.value.(inputs := global.value.inputs + [trackData]));
      calls := [Global(GlobalSetVertex(vertex))] + [Global(GlobalInitSlice(slice))] + [Global(GlobalFillTracks(trackData))] + [Input(FileHandlerFree)];
      trackData := NoTracks;
    }

    /**
     * After the slices: the global merger adds all tracks and merges them,
     * the results are written in write-out mode, and the merger is deleted.
     */
    method FinishEvent(first: int, last: int) returns (calls: seq<Call>)
      requires global.Some?
      modifies this`global
      ensures calls == EventTail(config, first, last, old(global).value.inputs)
      ensures global == None
    {
      calls := [Global(GlobalAddAllTracks)] + [Global(GlobalSlowMerge)];
      global := Some(global.value.(output := GlobalMerged(first, last, global.value.inputs)));
      var writes := [];
      if config.writeOut {
        writes := WriteResults();
      }
      calls := calls + writes + [Global(GlobalDelete)];
      global := None;
    }

    /**
     * ProcessSlice: resets the patch merger, visits the patches from
     * fNPatch-1 down to 0, and stores the patch merger's concatenation as the
     * slice track data.  It returns early when a digit file cannot be opened.
     */
    method ProcessSlice(slice: int, files: set<DigitFile>) returns (calls: seq<Call>)
      requires Valid() && ready
      modifies this`vertex, this`trackData
      ensures var r := SliceRun(config, slice, old(vertex), old(trackData), files);
        && calls == r.calls && vertex == r.vertex && trackData == r.trackData
    {
      calls := [PatchMerger(MergerReset), PatchMerger(MergerSetRows(config.rows))];
      var completed, patchCalls, merged := RunPatches(slice, files);
      calls := calls + patchCalls;
      if !completed {
        return;
      }
      calls := calls + [PatchMerger(MergerAddAllTracks)];
      trackData := PatchMerged(slice, merged);
    }

    /**
     * The patch loop of ProcessSlice; `merged` are the patch merger's inputs.
     * It stops at the first patch whose digit file cannot be opened.
     */
    method RunPatches(slice: int, files: set<DigitFile>) returns (completed: bool, calls: seq<Call>, merged: seq<PatchInput>)
      requires Valid() && ready
      modifies this`vertex
      ensures PatchLoop(config, slice, config.nPatch - 1, old(vertex), files) == LoopOutcome(calls, completed, vertex, merged)
    {
      ghost var s := config;
      ghost var whole := PatchLoop(s, slice, config.nPatch - 1, vertex, files);
      calls := [];
      merged := [];
      var patch := config.nPatch - 1;
      while patch >= 0
        invariant -1 <= patch < config.nPatch && config == s
        invariant whole == After(calls, merged, PatchLoop(s, slice, patch, vertex, files))
        decreases patch + 1
      {
        PatchLoopUnfold(s, slice, patch, vertex, files);
        var patchCompleted, tracks, patchCalls := ProcessPatch(slice, patch, files);
        if !patchCompleted {
          calls := calls + patchCalls;
          assert merged + [] == merged;
          assert whole == LoopOutcome(calls, false, vertex, merged);
              return false, calls, merged;
        }
        ghost var rest := PatchLoop(s, slice, patch - 1, vertex, files);
        AppendAssoc(calls, patchCalls, rest.calls);
        AppendAssoc(merged, [PatchInput(patch, tracks)], rest.fed);
        calls := calls + patchCalls;
        merged := merged + [PatchInput(patch, tracks)];
        patch := patch - 1;
      }
      assert calls + [] == calls && merged + [] == merged;
      completed := true;
    }

    /** One patch of ProcessSlice; `tracks` is what the patch merger receives */
    method ProcessPatch(slice: int, patch: int, files: set<DigitFile>) returns (completed: bool, tracks: TrackArray, calls: seq<Call>)
      requires Valid() && ready && 0 <= patch < config.nPatch
      modifies this`vertex
      ensures PatchStep(config, slice, patch, old(vertex), files) == PatchOutcome(calls, completed, vertex, tracks)
    {
      var points, input, cluster;
      completed, points, input, cluster := ReadPatchInput(slice, patch, files);
      if !completed {
        return completed, NoTracks, input;
      }
      var vertexCalls := [];
      if patch == config.nPatch - 1 {
        vertexCalls := DecideVertex(points);
      }
      var trackerOutput, trackingCalls := TrackPatch(slice, patch, points);
      var mergeCalls;
      tracks, mergeCalls := MergePatch(slice, patch, trackerOutput);
      calls := input + (cluster + vertexCalls + trackingCalls + mergeCalls);
    }

    /** The visit of a patch and, in binary mode, opening its digits and finding its clusters */
    method ReadPatchInput(slice: int, patch: int, files: set<DigitFile>) returns (ok: bool, points: Points, input: seq<Call>, cluster: seq<Call>)
      requires Valid() && ready && 0 <= patch < config.nPatch
      ensures var s := config;
        && ok == InputAvailable(s, slice, patch, files)
        && points == PointsOf(s, slice, patch)
        && input == OpeningCalls(s, slice, patch)
        && (ok ==> cluster == ClusterCalls(s, slice, patch))
    {
      var rowRange := config.rows[patch];
      input := [Input(FileHandlerInit(slice, patch, rowRange))];
      cluster := [];
      points := NoPoints;
      ok := true;
      if config.useBinary {
        var file := if config.doRoi then DigitFile(config.path, slice, patch) else DigitFile(config.path, slice, if config.nPatch == 1 then -1 else patch);
        var roi := if config.doRoi then [Input(SetRoi(config.eta))] else [];
        input := input + ([Input(FileHandlerFree)] + roi + [Input(OpenDigits(file, config.doRoi))]);
        points := Clusters(slice, patch);
        if file !in files {
          ok := false;
        } else {
          cluster := [Input(UnpackDigits(config.doRoi)), Input(FindClusters(slice, patch, rowRange, MaxPoints)), Input(FileHandlerFree)];
        }
      }
    }

    /** The vertex decision on the first visited patch */
    method DecideVertex(points: Points) returns (calls: seq<Call>)
      requires Valid() && ready
      modifies this`vertex
      ensures vertex == DecidedVertex(config, points)
      ensures calls == VertexCalls(config, config.nPatch - 1, points)
    {
      var decision;
      if config.findVertex {
        decision := RunVertexFinder(points);
        vertex := FoundVertex(points);
      } else {
        decision := SetZeroVertex;
        vertex := ZeroVertex;
      }
      calls := [VertexDecision(decision)] + [PatchMerger(MergerSetVertex(vertex))];
    }

    /** The tracker run over a patch; returns the tracker's track array */
    method TrackPatch(slice: int, patch: int, points: Points) returns (trackerOutput: TrackArray, calls: seq<Call>)
      requires Valid() && ready && 0 <= patch < config.nPatch
      ensures var s := config;
        && trackerOutput == TrackerTracks(slice, s.rows[patch], s.eta, vertex, points, s.doNonVertex)
        && calls == TrackingCalls(s, slice, patch, vertex, points, trackerOutput)
    {
      var rowRange := config.rows[patch];
      var nonVertexPass := if config.doNonVertex then [Tracker(NonVertexTracking)] else [];
      calls := [Tracker(InitSector(slice, rowRange, config.eta))] + [Tracker(SetTrackerVertex(vertex))] + [Tracker(ReadHits(points))] +
        ([Tracker(MainVertexTracking)] + nonVertexPass);
      trackerOutput := TrackerTracks(slice, rowRange, config.eta, vertex, points, config.doNonVertex);
      var spacePoints := if config.writeOut then [Output(WriteSpacePoints(slice, patch, points))] else [];
      var trackerTracks := if config.writeOut then [Output(WriteTrackerTracks(slice, patch, trackerOutput))] else [];
      calls := calls + ([Tracker(FillTracks)] + spacePoints + [Input(if config.useBinary then MemoryFree else FileHandlerFree)] + trackerTracks);
    }

    /**
     * The inter merger is reset, initialised and filled with the tracker
     * output; its merge is not run and its input 0 goes to the patch merger.
     */
    method MergePatch(slice: int, patch: int, trackerOutput: TrackArray) returns (tracks: TrackArray, calls: seq<Call>)
      requires Valid() && ready && 0 <= patch < config.nPatch
      ensures tracks == trackerOutput
      ensures calls == MergeCalls(config, slice, patch, trackerOutput)
    {
      var interMergerInputs: seq<TrackArray> := [trackerOutput];
      tracks := interMergerInputs[0];
      calls := [InterMerger(InterReset), InterMerger(InterInit(config.rows[patch], patch)), InterMerger(InterFillTracks(trackerOutput)),
                Input(MemoryFree), PatchMerger(MergerInitSector(slice, patch)), PatchMerger(MergerFillTracks(tracks)), Input(MemoryFree)];
    }

    /**
     * WriteTracks: opt 'a' or 'i' writes the merger's input arrays in order,
     * opt 'o' or 'a' then writes its output array; it always returns 1.
     */
    static method WriteTracks(file: OutputFile, merger: MergerView, opt: char) returns (r: int, calls: seq<Call>)
      ensures r == 1
      ensures calls == TrackFileCalls(file, merger, opt)
    {
      calls := [Output(OpenOutput(file))];
      var written: seq<TrackArray> := [];
      if opt == 'a' || opt == 'i' {
        for i := 0 to |merger.inputs|
          invariant written == merger.inputs[..i]
          invariant calls == [Output(OpenOutput(file))] + WriteCalls(written)
        {
          assert WriteCalls(written + [merger.inputs[i]]) == WriteCalls(written) + [Output(WriteTrackArray(merger.inputs[i]))];
          calls := calls + [Output(WriteTrackArray(merger.inputs[i]))];
          written := written + [merger.inputs[i]];
        }
      }
      if opt == 'o' || opt == 'a' {
        assert WriteCalls(written + [merger.output]) == WriteCalls(written) + [Output(WriteTrackArray(merger.output))];
        calls := calls + [Output(WriteTrackArray(merger.output))];
        written := written + [merger.output];
      }
      assert written == WrittenArrays(merger, opt);
      calls := calls + [Output(CloseOutput)];
      r := 1;
    }

    /** WriteResults: the global merger's inputs and output, then its output alone */
    method WriteResults() returns (calls: seq<Call>)
      requires global.Some?
      ensures calls == ResultCalls(config.writeOutPath, MergerView(global.value.inputs, global.value.output))
    {
      var view := MergerView(global.value.inputs, global.value.output);
      var ok, all := WriteTracks(TracksFile(config.writeOutPath), view, 'a');
      var outputOnly;
      ok, outputOnly := WriteTracks(GlobalTracksFile(config.writeOutPath), view, 'o');
      calls := all + outputOnly;
    }
  }
}
