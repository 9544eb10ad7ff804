/**
 * The module-level state of js/control.js and the handlers that change it: committing a camera
 * address (`setStream`), the feed image's `load` and `error` events (failover along the
 * candidate list), starting and stopping the detection loop, one detection pass split at its
 * `await` (`runDetection`), and the laser latch (`ensureLaserState`).
 *
 * Browser facts the handlers read (whether the image is complete, its size, the container
 * size, the model's answer, the URL parser, `toFixed` label text) are parameters.
 */
module ControlPage {
  import opened Util
  import opened JsText
  import opened StreamAddress
  import opened Detections
  import opened OverlayGeometry

  /** `STORAGE_KEY`: where the committed camera address is persisted. */
  const StorageKey: string := "skyshield_camera_base_url"

  /** `ESP32_STORAGE_KEY`: where the controller address is persisted. */
  const Esp32StorageKey: string := "esp32_ip"

  /** The text of `statusLabel`. */
  datatype StreamStatus = StreamIdle | StreamingFrom(url: string) | RetryingVia(url: string) | StreamError

  /** `lastDroneState`: `null`, `true` or `false`. */
  datatype DroneState = Unknown | Drone | NoDrone

  /** The argument of `setSafetyState`: 'ok', 'warn' or 'danger'. */
  datatype Safety = Safe | Scanning | DroneDetected

  /** A line appended to the console panel by a detection pass or by the model loader. */
  datatype LogLine =
    | DroneLine(text: string) | NoDroneLine | DetectionErrorLine
    | ModelMissingLine | ModelLoadedLine | ModelLoadFailedLine

  /** Why `stopDetectionLoop` is called; `Other` stands for any reason string besides 'idle' and 'error'. */
  datatype StopReason = Idle | Error | Other

  /** What the page's COCO-SSD library does when `ensureDetectModel` has to load the model. */
  datatype ModelSource =
    | CocoMissing   // `window.cocoSsd` is absent
    | LoadThrows    // `cocoSsd.load()` rejects
    | LoadResolves  // `cocoSsd.load()` resolves to a model

  /** How `await model.detect(feedImg)` settled, once a model is available. */
  datatype DetectOutcome =
    | Detected(predictions: seq<Prediction>) // `model.detect` resolved
    | DetectFailed                          // `model.detect` threw

  /** What one successful or failed pass concluded, before de-duplication. */
  datatype Verdict = DroneSeen(text: string) | NothingSeen | DetectError

  /** The pair `(lastDroneState, lastDroneLabel)` kept between passes. */
  datatype LogMemory = LogMemory(state: DroneState, text: string)

  /** Only a drone verdict remembers a label; the others reset it to ''. */
  predicate WellFormed(mem: LogMemory) {
    mem.state != Drone ==> mem.text == ""
  }

  /** The verdict of a resolved `model.detect`; `fmt` is the `toFixed` label text of a class and score. */
  function VerdictOf(preds: seq<Prediction>, fmt: (string, real) -> string): (v: Verdict)
    ensures v.NothingSeen? <==> DroneDetections(preds) == []
    ensures v.DetectError? == false
  {
    var kept := DroneDetections(preds);
    if kept == [] then NothingSeen
    else
      var best := Best(kept);
      DroneSeen(fmt(best.cls, Score(best)))
  }

  /** The memory a verdict leaves behind. */
  function Remember(v: Verdict): (mem: LogMemory)
    ensures WellFormed(mem)
  {
    match v
    case DroneSeen(text) => LogMemory(Drone, text)
    case NothingSeen => LogMemory(NoDrone, "")
    case DetectError => LogMemory(Unknown, "")
  }

  /** The console line a verdict produces given the memory of the previous pass, if any. */
  function LogFor(mem: LogMemory, v: Verdict): Option<LogLine> {
    match v
    case DroneSeen(text) =>
      if mem.state != Drone || mem.text != text then Some(DroneLine(text)) else None
    case NothingSeen =>
      if mem.state != NoDrone then Some(NoDroneLine) else None
    case DetectError =>
      if mem.state != Unknown then Some(DetectionErrorLine) else None
  }

  /** The safety indicator each verdict sets. */
  function SafetyFor(v: Verdict): Safety {
    match v
    case DroneSeen(_) => DroneDetected
    case NothingSeen => Safe
    case DetectError => Scanning
  }

  /** Whether `ensureDetectModel` hands back a model: a cached one, or one that loads now. */
  predicate ModelAvailable(ready: bool, src: ModelSource) {
    ready || src == LoadResolves
  }

  /** The console line `ensureDetectModel` writes: none with a cached model, otherwise one per attempt. */
  function ModelLine(ready: bool, src: ModelSource): (line: Option<LogLine>)
    ensures line.None? <==> ready
    ensures line == Some(ModelLoadedLine) <==> !ready && src == LoadResolves
  {
    if ready then None
    else match src
      case CocoMissing => Some(ModelMissingLine)
      case LoadThrows => Some(ModelLoadFailedLine)
      case LoadResolves => Some(ModelLoadedLine)
  }

  /** The lines of an optional line. */
  function Lines(line: Option<LogLine>): seq<LogLine> {
    if line.Some? then [line.value] else []
  }

  /** The loader over successive passes: whether a model is cached at the end, and the lines it wrote. */
  function ModelRun(ready: bool, srcs: seq<ModelSource>): (bool, seq<LogLine>)
    decreases |srcs|
  {
    if srcs == [] then (ready, [])
    else
      var (final, lines) := ModelRun(ModelAvailable(ready, srcs[0]), srcs[1..]);
      (final, Lines(ModelLine(ready, srcs[0])) + lines)
  }

  /**
   * The model is loaded at most once: a model ends up cached iff one was cached or some
   * attempt resolved, "Detection model loaded." is written exactly once in that case, and
   * until then every pass writes one line.
   */
  lemma {:induction false} ModelLoadedOnce(ready: bool, srcs: seq<ModelSource>)
    ensures ModelRun(ready, srcs).0 <==> ready || LoadResolves in srcs
    ensures multiset(ModelRun(ready, srcs).1)[ModelLoadedLine] == if !ready && LoadResolves in srcs then 1 else 0
    ensures !ready && LoadResolves !in srcs ==> |ModelRun(ready, srcs).1| == |srcs|
    decreases |srcs|
  {
    if srcs != [] {
      ModelLoadedOnce(ModelAvailable(ready, srcs[0]), srcs[1..]);
      assert srcs == [srcs[0]] + srcs[1..];
      assert LoadResolves in srcs <==> srcs[0] == LoadResolves || LoadResolves in srcs[1..];
      if ModelAvailable(ready, srcs[0]) {
        assert ModelRun(true, srcs[1..]).1 == [] by { CachedModelIsSilent(srcs[1..]); }
      }
    }
  }

  /** With a model cached, the loader writes nothing on any later pass. */
  lemma {:induction false} CachedModelIsSilent(srcs: seq<ModelSource>)
    ensures ModelRun(true, srcs) == (true, [])
    decreases |srcs|
  {
    if srcs != [] {
      CachedModelIsSilent(srcs[1..]);
      assert ModelAvailable(true, srcs[0]) && ModelLine(true, srcs[0]) == None;
      assert Lines(ModelLine(true, srcs[0])) + ModelRun(true, srcs[1..]).1 == [];
    }
  }

  /** A line is logged exactly when the remembered state or label changes. */
  lemma LogIffMemoryChanges(mem: LogMemory, v: Verdict)
    requires WellFormed(mem)
    ensures LogFor(mem, v).Some? <==> Remember(v) != mem
  {
  }

  /** Repeating a verdict logs nothing the second time. */
  lemma RepeatIsSilent(mem: LogMemory, v: Verdict)
    ensures LogFor(Remember(v), v) == None
  {
  }

  /** The logged line, if any, is the one that describes the verdict. */
  lemma LogDescribesVerdict(mem: LogMemory, v: Verdict)
    requires LogFor(mem, v).Some?
    ensures v.DroneSeen? ==> LogFor(mem, v).value == DroneLine(v.text)
    ensures v.NothingSeen? ==> LogFor(mem, v).value == NoDroneLine
    ensures v.DetectError? ==> LogFor(mem, v).value == DetectionErrorLine
  {
  }

  /** A memory after a detection pass and then a stopped loop logs anew whatever comes next, except an error. */
  lemma StopForgets(v: Verdict)
    ensures LogFor(LogMemory(Unknown, ""), v).Some? <==> !v.DetectError?
  {
  }

  /** The index after one `error` event on a list of `count` candidates. */
  function FailoverIndex(count: nat, index: nat): (next: nat)
    ensures next >= index
  {
    if count > 0 && index < count - 1 then index + 1 else index
  }

  /** The index after `k` consecutive `error` events. */
  function IndexAfterErrors(count: nat, index: nat, k: nat): nat
    decreases k
  {
    if k == 0 then index else IndexAfterErrors(count, FailoverIndex(count, index), k - 1)
  }

  /** Consecutive errors walk the list one step each and stop at the last candidate. */
  lemma {:induction false} ErrorsWalkTheList(count: nat, index: nat, k: nat)
    requires index < count
    ensures IndexAfterErrors(count, index, k) == if index + k < count then index + k else count - 1
    decreases k
  {
    if k > 0 {
      ErrorsWalkTheList(count, FailoverIndex(count, index), k - 1);
    }
  }

  /** Once at the last candidate, further errors change nothing: the session is exhausted. */
  lemma ExhaustedIsTerminal(count: nat, k: nat)
    requires count > 0
    ensures IndexAfterErrors(count, count - 1, k) == count - 1
  {
    ErrorsWalkTheList(count, count - 1, k);
  }

  /** `${ip}/${cmd}` when the controller address is stored and non-empty; otherwise the command is not sent. */
  function CommandTarget(storage: map<string, string>, cmd: string): (r: Option<string>)
    ensures r.Some? <==> Esp32StorageKey in storage && storage[Esp32StorageKey] != ""
    ensures r.Some? ==> r.value == storage[Esp32StorageKey] + "/" + cmd
  {
    if Esp32StorageKey in storage && storage[Esp32StorageKey] != "" then
      Some(storage[Esp32StorageKey] + "/" + cmd)
    else None
  }

  /** The controller can read the command back: the URL is the stored address, one '/', then the command. */
  lemma CommandTargetDecodes(storage: map<string, string>, cmd: string)
    requires CommandTarget(storage, cmd).Some?
    ensures var ip, t := storage[Esp32StorageKey], CommandTarget(storage, cmd).value;
      |t| == |ip| + 1 + |cmd| && t[..|ip|] == ip && t[|ip|] == '/' && t[|ip| + 1..] == cmd
  {
    var ip, t := storage[Esp32StorageKey], CommandTarget(storage, cmd).value;
    assert t == ip + ("/" + cmd);
  }

  /** Distinct commands go to distinct URLs. */
  lemma CommandTargetInjective(storage: map<string, string>, c1: string, c2: string)
    requires CommandTarget(storage, c1).Some? && CommandTarget(storage, c1) == CommandTarget(storage, c2)
    ensures c1 == c2
  {
    CommandTargetDecodes(storage, c1);
    CommandTargetDecodes(storage, c2);
  }

  /** The laser latch run over a sequence of button presses: the final flag and the number of toggles issued. */
  function LatchRun(on: bool, targets: seq<bool>): (bool, nat)
    decreases |targets|
  {
    if targets == [] then (on, 0)
    else
      var (final, sent) := LatchRun(targets[0], targets[1..]);
      (final, if targets[0] == on then sent else sent + 1)
  }

  /** A toggle is sent only on a change, so the toggles issued flip the laser exactly into the final requested state. */
  lemma {:induction false} LatchTracksLaser(on: bool, targets: seq<bool>)
    ensures LatchRun(on, targets).0 == if targets == [] then on else targets[|targets| - 1]
    ensures (LatchRun(on, targets).1 % 2 == 1) <==> LatchRun(on, targets).0 != on
    ensures LatchRun(on, targets).1 <= |targets|
    decreases |targets|
  {
    if targets != [] {
      LatchTracksLaser(targets[0], targets[1..]);
    }
  }

  /** The runtime state of js/control.js and the DOM state its handlers write. */
  class ControlPanel {
    var storage: map<string, string>          // localStorage
    var streamCandidates: seq<string>
    var streamCandidateIndex: nat
    var feedSrc: string                       // feedImg.src as last assigned
    var feedHidden: bool                      // feedImg has 'd-none' (the placeholder shows)
    var streamStatus: StreamStatus
    var detectTimer: bool                     // a setInterval handle is held
    var overlayHidden: bool                   // overlayCanvas has 'd-none'
    var overlay: seq<Box>                     // rectangles currently stroked on the overlay
    var isDetecting: bool
    var detectModelReady: bool                // a loaded model is cached
    var lastDroneState: DroneState
    var lastDroneLabel: string
    var consoleLog: seq<LogLine>
    var safety: Safety
    var isLaserOn: bool
    var commands: seq<string>                 // targets fetched by sendCmd, oldest first

    /** The candidate cursor stays on the list, the list is duplicate-free, the log memory is well formed. */
    ghost predicate Valid()
      reads this
    {
      (streamCandidateIndex < |streamCandidates| || (streamCandidates == [] && streamCandidateIndex == 0))
      && NoDuplicates(streamCandidates) && |streamCandidates| <= 3
      && WellFormed(LogMemory(lastDroneState, lastDroneLabel))
    }

    /** The `let` declarations at the top of the script; `saved` is what localStorage holds at page load. */
    constructor (saved: map<string, string>)
      ensures Valid()
      ensures storage == saved && streamCandidates == [] && streamCandidateIndex == 0
      ensures feedSrc == "" && feedHidden && streamStatus == StreamIdle
      ensures !detectTimer && overlayHidden && overlay == [] && !isDetecting && !detectModelReady
      ensures lastDroneState == Unknown && lastDroneLabel == "" && consoleLog == []
      ensures safety == Safe && !isLaserOn && commands == []
    {
      storage := saved;
      streamCandidates, streamCandidateIndex := [], 0;
      feedSrc, feedHidden, streamStatus := "", true, StreamIdle;
      detectTimer, overlayHidden, overlay, isDetecting := false, true, [], false;
      detectModelReady := false;
      lastDroneState, lastDroneLabel, consoleLog := Unknown, "", [];
      safety, isLaserOn, commands := Safe, false, [];
    }

    /** `stopDetectionLoop(reason)`: cancel the timer, clear the latch, the overlay and the log memory. */
    method StopDetectionLoop(reason: StopReason)
      requires Valid()
      modifies this`detectTimer, this`isDetecting, this`overlay, this`overlayHidden
      modifies this`lastDroneState, this`lastDroneLabel, this`safety
      ensures Valid()
      ensures !detectTimer && !isDetecting && overlay == [] && overlayHidden
      ensures lastDroneState == Unknown && lastDroneLabel == ""
      ensures safety == if reason == Idle then Safe else old(safety)
    {
      detectTimer := false;
      isDetecting := false;
      overlay := [];
      overlayHidden := true;
      lastDroneState, lastDroneLabel := Unknown, "";
      if reason == Idle {
        safety := Safe;
      }
    }

    /** `startDetectionLoop`: does nothing while a timer exists; otherwise arms one and shows the overlay. */
    method StartDetectionLoop()
      modifies this`detectTimer, this`safety, this`overlayHidden
      ensures detectTimer
      ensures old(detectTimer) ==> safety == old(safety) && overlayHidden == old(overlayHidden)
      ensures !old(detectTimer) ==> safety == Scanning && !overlayHidden
    {
      if detectTimer {
        return;
      }
      safety := Scanning;
      overlayHidden := false;
      detectTimer := true;
    }

    /**
     * `setStream(baseUrl)`; `parse` stands for `new URL(...)`. An address that normalises to ''
     * clears the feed, forgets the persisted address and stops detection, leaving the candidate
     * list as it was; any other address rebuilds the list, points the feed at its first entry
     * and is persisted at once, before any candidate has loaded.
     */
    method SetStream(baseUrl: string, parse: string -> Option<UrlParts>) returns (normalized: string)
      requires Valid()
      modifies this`feedSrc, this`feedHidden, this`streamStatus, this`storage
      modifies this`streamCandidates, this`streamCandidateIndex
      modifies this`detectTimer, this`isDetecting, this`overlay, this`overlayHidden
      modifies this`lastDroneState, this`lastDroneLabel, this`safety
      ensures Valid()
      ensures normalized == NormalizeBaseUrl(baseUrl)
      ensures normalized == "" ==>
        feedSrc == "" && feedHidden && streamStatus == StreamIdle
        && storage == old(storage) - {StorageKey}
        && streamCandidates == old(streamCandidates) && streamCandidateIndex == old(streamCandidateIndex)
        && !detectTimer && !isDetecting && overlay == [] && overlayHidden
        && lastDroneState == Unknown && lastDroneLabel == "" && safety == Safe
      ensures normalized != "" ==>
        streamCandidates == BuildStreamCandidates(normalized, parse) && streamCandidateIndex == 0
        && feedSrc == (if streamCandidates == [] then "" else streamCandidates[0])
        && !feedHidden && streamStatus == StreamingFrom(feedSrc) && safety == Scanning
        && storage == old(storage)[StorageKey := normalized]
        && detectTimer == old(detectTimer) && isDetecting == old(isDetecting)
        && overlay == old(overlay) && overlayHidden == old(overlayHidden)
        && lastDroneState == old(lastDroneState) && lastDroneLabel == old(lastDroneLabel)
    {
      normalized := NormalizeBaseUrl(baseUrl);
      if normalized == "" {
        ClearStream();
      } else {
        CommitStream(normalized, parse);
      }
    }

    /** The branch of `setStream` for an empty address. */
    method ClearStream()
      requires Valid()
      modifies this`feedSrc, this`feedHidden, this`streamStatus, this`storage
      modifies this`detectTimer, this`isDetecting, this`overlay, this`overlayHidden
      modifies this`lastDroneState, this`lastDroneLabel, this`safety
      ensures Valid()
      ensures feedSrc == "" && feedHidden && streamStatus == StreamIdle
      ensures storage == old(storage) - {StorageKey}
      ensures !detectTimer && !isDetecting && overlay == [] && overlayHidden
      ensures lastDroneState == Unknown && lastDroneLabel == "" && safety == Safe
    {
      feedSrc := "";
      feedHidden := true;
      streamStatus := StreamIdle;
      storage := storage - {StorageKey};
      StopDetectionLoop(Idle);
    }

    /** The branch of `setStream` for a non-empty normalised address. */
    method CommitStream(normalized: string, parse: string -> Option<UrlParts>)
      requires Valid()
      modifies this`feedSrc, this`feedHidden, this`streamStatus, this`storage
      modifies this`streamCandidates, this`streamCandidateIndex, this`safety
      ensures Valid()
      ensures streamCandidates == BuildStreamCandidates(normalized, parse) && streamCandidateIndex == 0
      ensures feedSrc == (if streamCandidates == [] then "" else streamCandidates[0])
      ensures !feedHidden && streamStatus == StreamingFrom(feedSrc) && safety == Scanning
      ensures storage == old(storage)[StorageKey := normalized]
    {
      streamCandidates := BuildStreamCandidates(normalized, parse);
      streamCandidateIndex := 0;
      var streamUrl := if streamCandidates == [] then "" else streamCandidates[0];
      feedSrc := streamUrl;
      feedHidden := false;
      streamStatus := StreamingFrom(streamUrl);
      safety := Scanning;
      storage := storage[StorageKey := normalized];
    }

    /**
     * `initCameraBase`: a persisted address is re-committed through `setStream` (by way of
     * `updateBaseFromInput`); without one the stream is shown idle and nothing else changes.
     */
    method InitCameraBase(parse: string -> Option<UrlParts>)
      requires Valid()
      modifies this`feedSrc, this`feedHidden, this`streamStatus, this`storage
      modifies this`streamCandidates, this`streamCandidateIndex
      modifies this`detectTimer, this`isDetecting, this`overlay, this`overlayHidden
      modifies this`lastDroneState, this`lastDroneLabel, this`safety
      ensures Valid()
      ensures var saved := if StorageKey in old(storage) then old(storage)[StorageKey] else "";
        saved == "" ==>
          feedHidden && streamStatus == StreamIdle && storage == old(storage) && feedSrc == old(feedSrc)
          && streamCandidates == old(streamCandidates) && streamCandidateIndex == old(streamCandidateIndex)
          && detectTimer == old(detectTimer) && isDetecting == old(isDetecting)
          && overlay == old(overlay) && overlayHidden == old(overlayHidden)
          && lastDroneState == old(lastDroneState) && lastDroneLabel == old(lastDroneLabel)
          && safety == old(safety)
      ensures var saved := if StorageKey in old(storage) then old(storage)[StorageKey] else "";
        saved != "" && NormalizeBaseUrl(saved) == "" ==>
          feedSrc == "" && feedHidden && streamStatus == StreamIdle
          && storage == old(storage) - {StorageKey}
          && streamCandidates == old(streamCandidates) && streamCandidateIndex == old(streamCandidateIndex)
          && !detectTimer && !isDetecting && overlay == [] && overlayHidden
          && lastDroneState == Unknown && lastDroneLabel == "" && safety == Safe
      ensures var saved := if StorageKey in old(storage) then old(storage)[StorageKey] else "";
        saved != "" && NormalizeBaseUrl(saved) != "" ==>
          streamCandidates == BuildStreamCandidates(NormalizeBaseUrl(saved), parse) && streamCandidateIndex == 0
          && feedSrc == (if streamCandidates == [] then "" else streamCandidates[0])
          && !feedHidden && streamStatus == StreamingFrom(feedSrc) && safety == Scanning
          && storage == old(storage)[StorageKey := NormalizeBaseUrl(saved)]
          && detectTimer == old(detectTimer) && isDetecting == old(isDetecting)
          && overlay == old(overlay) && overlayHidden == old(overlayHidden)
          && lastDroneState == old(lastDroneState) && lastDroneLabel == old(lastDroneLabel)
    {
      var saved := if StorageKey in storage then storage[StorageKey] else "";
      if saved != "" {
        var _ := SetStream(saved, parse);
      } else {
        streamStatus := StreamIdle;
        feedHidden := true;
      }
    }

    /** The feed image's `load` listener: show the overlay and start detection; the cursor is left where it is. */
    method OnFeedLoad()
      modifies this`overlayHidden, this`detectTimer, this`safety
      ensures detectTimer && !overlayHidden
      ensures safety == if old(detectTimer) then old(safety) else Scanning
    {
      overlayHidden := false;
      StartDetectionLoop();
    }

    /**
     * The feed image's `error` listener: stop detection, then move to the next candidate if
     * there is one, or else show the terminal stream error and hide the feed.
     */
    method OnFeedError()
      requires Valid()
      modifies this`streamCandidateIndex, this`streamStatus, this`feedSrc, this`feedHidden
      modifies this`detectTimer, this`isDetecting, this`overlay, this`overlayHidden
      modifies this`lastDroneState, this`lastDroneLabel, this`safety
      ensures Valid()
      ensures streamCandidateIndex == FailoverIndex(|streamCandidates|, old(streamCandidateIndex))
      ensures streamCandidateIndex > old(streamCandidateIndex) ==>
        feedSrc == streamCandidates[streamCandidateIndex]
        && streamStatus == RetryingVia(feedSrc) && feedHidden == old(feedHidden)
      ensures streamCandidateIndex == old(streamCandidateIndex) ==>
        feedSrc == old(feedSrc) && streamStatus == StreamError && feedHidden
      ensures !detectTimer && !isDetecting && overlay == [] && overlayHidden
      ensures lastDroneState == Unknown && lastDroneLabel == "" && safety == old(safety)
    {
      StopDetectionLoop(Error);
      if |streamCandidates| > 0 && streamCandidateIndex < |streamCandidates| - 1 {
        streamCandidateIndex := streamCandidateIndex + 1;
        var nextUrl := streamCandidates[streamCandidateIndex];
        streamStatus := RetryingVia(nextUrl);
        feedSrc := nextUrl;
        return;
      }
      streamStatus := StreamError;
      feedHidden := true;
    }

    /**
     * The synchronous head of `runDetection`, up to its first `await`: a pass starts only when
     * none is in flight and a visible, fully loaded, non-empty feed image is set.
     */
    method BeginDetection(imageComplete: bool, naturalWidth: nat) returns (started: bool)
      modifies this`isDetecting
      ensures started <==> !old(isDetecting) && feedSrc != "" && !feedHidden && imageComplete && naturalWidth != 0
      ensures isDetecting == (old(isDetecting) || started)
    {
      started := false;
      if isDetecting {
        return;
      }
      if feedSrc == "" || feedHidden {
        return;
      }
      if !imageComplete || naturalWidth == 0 {
        return;
      }
      isDetecting := true;
      started := true;
    }

    /**
     * `ensureDetectModel()`: reuse a cached model, or try to load one from `src`, writing the
     * loader's console line; a model that loads is cached, a failed attempt is retried next pass.
     */
    method EnsureDetectModel(src: ModelSource) returns (available: bool)
      modifies this`detectModelReady, this`consoleLog
      ensures available == ModelAvailable(old(detectModelReady), src)
      ensures detectModelReady == available
      ensures consoleLog == old(consoleLog) + Lines(ModelLine(old(detectModelReady), src))
    {
      if detectModelReady {
        return true;
      }
      match src {
        case CocoMissing =>
          consoleLog := consoleLog + [ModelMissingLine];
          return false;
        case LoadThrows =>
          consoleLog := consoleLog + [ModelLoadFailedLine];
          return false;
        case LoadResolves =>
          detectModelReady := true;
          consoleLog := consoleLog + [ModelLoadedLine];
          return true;
      }
    }

    /**
     * The rest of `runDetection` after its guards: obtain the model from `src`, then, when one
     * is available, settle `model.detect` as `outcome`: filter and draw, classify, log only on
     * a change of the remembered state; the latch is cleared in `finally`.
     */
    method CompleteDetection(src: ModelSource, outcome: DetectOutcome, media: Media, fmt: (string, real) -> string)
      requires Valid()
      modifies this`isDetecting, this`overlay, this`safety, this`consoleLog, this`detectModelReady
      modifies this`lastDroneState, this`lastDroneLabel
      ensures Valid()
      ensures !isDetecting
      ensures detectModelReady == ModelAvailable(old(detectModelReady), src)
      ensures var modelLines := Lines(ModelLine(old(detectModelReady), src));
        if !ModelAvailable(old(detectModelReady), src) then
          overlay == old(overlay) && safety == old(safety) && consoleLog == old(consoleLog) + modelLines
          && lastDroneState == old(lastDroneState) && lastDroneLabel == old(lastDroneLabel)
        else
          var v := if outcome.Detected? then VerdictOf(outcome.predictions, fmt) else DetectError;
          LogMemory(lastDroneState, lastDroneLabel) == Remember(v)
          && safety == SafetyFor(v)
          && consoleLog == old(consoleLog) + modelLines + Lines(LogFor(old(LogMemory(lastDroneState, lastDroneLabel)), v))
      ensures ModelAvailable(old(detectModelReady), src) && outcome.Detected? ==>
        var kept := DroneDetections(outcome.predictions);
        overlay == (if kept == [] || ImageFit(media).None? then [] else DrawnBoxes(kept, ImageFit(media).value))
      ensures outcome.DetectFailed? ==> overlay == old(overlay)
    {
      var available := EnsureDetectModel(src);
      if available {
        match outcome {
          case DetectFailed =>
            RecordFailure();
          case Detected(predictions) =>
            RecordPredictions(predictions, media, fmt);
        }
      }
      isDetecting := false;
    }

    /** The `catch` branch of `runDetection`: a failed `model.detect`. */
    method RecordFailure()
      requires Valid()
      modifies this`safety, this`consoleLog, this`lastDroneState, this`lastDroneLabel
      ensures Valid()
      ensures safety == SafetyFor(DetectError)
      ensures LogMemory(lastDroneState, lastDroneLabel) == Remember(DetectError)
      ensures var line := LogFor(old(LogMemory(lastDroneState, lastDroneLabel)), DetectError);
        consoleLog == old(consoleLog) + Lines(line)
    {
      safety := Scanning;
      if lastDroneState != Unknown {
        consoleLog := consoleLog + [DetectionErrorLine];
      }
      lastDroneState, lastDroneLabel := Unknown, "";
    }

    /** The `try` branch of `runDetection` once `model.detect` has resolved to `predictions`. */
    method RecordPredictions(predictions: seq<Prediction>, media: Media, fmt: (string, real) -> string)
      requires Valid()
      modifies this`overlay, this`safety, this`consoleLog, this`lastDroneState, this`lastDroneLabel
      ensures Valid()
      ensures var kept := DroneDetections(predictions);
        overlay == (if kept == [] || ImageFit(media).None? then [] else DrawnBoxes(kept, ImageFit(media).value))
      ensures var v := VerdictOf(predictions, fmt);
        var line := LogFor(old(LogMemory(lastDroneState, lastDroneLabel)), v);
        LogMemory(lastDroneState, lastDroneLabel) == Remember(v)
        && safety == SafetyFor(v)
        && consoleLog == old(consoleLog) + Lines(line)
    {
      var droneDetections := DroneDetections(predictions);
      overlay := DrawDetections(droneDetections, media);
      if droneDetections != [] {
        var best := Best(droneDetections);
        var labelText := fmt(best.cls, Score(best));
        safety := DroneDetected;
        if lastDroneState != Drone || lastDroneLabel != labelText {
          consoleLog := consoleLog + [DroneLine(labelText)];
        }
        lastDroneState, lastDroneLabel := Drone, labelText;
      } else {
        safety := Safe;
        if lastDroneState != NoDrone {
          consoleLog := consoleLog + [NoDroneLine];
        }
        lastDroneState, lastDroneLabel := NoDrone, "";
      }
    }

    /** `sendCmd(cmd)`: fetch `${ip}/${cmd}` when a controller address is stored; otherwise only an alert. */
    method SendCmd(cmd: string)
      modifies this`commands
      ensures commands == old(commands) + (match CommandTarget(storage, cmd)
                                            case Some(t) => [t]
                                            case None => [])
    {
      var target := CommandTarget(storage, cmd);
      if target.Some? {
        commands := commands + [target.value];
      }
    }

    /** `ensureLaserState(targetOn)`: toggle only on a change; the flag follows the request even when no address is stored. */
    method EnsureLaserState(targetOn: bool)
      modifies this`commands, this`isLaserOn
      ensures isLaserOn == targetOn
      ensures old(isLaserOn) == targetOn ==> commands == old(commands)
      ensures old(isLaserOn) != targetOn ==>
        commands == old(commands) + (match CommandTarget(storage, "laser_toggle")
                                      case Some(t) => [t]
                                      case None => [])
    {
      if isLaserOn == targetOn {
        return;
      }
      SendCmd("laser_toggle");
      isLaserOn := targetOn;
    }

    /** `applyEsp32Ip(rawValue)`: persist the normalised controller address, or do nothing for an empty one. */
    method ApplyEsp32Ip(rawValue: string) returns (normalized: string)
      modifies this`storage
      ensures normalized == NormalizeBaseUrl(rawValue)
      ensures storage == if normalized == "" then old(storage) else old(storage)[Esp32StorageKey := normalized]
    {
      normalized := NormalizeBaseUrl(rawValue);
      if normalized == "" {
        return;
      }
      storage := storage[Esp32StorageKey := normalized];
    }
  }
}
