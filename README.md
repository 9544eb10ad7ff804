# SkyShield control panel — a Dafny model

SkyShield is a browser control panel for a camera-and-laser turret. This project models its
core in Dafny and proves properties of the model:

- **js/control.js**: how an operator's camera address becomes an ordered list of stream URLs.
  This covers `normalizeBaseUrl` and `buildStreamCandidates`. Also how the feed image fails
  over along that list on `error` events, and the detection loop. A pass keeps the
  drone-like predictions (label in {airplane, bird, kite} and score at least 0.45), draws
  their boxes on the overlay through `getImageFit`, and reports the best one. It writes a
  verdict line to the console only when the reported state changes. It also writes a line
  on each attempt to load the COCO-SSD model (`ensureDetectModel`). Also the laser latch
  and `sendCmd`.
- **tools/camera-proxy.mjs**: the HTTP handler that forwards `/proxy?url=...` to a camera
  with permissive CORS headers. It answers preflight, `/health`, wrong paths and bad targets
  itself. A request URL that cannot be parsed leaves the response open. An upstream failure becomes 502, and an upstream response is mirrored and streamed.
- **object-detection/detect.js**: the single-image detector. It outlines every prediction,
  scaled from natural to displayed size. Drones are picked by label only. The best drone's
  centre is read out relative to the canvas middle, y-axis up, divided by a pixels-per-unit
  value that is always positive.
- **js/auth.js**: local sign-in over session storage. It covers username normalisation,
  first-match user lookup, `login`/`logout`/`isAuthenticated`/`currentUser`, and the
  `requireAuth` redirect.
- **js/login.js**: `sanitizeRedirect`, the guard on the login page's `redirect` parameter.
- **js/logs.js**: the case-insensitive search box that shows or hides log rows in place.

Modules, one file each:

- `JsText`: `trim`, ASCII `toLowerCase`, `includes`, and the `/^https?:\/\//i` test.
- `StreamAddress`, `Detections`, `OverlayGeometry` and `ControlPage`: js/control.js.
- `CameraProxy`, `ImageDetector`, `Auth`, `LoginRedirect` and `LogFilter`: one per
  remaining source file.
- `Util`: `Option`.

Modelling choices:

- Pure code is modelled as functions and lemmas.
- Module-level state that handlers update in place is modelled as classes:
  - `ControlPanel` (control.js)
  - `DetectorPage` (detect.js)
  - `AuthSession` (auth.js)
  - `ServerResponse` (Node's response object)
  - `LogTable` (logs.js), whose rows' visibility is an array written in a loop.
- `runDetection` suspends at `await`. It is split at those points: `BeginDetection` and
  `CompleteDetection` in control.js, `BeginPass` and `FinishPass` in detect.js. What the
  awaited calls produce is a parameter.
- Browser services the code calls are parameters:
  - `parse` for `new URL`
  - `fmt` for the `toFixed` label text
  - `encode` for `encodeURIComponent`

Behaviour of the code worth knowing:

- A base address normalises to something without a scheme in some cases: `"/"` becomes
  `"http:"` (`StreamAddress.NormalizeLosesScheme`).
- `setStream` persists the address as soon as it is committed, before any candidate has
  loaded.
- The detection loop runs at a fixed 700 ms interval.
- There is a single score threshold, 0.45.
- The detector page (detect.js) applies no threshold at all (`ImageDetector.NoThresholdHere`).
- `DEFAULT_BASE_URL` is the empty string, so `initCameraBase` without a stored address
  leaves the stream idle.

## Model

| member | source | states |
|---|---|---|
| JsText.TrimSpec | js/control.js:295 | `trim` returns a contiguous slice of its input with no whitespace or line terminator at either end |
| JsText.LowerAt | js/logs.js:17 | lower-casing maps each character on its own, keeping the length |
| JsText.TrimIdempotent | js/auth.js:26-33 | trimming twice is trimming once, so `findUser` re-normalising the trimmed name changes nothing |
| JsText.LowerIdempotent | js/logs.js:15-17 | lower-casing twice is lower-casing once |
| JsText.TrimLowerCommute | js/logs.js:15 | `trim` then `toLowerCase` equals `toLowerCase` then `trim` |
| JsText.TrimLowerIdempotent | js/auth.js:16-18 | trim-then-lower-case is idempotent |
| JsText.HttpSchemeExtends | js/control.js:297 | the anchored scheme test depends only on the start of the string |
| JsText.UpperSchemePasses | js/control.js:297 | the scheme test is case-insensitive: `HTTPS://...` passes |
| JsText.SchemeStartsWithH | js/control.js:297 | a string passing the scheme test starts with `h` or `H` |
| JsText.IncludesIffOccurs | js/logs.js:18 | `includes` holds exactly when the query occurs at some position |
| StreamAddress.StripSpec | js/control.js:300 | `replace(/\/+$/, '')` removes exactly the maximal run of trailing slashes |
| StreamAddress.NormalizeEmptyIff | js/control.js:293-301 | the normalised address is '' exactly when the trimmed input is empty, and never ends in '/' |
| StreamAddress.NormalizeAddsScheme | js/control.js:297-300 | without an http(s) scheme the result is `http://` + trimmed input, minus trailing slashes |
| StreamAddress.NormalizeKeepsScheme | js/control.js:297-300 | with an http(s) scheme, in any case, the result is the trimmed input minus trailing slashes |
| StreamAddress.NormalizeIsSchemed | js/control.js:293-301 | an unschemed input with any non-'/' character normalises to an http address |
| StreamAddress.NormalizeKeepsSchemedAddress | js/control.js:293-301 | a schemed address without a trailing slash comes back exactly as trimmed |
| StreamAddress.NormalizeLosesScheme | js/control.js:297-300 | the input "/" normalises to "http:", which fails the scheme test |
| StreamAddress.Dedup | js/control.js:320 | `[...new Set(xs)]` is duplicate-free, no longer than `xs`, and keeps only elements of `xs` |
| StreamAddress.DedupSpec | js/control.js:320 | no element is lost, and a duplicate-free list is returned unchanged |
| StreamAddress.BuildStreamCandidates | js/control.js:304-325 | the candidate list has no duplicates and at most three entries |
| StreamAddress.RootCandidatesDistinct | js/control.js:313-318 | the `/stream`, `:81/stream` and bare-base candidates never coincide |
| StreamAddress.CandidatesOnParseFailure | js/control.js:321-324 | a URL parse failure yields no candidates |
| StreamAddress.CandidatesForCustomPath | js/control.js:308-311 | a path other than '/' yields exactly the normalised address |
| StreamAddress.CandidatesForRoot | js/control.js:312-320 | a root address yields `/stream`, `:81/stream` only when no port is given, then the base, in that order |
| StreamAddress.CandidatesEndWithBase | js/control.js:304-325 | after a successful parse the list is non-empty and ends with the normalised address |
| Detections.DroneDetections | js/control.js:250-254 | the kept predictions are a sub-list in which every element passes the drone filter |
| Detections.DroneDetectionsExactly | js/control.js:250-254 | a prediction is kept iff its class is airplane, bird or kite and its score (missing counts as 0) is at least 0.45 |
| Detections.DroneDetectionsOfAppend | js/control.js:250-254 | filtering preserves order and distributes over concatenation |
| Detections.BestIndex | js/control.js:257-259 | the last position holding the highest score |
| Detections.BestIsAtBestIndex | js/control.js:257-259 | the `reduce` returns the element at that position |
| Detections.BestIsMaximal | js/control.js:257-259 | the best prediction belongs to the list and no element scores higher |
| Detections.BestTieGoesToLater | js/control.js:257-259 | of two equal scores the later element wins |
| OverlayGeometry.ImageFit | js/control.js:128-148 | the fit is null iff a natural or container dimension is 0, and its scale is positive |
| OverlayGeometry.FitCentres | js/control.js:143-147 | `2*offsetX + naturalW*scale = containerW`, and the same vertically |
| OverlayGeometry.ContainFitsInside | js/control.js:138-144 | any object-fit but `cover` scales the image to fit inside the container, touching one side |
| OverlayGeometry.CoverFillsContainer | js/control.js:138-144 | `cover` scales the image to cover the container, matching one side |
| OverlayGeometry.ContainExample | js/control.js:128-148 | 1600x900 media in an 800x600 container gives scale 0.5 and offsets (0, 75) |
| OverlayGeometry.MapBoxInverts | js/control.js:164-168 | the box mapping `(x*s+ox, y*s+oy, w*s, h*s)` can be undone |
| OverlayGeometry.DrawnBoxes | js/control.js:162-178 | no more boxes are drawn than detections, and each drawn box has positive width and height |
| OverlayGeometry.DrawnBoxesAll | js/control.js:162-171 | when every box has positive size, box i is the mapping of detection i |
| OverlayGeometry.DrawnBoxesSkipsEmpty | js/control.js:169 | boxes whose mapped width or height is not positive are never drawn |
| OverlayGeometry.DrawnBoxesSingle | js/control.js:164-171 | one detection draws its mapped box iff that box has positive width and height, and nothing otherwise |
| OverlayGeometry.DrawnBoxesOfAppend | js/control.js:162-178 | each detection is drawn or skipped on its own: the boxes of a concatenation are the concatenation of the boxes |
| OverlayGeometry.DrawDetections | js/control.js:151-179 | the drawing loop strokes exactly `DrawnBoxes`, or nothing with no detections or no fit |
| ControlPage.VerdictOf | js/control.js:250-261 | a pass reports "no drone" iff no prediction passes the filter, and never an error |
| ControlPage.Remember | js/control.js:264-286 | the state kept between passes carries a label only after a drone |
| ControlPage.LogIffMemoryChanges | js/control.js:264-286 | a console line is written iff the remembered state or label changes |
| ControlPage.RepeatIsSilent | js/control.js:264-286 | repeating a verdict logs nothing |
| ControlPage.LogDescribesVerdict | js/control.js:264-286 | the line written is the drone line with its label, the no-drone line, or the error line, as the verdict says |
| ControlPage.StopForgets | js/control.js:230-231 | after the memory is reset to null/'' the next drone or no-drone verdict is logged, an error is not |
| ControlPage.FailoverIndex | js/control.js:424-425 | the candidate index never decreases on an error |
| ControlPage.ErrorsWalkTheList | js/control.js:422-434 | k errors move the index k steps, stopping at the last candidate |
| ControlPage.ExhaustedIsTerminal | js/control.js:431-433 | at the last candidate further errors leave the index where it is |
| ControlPage.CommandTargetDecodes | js/control.js:61 | the target splits back into the stored address, one `/` and the command |
| ControlPage.CommandTargetInjective | js/control.js:61 | two commands sent to the same address reach the same target only if they are the same command |
| ControlPage.ModelLine | js/control.js:182-204 | a cached model writes no line; otherwise the attempt writes the loaded line iff the load resolves, and the missing or failed line otherwise |
| ControlPage.ModelLoadedOnce | js/control.js:182-204 | over any run of attempts the model ends up cached iff it was or some load resolved, the loaded line is written exactly once if it was not cached and some load resolved and never otherwise, and while no load resolves every attempt writes a line |
| ControlPage.CachedModelIsSilent | js/control.js:183-185 | once the model is cached, later attempts write nothing |
| ControlPage.LatchTracksLaser | js/control.js:533-537 | toggles are sent only on a change, so the laser's final state is the last request and the toggle parity matches |
| ControlPage.ControlPanel.constructor | js/control.js:38-46 | the initial runtime state, with no model loaded |
| ControlPage.ControlPanel.StopDetectionLoop | js/control.js:220-238 | the timer, latch, overlay and log memory are cleared, and safety returns to 'ok' only for 'idle' |
| ControlPage.ControlPanel.StartDetectionLoop | js/control.js:207-217 | nothing happens while a timer exists, otherwise a timer is armed and scanning shown |
| ControlPage.ControlPanel.SetStream | js/control.js:340-365 | an empty address clears the feed, the key and detection but keeps the candidates, and any other address rebuilds them, points the feed at the first and persists the address |
| ControlPage.ControlPanel.ClearStream | js/control.js:343-351 | the empty-address branch of `setStream` |
| ControlPage.ControlPanel.CommitStream | js/control.js:353-364 | the non-empty branch of `setStream` |
| ControlPage.ControlPanel.InitCameraBase | js/control.js:481-496 | with no stored address the feed is hidden, the stream idle and nothing else changes; a stored address leaves the whole state `setStream` gives for it, cleared when it normalises to empty |
| ControlPage.ControlPanel.OnFeedLoad | js/control.js:414-420 | a load shows the overlay and starts detection, leaving the candidate index alone |
| ControlPage.ControlPanel.OnFeedError | js/control.js:422-434 | an error stops detection, then tries the next candidate or shows the terminal error with the feed hidden |
| ControlPage.ControlPanel.BeginDetection | js/control.js:241-245 | a pass starts iff none is running and a visible, complete, non-empty image is set |
| ControlPage.ControlPanel.EnsureDetectModel | js/control.js:182-204 | the model is available iff it was cached or this load resolves, only then is it cached, and the attempt's line is logged |
| ControlPage.ControlPanel.CompleteDetection | js/control.js:182-290 | without a model only the loader's line is logged and nothing else changes; otherwise the outcome sets overlay, safety, log and memory as specified after the loader's line; the latch is always released |
| ControlPage.ControlPanel.RecordFailure | js/control.js:278-286 | a failed `detect` sets 'Scanning', logs the error line once and resets the memory |
| ControlPage.ControlPanel.RecordPredictions | js/control.js:249-277 | resolved predictions are filtered, drawn, classified and logged on change |
| ControlPage.ControlPanel.SendCmd | js/control.js:54-69 | one request to `${ip}/${cmd}` when an address is stored, none otherwise |
| ControlPage.ControlPanel.EnsureLaserState | js/control.js:533-537 | the flag follows the request and a toggle is sent only on a change |
| ControlPage.ControlPanel.ApplyEsp32Ip | js/control.js:328-337 | the normalised controller address is persisted unless it is empty |
| CameraProxy.CorsOnEveryResponse | tools/camera-proxy.mjs:7-20 | every response carries the three CORS headers with their fixed values |
| CameraProxy.PreflightFirst | tools/camera-proxy.mjs:22-26 | OPTIONS gets 204 with no body whatever the path, and nothing is fetched |
| CameraProxy.UnparsableUrlLeavesResponseOpen | tools/camera-proxy.mjs:22-28 | when `new URL` throws after the CORS headers are set, nothing is sent or fetched and the response never ends |
| CameraProxy.HealthAndNotFound | tools/camera-proxy.mjs:30-38 | `/health` gets 200 `ok`, and any path but `/proxy` gets the 404 usage text |
| CameraProxy.BadTargetRejected | tools/camera-proxy.mjs:40-44 | a missing or non-http(s) `url` gets 400 and nothing is fetched |
| CameraProxy.FtpIsNotHttp | tools/camera-proxy.mjs:41 | `ftp://x` fails the target test |
| CameraProxy.FetchOnlyForValidTarget | tools/camera-proxy.mjs:40-48 | the upstream is fetched iff a non-OPTIONS request to `/proxy` has an http(s) `url`, always as GET with redirects followed |
| CameraProxy.MethodIgnored | tools/camera-proxy.mjs:22 | any two methods other than OPTIONS are answered alike |
| CameraProxy.FetchFailureIs502 | tools/camera-proxy.mjs:47-52 | a thrown fetch gives 502 `Upstream fetch failed: <message>` |
| CameraProxy.SuccessMirrorsUpstream | tools/camera-proxy.mjs:54-67 | the upstream status and content type (default `application/octet-stream`) are mirrored with the no-cache headers, and a body is streamed iff present, the response ending at once otherwise |
| CameraProxy.ServerResponse.constructor | tools/camera-proxy.mjs:19 | the response handed to the handler: status 200, no headers, nothing sent |
| CameraProxy.ServerResponse.SetHeader | tools/camera-proxy.mjs:8-10 | one header is set before the head is sent |
| CameraProxy.ServerResponse.WriteHead | tools/camera-proxy.mjs:55-60 | the status is set and the given headers override those set before |
| CameraProxy.ServerResponse.End | tools/camera-proxy.mjs:16 | the response ends, with the final chunk as body unless it had already ended |
| CameraProxy.ServerResponse.Pipe | tools/camera-proxy.mjs:67 | the body becomes the upstream stream |
| CameraProxy.ServerResponse.OnPipelineError | tools/camera-proxy.mjs:67-73 | after a pipeline error the response has ended, whether or not it had before |
| CameraProxy.SetCorsHeaders | tools/camera-proxy.mjs:7-11 | the three CORS headers are added |
| CameraProxy.SendText | tools/camera-proxy.mjs:13-17 | a plain-text response with the given status and message is written and ended |
| CameraProxy.Relay | tools/camera-proxy.mjs:46-74 | the tail of the handler produces the response the route specification gives |
| CameraProxy.HandleRequest | tools/camera-proxy.mjs:19-75 | the handler leaves the response exactly as `Respond` specifies |
| ImageDetector.PixelsPerUnit | object-detection/detect.js:38-44 | the result is positive, and it is either 1 or the user's value |
| ImageDetector.PixelsPerUnitChoice | object-detection/detect.js:42-43 | a positive finite value is used as is, anything else gives 1 |
| ImageDetector.AxisScale | object-detection/detect.js:131-136 | the scale is positive, maps the natural side to the displayed side, and is 1 when the client size is 0 |
| ImageDetector.Center | object-detection/detect.js:184 | the centre is equidistant from the box's two edges on each axis |
| ImageDetector.CenterOfScaledBox | object-detection/detect.js:179-184 | scaling a box scales its centre, and a box contains its centre |
| ImageDetector.MarksOutlinePredictions | object-detection/detect.js:144-158 | mark i outlines prediction i's scaled box, is highlighted iff that prediction is a drone, and puts its caption 18 above the box or at the top edge, whichever is lower |
| ImageDetector.HighlightedAreDrones | object-detection/detect.js:138-166 | the highlighted outlines are exactly the collected drones, in order |
| ImageDetector.LabelledDrones | object-detection/detect.js:129-165 | the drone list is never longer than the prediction list |
| ImageDetector.LabelledDronesExactly | object-detection/detect.js:139-165 | a prediction is a drone iff its label is airplane, bird or kite, whatever its score |
| ImageDetector.NoThresholdHere | object-detection/detect.js:129-165 | every control-page drone is a drone here, and a bird at score 0.1 is a drone here but not there |
| ImageDetector.RelativePosition | object-detection/detect.js:56-59 | the readout can be undone: `cx = relX*ppu + W/2` and `cy = H/2 - relY*ppu` |
| ImageDetector.RelativeAxes | object-detection/detect.js:56-59 | the canvas middle maps to (0, 0), x is positive right of it and y positive above it |
| ImageDetector.UnitLabel | object-detection/detect.js:60 | the unit is "px" iff the value is within 1e-6 of 1, otherwise "units" |
| ImageDetector.DefaultUnitIsPixels | object-detection/detect.js:38-60 | without a usable value the readout is in pixels |
| ImageDetector.ScanPredictions | object-detection/detect.js:138-166 | the loop outlines every prediction and collects exactly the drone-labelled ones |
| ImageDetector.DetectorPage.constructor | object-detection/detect.js:1-4 | the initial detector state |
| ImageDetector.DetectorPage.ResizeCanvasToImage | object-detection/detect.js:70-76 | the canvas takes the displayed size unless the image has no natural size |
| ImageDetector.DetectorPage.UpdateCoordReadout | object-detection/detect.js:51-64 | with a drone centre the readout is its relative position in the current unit, otherwise nothing changes |
| ImageDetector.DetectorPage.BeginPass | object-detection/detect.js:94-123 | a pass starts iff none runs, an image is set and the model is ready; it then clears the page, sets `isDetecting` and sizes the canvas to the displayed image, keeping the old size when the natural size is 0 |
| ImageDetector.DetectorPage.ShowBestDrone | object-detection/detect.js:168-189 | no drone clears the centre, otherwise the best drone's scaled centre is kept and read out |
| ImageDetector.DetectorPage.FinishPass | object-detection/detect.js:125-198 | the outcome is drawn and read out as specified, and `isDetecting` is always cleared |
| ImageDetector.BestDroneIsLabelledAndMaximal | object-detection/detect.js:175-177 | the reported drone is a drone-labelled prediction with the highest score, the one at `BestIndex` |
| Auth.SelectUsers | js/auth.js:6-14 | the configured list when it is non-empty, else the three built-in users |
| Auth.NormalizeUsername | js/auth.js:16-18 | normalising keeps the trimmed length |
| Auth.NormalizeUsernameStable | js/auth.js:16-18 | normalising is idempotent, ignores an earlier trim, and maps null to '' |
| Auth.FindNormalized | js/auth.js:20-23 | a found user is in the list and has the looked-up normalised name |
| Auth.FindNormalizedIsFirst | js/auth.js:20-23 | lookup fails iff no user matches, and otherwise returns the first match |
| Auth.LoginOutcome | js/auth.js:25-40 | a blank name or password gives "Enter both…", otherwise success iff the first matching user has exactly this password, returning that user's non-empty stored name |
| Auth.LoginIgnoresCaseAndSpaces | js/auth.js:25-40 | names that normalise alike log in alike |
| Auth.LastSegment | js/auth.js:55 | `split('/').pop()` is a slash-free suffix of the path |
| Auth.LastSegmentIsWholeTail | js/auth.js:55 | that suffix starts right after the last slash |
| Auth.RedirectTarget | js/auth.js:54-59 | the redirect target is never empty |
| Auth.DirectoryRedirectsToControl | js/auth.js:55 | a path ending in '/' redirects back to `control.html` |
| Auth.LoginUrlParts | js/auth.js:66-68 | the login URL is the login page (default `index.html`) followed by `?redirect=` iff the redirect is not skipped |
| Auth.AuthSession.constructor | js/auth.js:12-14 | the session starts on the selected users and the tab's storage |
| Auth.AuthSession.CurrentUser | js/auth.js:46-52 | the stored value, present iff the key is set, and the tab is authenticated iff it is non-empty |
| Auth.AuthSession.Login | js/auth.js:25-40 | the result is the login decision, only a success stores the name, and the tab is then authenticated |
| Auth.AuthSession.Logout | js/auth.js:42-44 | the key is removed and the tab is no longer authenticated |
| Auth.AuthSession.LogoutClick | js/auth.js:72-81 | a logout click signs out and navigates to the login page |
| Auth.AuthSession.RequireAuth | js/auth.js:61-70 | the result is whether the tab is authenticated, and only an anonymous tab navigates, to the login URL |
| LoginRedirect.SanitizeRedirect | js/login.js:74-79 | the result is never empty and never http(s), is the target itself otherwise, and is `control.html` for a missing, empty or http(s) target |
| LoginRedirect.SanitizeIdempotent | js/login.js:74-79 | sanitising twice is sanitising once |
| LoginRedirect.DefaultIsRelative | js/login.js:76 | the fallback `control.html` passes the guard |
| LoginRedirect.DefaultStaysOnSite | js/login.js:76 | a browser reads `control.html` as a page on the same site |
| LoginRedirect.ProtocolRelativeSlipsThrough | js/login.js:74-79 | `//evil.example` passes unchanged although a browser reads it as another host |
| LoginRedirect.SafeRedirect | js/login.js:74-79 | the corrected guard never returns a target a browser reads as leaving the site |
| LoginRedirect.SafeRedirectAgrees | js/login.js:74-79 | the corrected guard differs from the original only on such targets |
| LogFilter.RowVisibleIffOccurs | js/logs.js:17-18 | a row shows iff the trimmed, lower-cased query occurs somewhere in its lower-cased text |
| LogFilter.VisibilityOfAppend | js/logs.js:16-19 | each row is decided by its own text alone: the flags of a concatenation are the concatenation of the flags |
| LogFilter.BlankQueryShowsAll | js/logs.js:15-18 | an empty or whitespace-only query shows every row |
| LogFilter.LongerQueryNarrows | js/logs.js:18 | a row shown for a longer query is shown for every prefix of it |
| LogFilter.RowCaseIgnored | js/logs.js:17 | a row's case does not affect its visibility |
| LogFilter.QueryCaseIgnored | js/logs.js:15 | the query's case does not affect which rows show |
| LogFilter.LogTable.constructor | js/logs.js:10-12 | the handler is attached iff the search box exists and there are rows, and every row starts shown |
| LogFilter.LogTable.OnInput | js/logs.js:14-20 | every row's flag is set to whether its text contains the query, and nothing changes without a handler |

## Left out

- DOM and canvas effects are not modelled beyond what the model records. That covers text,
  colours, fonts, `measureText`, class toggles, `alert`, the camera-address modal
  (js/control.js:438-478), `syncOverlaySize`, `setDetectStatus` badges and input echoes.
  The model records only which boxes are stroked, what the readout shows, which lines reach
  the console and which status applies.
- Network I/O is out of scope:
  - `sendCmd`'s `fetch` is recorded as the list of targets requested.
  - The proxy's real `fetch`, the streamed bytes, backpressure and `server.listen` are not
    modelled. How the upstream fetch settles is an input.
- COCO-SSD itself is opaque: whether the library is present and how `cocoSsd.load` settles
  is an input to `ensureDetectModel`, and what `model.detect` settles with is an input to
  the pass. On the detector page, `ensureModel` is given as whether the model is ready.
- CameraProxy.HandleRequest: when `new URL` throws, the async handler's promise rejects and
  nothing catches it. What Node then does (a warning, or ending the process, depending on
  its settings) is not modelled; the model records the response left open.
- Browser library semantics are parameters or abstractions:
  - `new URL` is the `parse` parameter, which returns the parsed `pathname` and `port`.
  - The proxy's `new URL(req.url, ...)` and `searchParams.get('url')` are given as whether
    the parse succeeds, the request's path and its `url` value.
  - `encodeURIComponent` is the `encode` parameter.
  - `toFixed` label text is the `fmt` parameter.
  - `parseFloat` is given as its result.
- JsText.Lower: lower-cases ASCII letters only. JavaScript's `toLowerCase` also maps
  non-ASCII letters, which Dafny has no tables for.
- Timers are modelled as one flag. The 700 ms `setInterval` cadence and the interleaving of
  `await` points are not modelled: each part of a detection pass between awaits is one
  atomic method.
- ImageDetector.DetectorPage.BeginPass: checks and sets `isDetecting` in one step. The
  source sets it only after its awaits (object-detection/detect.js:122), so two clicks in
  quick succession can both start a pass. That race is not modelled.
- ImageDetector.DetectorPage.FinishPass: requires a non-zero natural size. When the image
  fails to load, the source divides by zero and draws with NaN scales, which real numbers
  cannot express.
- Floating-point rounding is not modelled: all geometry uses exact `real` arithmetic.
- Auth.AuthSession.constructor: takes a configured user list whose usernames and passwords
  are strings. The source accepts any array from the page.
- `onAuthChanged` and `loginWithEmail`, which js/login.js calls, are defined nowhere in the
  repository. They are not part of this model, nor is the rest of js/login.js: the form
  handling and the loading state.
- The logs page's own `requireAuth` call (js/logs.js:4-8) is `Auth.AuthSession.RequireAuth`.
  Its `console.error` is not modelled.

## Findings

| source | as written | input that shows it | evidently intended | confidence | as-written member | corrected member |
|---|---|---|---|---|---|---|
| js/login.js:74-79 | only a missing/empty target or one starting with `http://`/`https://` is replaced before `window.location.href = redirectTarget` | `?redirect=//evil.example` is kept, and the browser navigates to host `evil.example` once sign-in completes; this needs an auth module that provides `onAuthChanged` and `loginWithEmail`, since with this repository's js/auth.js the call at js/login.js:19 throws before any navigation | the guard keeps the user on the site: a target with any scheme, or starting with two slashes or backslashes after the browser drops tabs, newlines and leading controls, is replaced by `control.html` | medium (browser URL parsing per the WHATWG URL Standard, not executed) | LoginRedirect.ProtocolRelativeSlipsThrough | LoginRedirect.SafeRedirect |
