# Camera capture and recording controller — a Dafny model

This project models the controller of a browser page that records camera video
with a recorder library. The controller does four things:

- It probes the camera once. It reads the first video track's capability
  ranges: the maximum frame rate, width and height.
- It derives the capture selection from those ranges: a frame rate, a
  resolution, and then a bit rate. The user can override the resolution and
  the frame rate. The page renders the bit-rate select disabled
  (src/App.tsx:409-413), so its change handler, modelled as
  `Session.App.OnBitRateChange`, cannot be reached from the page.
- It starts a recording over a freshly requested camera stream and stops it
  again. A completion step runs when the recorder has flushed.
- It keeps a catalog of finished clips. Each clip gains its pixel dimensions
  once the browser reports them.

The browser media calls, the recorder library and the page's rendering are
not modelled. Their results arrive as method parameters:

- the probe's outcome;
- the stream the camera grants, or its refusal;
- the finished clip's size label, type and URL.

Modules, one concern each:

- `Wrappers`: `Option`.
- `Search`: the two array idioms the controller is built from. These are
  `findIndex` and indexing that yields `undefined` out of range.
- `Decimal`: how integers print in a clip's name.
- `Tables`: the three option tables (resolutions; bit rates, largest first;
  frame rates) and the fixed configuration. The configuration is the
  compression ratio 0.8, held as the fraction 4/5; the always-portrait
  orientation; and the container, `.webm` / `video/webm;codecs=vp8` (the
  non-Safari branch).
- `Parameters`: the derivation rules. They form one explicit pipeline:
  capability → frame rate and resolution → bit rate. The bit rate is
  re-derived only when the resolution or the frame rate actually changed.
- `Constraints`: the video constraints sent with the stream request.
- `Catalog`: the list of clip descriptors, as values.
- `Session`: the controller as a class, `App`, with its own state: the
  recording flag, the stream ref, the recorder ref, the preview source, the
  selection and the catalog. It also holds small classes for tracks, streams
  and the recorder handle.

Behaviour of the code that the model keeps on purpose:

- The frame rate is taken only when the reported maximum is exactly 15, 24, 30
  or 60. Any other non-zero maximum clears the selection, so 45 clears it. It
  is not "the highest rate not above the maximum".
- The bit rate is compared as `5 * v <= 4 * width * height * fps`. Over the
  tables no product lands on a bit-rate boundary, so this exact comparison
  decides every case the same way as the page's floating-point one.
- Starting a recording sets the recording flag before it checks for a stream.
  A refused stream request keeps the previous stream ref. That ref may be a
  stream whose tracks an earlier recording already stopped, and a recorder is
  then created over it.
- Neither the stream ref nor the recorder ref is cleared on stop.
- `startVideoRecording` has no guard of its own. The record button calls it
  only while the page is not recording (src/App.tsx:423), and
  `Session.App.StartVideoRecording` requires exactly that. The class invariant
  `Session.App.Valid` adds that a recorder still recording means the page is
  recording. So a start never replaces a recorder that is still running, and at
  most one recorder runs at a time.
- `duration` is declared but never assigned. The catalog invariant
  `Catalog.WellFormed` records that no clip ever carries one.
- `Parameters.Consistent` says the bit rate is the one the rule derives from
  the resolution and the frame rate. The first render, the probe and the
  resolution and frame-rate handlers all keep it, and the recording steps do
  not touch the selection. So it holds in every state the page can reach.
  `Session.App.OnBitRateChange` is the one update that can break it
  (`Parameters.BitRateOverrideBreaksConsistency`), and the page cannot reach it.
- The bit rate is left unset only when the budget is below 800.
  `Parameters.TableBitRateAlwaysSet` shows that no pair of table values gets
  there.

## Model

| member | source | states |
|---|---|---|
| `Search.FindIndex` | src/App.tsx:199-201 | The index of the first element that satisfies the predicate; -1 exactly when none does. |
| `Search.Lookup` | src/App.tsx:202 | Indexing a table yields the entry when the index is in range, and `undefined` otherwise, notably for -1. |
| `Decimal.NatToString` | src/App.tsx:269 | Decimal rendering of the clip number: all characters are digits, a number below 10 is one digit, a longer rendering has no leading zero, and the digits read back as the number. Together these make it the only decimal form of the number. |
| `Decimal.NatToStringInjective` | src/App.tsx:269 | Different clip numbers print differently, because the digits read back as the number. |
| `Tables.ResolutionRank` | src/App.tsx:42-59 | Every resolution value appears in the resolution table. |
| `Tables.BitRateRank` | src/App.tsx:60-85 | Every bit-rate value appears in the bit-rate table. |
| `Tables.ResolutionsDescending` | src/App.tsx:42-59 | The resolution table is ordered by decreasing width and decreasing height. |
| `Tables.BitRatesDescending` | src/App.tsx:60-85 | The bit-rate table is ordered largest first. |
| `Parameters.DeriveFrameRate` | src/App.tsx:198-203 | With no maximum or a zero maximum, the frame rate is unchanged. Otherwise a rate is selected iff the maximum is exactly 15, 24, 30 or 60, and the selected rate equals the maximum. |
| `Parameters.DeriveResolution` | src/App.tsx:204-213 | Unless both maxima are non-zero, the resolution is unchanged. Otherwise the result fits, and no earlier table entry fits. When nothing fits, the result is unset. |
| `Parameters.DerivedResolutionIsLargest` | src/App.tsx:205-212 | When any resolution fits, one is derived, and no fitting resolution is wider or taller than it. |
| `Parameters.PickBitRate` | src/App.tsx:217-226 | The bit rate is within width·height·fps·0.8, and it is the largest table value that is. It is unset exactly when that budget is below 800. |
| `Parameters.RederiveBitRate` | src/App.tsx:218-225 | With resolution and frame rate both set, the bit rate is re-derived from them. Otherwise nothing changes. The result is consistent either way. |
| `Parameters.BitRateEffect` | src/App.tsx:217-227 | Resolution and frame rate are those of the new selection. With neither changed the selection is untouched. With either unset the bit rate is kept. With one changed and both set the bit rate is the largest table value within the new pair's budget. A consistent selection stays consistent. |
| `Parameters.ApplyCapability` | src/App.tsx:191-215 | The frame rate and resolution are those their rules derive from the capability. If neither changes, the selection is unchanged. If either is unset afterwards, the bit rate is kept. If one changed and both are set, the bit rate is the largest table value within the new pair's budget. A consistent selection stays consistent. |
| `Parameters.SelectResolution` | src/App.tsx:284-290 | The user's resolution replaces the old one and the frame rate is kept. Choosing the current resolution changes nothing. With no frame rate the bit rate is kept. When it changed and a frame rate is set, the bit rate is re-derived for the new pair. Consistency is preserved. |
| `Parameters.SelectFrameRate` | src/App.tsx:298-304 | The user's frame rate replaces the old one and the resolution is kept. Choosing the current frame rate changes nothing. With no resolution the bit rate is kept. When it changed and a resolution is set, the bit rate is re-derived for the new pair. Consistency is preserved. |
| `Parameters.SelectBitRate` | src/App.tsx:291-297 | The user's bit rate overwrites the field; resolution and frame rate are kept. |
| `Parameters.TableBitRateAlwaysSet` | src/App.tsx:60-103 | For every resolution and frame rate of the tables, a bit rate is found. |
| `Parameters.ConsistentBitRateBound` | src/App.tsx:217-226 | In a consistent selection with resolution and frame rate set, the bit rate is set. It is within the budget and is the largest table value that is. |
| `Parameters.BitRateExamples` | src/App.tsx:217-226 | 1920x1080 at 30 fps gives 8000000; 640x480 at 15 fps gives 800000. |
| `Parameters.Probe720pCamera` | src/App.tsx:191-226 | A camera reporting 30 fps and 1280x720 yields 1280x720, 30 fps and 8000000 bps from an unset selection. |
| `Parameters.Probe45FpsCamera` | src/App.tsx:198-203 | A camera reporting 45 fps and 1280x720 yields 1280x720 with no frame rate and so no bit rate, from an unset selection. |
| `Parameters.BitRateOverrideBreaksConsistency` | src/App.tsx:291-297 | Overriding the bit rate of the consistent 640x480/15 fps/800000 selection with 8000000000 gives an inconsistent selection. |
| `Constraints.NumberOf` | src/App.tsx:152-155 | `Number` of a table value is that integer. `Number(undefined)` is NaN. |
| `Constraints.BuildConstraints` | src/App.tsx:146-156 | Requested width is the resolution's height and requested height its width (portrait). With no resolution both are NaN. The frame-rate entry is absent exactly when a rate is selected, and otherwise it is NaN. |
| `Constraints.IntendedConstraints` | src/App.tsx:155 | Corrected request: same dimensions and facing mode; the selected frame rate is requested, and none when unset. |
| `Constraints.SelectedFrameRateNeverRequested` | src/App.tsx:155 | The request as written never carries a concrete frame rate, and it always differs from the intended one in that entry. |
| `Constraints.PortraitIsTransposed` | src/App.tsx:152-153 | Portrait and landscape requests swap width and height. |
| `Catalog.Append` | src/App.tsx:268-277 | Exactly one descriptor is added at the end, and earlier entries are untouched. The new entry is named `VideoRecord-(n+1)` plus the extension, where n is the prior length. It carries the current resolution, bit rate, frame rate and the blob's size, type and URL, and has no dimensions and no duration. The catalog stays well formed. |
| `Catalog.AttachDimensions` | src/App.tsx:464-473 | The entry at the index keeps every field and gains `videoWidth`/`videoHeight`. The length and all other entries are unchanged, and the catalog stays well formed. |
| `Catalog.AttachIdempotent` | src/App.tsx:466-472 | Attaching the same dimensions twice equals attaching them once. |
| `Catalog.AttachCommutesWithAppend` | src/App.tsx:466-472 | Indexes are stable: attaching before or after a newer clip is appended gives the same catalog. |
| `Catalog.RecordNameInjective` | src/App.tsx:269 | Two clip numbers with the same name are equal. |
| `Catalog.WellFormedNamesDistinct` | src/App.tsx:269 | In a well-formed catalog all clip names, and so all download names, are distinct. |
| `Catalog.FirstRecordName` | src/App.tsx:269 | The first clip is named `VideoRecord-1.webm`. |
| `Session.MediaStream.Wrap` | src/App.tsx:158 | Wrapping a granted stream gives a new stream over the same tracks. |
| `Session.MediaStream.StopAllTracks` | src/App.tsx:279 | Every track of the stream is stopped; no other object changes. |
| `Session.Recorder.constructor` | src/App.tsx:249-253 | A new recorder is bound to the stream, the MIME type and the bits-per-second value, and it is not yet recording. |
| `Session.Recorder.StartRecording` | src/App.tsx:255-257 | The recorder is recording. |
| `Session.Recorder.StopRecording` | src/App.tsx:263-265 | The recorder is stopped. |
| `Session.App.constructor` | src/App.tsx:117-132 | The first render: fetching camera info, not recording, nothing selected, empty catalog, no stream, recorder or preview. |
| `Session.App.GetCameraCapability` | src/App.tsx:166-185 | The probe as written. The loading flag ends false on every path. On success the capability is stored, the selection is re-derived from it, and every probe track is stopped. On any failure capability and selection are unchanged. When the stream was obtained but its capabilities could not be read, its tracks are left as they were, so a live probe track stays live. A consistent selection stays consistent. Nothing else changes. |
| `Session.App.GetCameraCapabilityReleasing` | src/App.tsx:166-185 | The corrected probe: as above, except that every track of an obtained probe stream is stopped on every path. |
| `Session.App.OnResolutionChange` | src/App.tsx:284-290 | The selection becomes `SelectResolution` of the old one and stays consistent; nothing else changes. |
| `Session.App.OnFrameRateChange` | src/App.tsx:298-304 | The selection becomes `SelectFrameRate` of the old one and stays consistent; nothing else changes. |
| `Session.App.OnBitRateChange` | src/App.tsx:291-297 | The selection becomes `SelectBitRate` of the old one; nothing else changes. The page renders this select disabled (src/App.tsx:409-413). |
| `Session.App.StartVideoRecording` | src/App.tsx:228-258 | The request is the as-written constraints of the current selection, and the page is recording afterwards even without a stream. A granted stream becomes a new stream ref over its tracks and the preview source; a refusal keeps both old values. With no stream ref the recorder ref is unchanged. Otherwise it is a new recorder over the stream ref with the MIME type and the current bit rate (NaN when unset), and it is started. Only these four fields change, and a recorder never exists without a stream. It is entered only while not recording, as the record button at src/App.tsx:423 ensures, and the recorder it replaces, if any, is not recording. |
| `Session.App.StopVideoRecording` | src/App.tsx:260-265 | Recording is flagged off. A recorder, if any, is stopped. With no recorder nothing else changes. |
| `Session.App.OnRecordingStopped` | src/App.tsx:265-281 | The catalog becomes `Append` of the old one with the current selection and the clip's size, type and URL. Every track of the stream ref is stopped and the preview is cleared. The stream and recorder refs and the recording flag are unchanged. |
| `Session.App.OnLoadedMetadata` | src/App.tsx:464-473 | The catalog becomes `AttachDimensions` of the old one at that index; nothing else changes. |

`Session.ProbeScenario` and `Session.RecordingScenario` are client methods with
no contract. Together they walk one cycle: a 1280x720/30 fps camera is probed,
one clip is recorded, and the catalog then holds `VideoRecord-1`.
`Session.ProbeLeakScenario` runs both probes on a stream whose capabilities
cannot be read.

## Findings

| source | as written | input that shows it | evidently intended | confidence | as-written member | corrected member |
|---|---|---|---|---|---|---|
| src/App.tsx:177-180 | The probe stops its stream's tracks only after the capabilities have been read. If `getVideoTracks()[0]` or `getCapabilities()` throws, the catch skips the release. | A stream with no video track, or a track whose `getCapabilities` throws: its tracks stay live, and the camera stays in use. | Release the probe stream on every path that obtained it. | medium; not executed | `Session.App.GetCameraCapability` | `Session.App.GetCameraCapabilityReleasing` |
| src/App.tsx:155 | The frame-rate entry of the stream request is left out when a frame rate is selected. When none is selected it is `Number(undefined)`, which is NaN. | Selected frame rate 30: the request carries no frame rate. Unset frame rate: the request carries NaN. A likely further effect, not modelled: `frameRate` is a restricted double in the browser's constraint types, so the NaN probably makes the stream request reject, and with no frame rate selected no recording stream is obtained; the NaN width and height of an unset resolution, by contrast, are unsigned longs and convert to 0. | Request the selected frame rate, and omit the entry when none is selected. | high; not executed | `Constraints.SelectedFrameRateNeverRequested` | `Constraints.IntendedConstraints` |

`Session.App.StartVideoRecording` reports the request exactly as the page
builds it, through `Constraints.BuildConstraints`. The request is the one
observable output of that step, so the defect stays visible in the model of
the page. `Constraints.IntendedConstraints` is the corrected request.

Likewise `Session.App.GetCameraCapability` is the probe as the page runs it,
and `Session.App.GetCameraCapabilityReleasing` is the corrected one. The two
agree whenever the capabilities are read. `Session.ProbeLeakScenario` shows
the difference: after an unreadable capability the page's probe leaves the
probe track live, and the corrected probe stops it.

## Left out

- Monitoring: the transaction, span and tag calls around recording and the
  profiler wrapper. They have no effect on recording behaviour.
- Browser media I/O: device enumeration, the stream request, reading track
  capabilities, and the preview element's playback. Their outcomes are
  parameters (`ProbeOutcome`, `Option<MediaStream>`).
- Probe failure before a stream exists: a failed enumeration, no video input
  and a refused request are collapsed into one `ProbeError`, and they have the
  same effect. A failure after the stream was handed out is a separate
  outcome, `CapabilityUnreadable`, because it leaves the probe stream live.
- The recorder library: it is an opaque handle with a state. Its blob's size
  label, type and URL are parameters of the completion step.
- The human-readable size label uses floating-point logarithms and
  formatting, so the label is an opaque string parameter.
- The Safari user-agent test: the container is fixed to the non-Safari branch.
- NaN capability values cannot be represented. Capability maxima are optional
  reals (frame rate) and naturals (width, height).
- Rendering: the markup, the styling, the disabled frame-rate options above
  the camera's maximum, and the alert and console output.
- React's asynchronous scheduling and stale closures: every step runs in
  order on the current state. A second start issued before the first one's
  stream request returns is not modelled, and neither is a completion that
  fires after a newer start.
- The preview element is assumed mounted whenever the recording controls are
  shown.
- Session.App.OnRecordingStopped requires a stopped recorder, because the
  completion is only registered with an existing recorder and runs after it
  was stopped. A completion firing twice for the same stop is not excluded.
- Session.App.OnLoadedMetadata requires an index inside the catalog, because
  the index comes from rendering the catalog, which never shrinks.
