# panamaDid identity pipeline in Dafny

A model of the identity-verification core of the panamaDid onboarding flow: the
DID NFT metadata document assembled from the shared identity record, the
liveness step's face detection and auto-capture protocol, the ID extraction
workflow with its phases, progress and fallbacks, and the verification-score
presentation. Everything is stated over immutable values:

- `values.dfy` (`Values`): optional values, JavaScript truthiness and `||`
  fallbacks, template interpolation of a missing value (`undefined`), and the
  decimal rendering of an integer with a parser that reads it back.
- `did_context.dfy` (`DidContext`): the identity record (`DIDData`) and the
  two context operations every step calls, `updateDIDData` and
  `markStepAsCompleted`. The context provider (`src/context/DIDContext`) is not
  part of this model; `updateDIDData` is taken to be a shallow merge of the
  keys the caller supplies, and the properties of the steps that touch the
  record rest on that assumption.
- `metadata_service.dfy` (`Metadata`): `generateDIDMetadata`.
- `skin_detection.dfy` (`SkinDetection`): the skin-tone fallback detector.
- `liveness_step.dfy` (`Liveness`): the liveness step as a state machine over
  timer ticks and user actions, with an invariant of every reachable state.
- `extraction_step.dfy` (`Extraction`): the extraction effect as the trace of
  UI updates and context calls it makes, with views projecting the phases and
  the published progress values.
- `verification_score_display.dfy` (`ScoreDisplay`): colour bands and tiers of
  the score.

In these places the code behaves differently from what its comments and names
suggest; the model follows the code:

- A sample without a face never cancels an armed countdown. The reset branch
  of `handleFaceDetection` requires a pending `captureTimeout`, and nothing
  ever assigns one (`Liveness.FaceLossKeepsCountdown`).
- A capture hides the camera but leaves the stream running. Cancel stops it,
  and a retake that opens a new stream stops the old one through the cleanup of
  the effect keyed on `cameraStream`, so one flag for "a stream is running"
  describes both (`Liveness.HandleCapture`, `Liveness.CancelCapture`,
  `Liveness.StartVerification`).
- The polling interval's closure holds a stale `countdown`; the guard that
  prevents re-arming is the `captureInProgress` ref alone, which the model
  shows is enough (`Liveness.ArmingNeedsOnlyInProgress`,
  `Liveness.NoRearmWhileInProgress`).
- An OCR failure is not fatal: the run still saves the mock record and marks
  the step completed. Only a context call that throws inside the outer `catch`
  as well leaves the step uncompleted (`Extraction.RunCompletion`).

## Model

| member | source | states |
|---|---|---|
| Values.IntToStringRoundTrip | src/utils/metadataService.ts:106 | a score's decimal rendering is non-empty, canonical, and parses back to the same integer |
| Values.IntToStringInjective | src/utils/metadataService.ts:106 | distinct scores render as distinct strings |
| Values.NatToStringRoundTrip | src/utils/metadataService.ts:106 | the rendering of a natural number is all digits, has no leading zero and parses back to the number |
| Values.CanonicalIsRendering | src/utils/metadataService.ts:106 | every canonical text (optional `-`, digits, no superfluous zero, no `-0`) is the rendering of the integer it parses to, so renderings are exactly the canonical texts |
| Metadata.GenerateDidMetadata | src/utils/metadataService.ts:40-130 | twelve attributes in the fixed trait order, every value non-empty, the name equal to the full_name attribute, and the image chosen selfie first, then document image, then the placeholder |
| Metadata.ImageAttributes | src/utils/metadataService.ts:116-127 | liveness_verified is "Yes" exactly when a selfie is present; the two image attributes are the URLs or "Not Available" |
| Metadata.ModeAttributes | src/utils/metadataService.ts:62-115 | verification_type tells the two modes apart in both directions; demo mode always reports gender "Not Specified" |
| Metadata.ScoreAndTimestampAttributes | src/utils/metadataService.ts:104-111 | the score attribute is the canonical text that parses back to the record's score, or "0" without one; the timestamp is the record's, else the current time |
| Metadata.VerifiedModeAttributes | src/utils/metadataService.ts:42-103 | in verified mode each identity attribute is the record's field or its placeholder, and the description repeats the name, number, birth date and gender attributes |
| Metadata.DemoModeAttributes | src/utils/metadataService.ts:42-103 | in demo mode name, number, type, birth date, nationality and the description come from the demo record |
| Metadata.DemoModeWithoutDemoData | src/utils/metadataService.ts:42-77 | demo mode without a demo record names the holder "undefined undefined" and prints `undefined` in the description while the attributes say "Unknown" |
| Metadata.DemoIgnoresVerifiedFields | src/utils/metadataService.ts:40-130 | in demo mode the document does not depend on the verified identity fields |
| Metadata.VerifiedRecordScenario | src/utils/metadataService.ts:40-130 | a verified record with a selfie yields liveness_verified "Yes", its document number and its name |
| Metadata.EmptyRecordScenario | src/utils/metadataService.ts:40-130 | an all-absent record yields "Unknown User", the placeholder image, score "0", the current time and the placeholder description |
| ScoreDisplay.ScoreColor | src/components/did/VerificationScoreDisplay.tsx:26-34 | each of the five colours is used exactly on its score band (<30, 30-39, 40-60, 61-85, >85) |
| ScoreDisplay.VerificationStatus | src/components/did/VerificationScoreDisplay.tsx:37-42 | the tier's floor is reached by the score and the next tier's floor is not |
| ScoreDisplay.TierBands | src/components/did/VerificationScoreDisplay.tsx:37-42 | a score is in a tier exactly when it lies in that tier's band of 25 |
| ScoreDisplay.TierMonotone | src/components/did/VerificationScoreDisplay.tsx:37-42 | a higher score never gives a lower tier |
| ScoreDisplay.TierThresholds | src/components/did/VerificationScoreDisplay.tsx:37-42 | the tier changes exactly at 25, 50 and 75 |
| ScoreDisplay.Render | src/components/did/VerificationScoreDisplay.tsx:56-100 | the `{score}%` text is the score's canonical rendering and reads back as the score, the bar shows the score, the colour is the score's colour band and the label the score's tier (red and dark blue and the outer labels exactly on their bands) |
| ScoreDisplay.RenderDependsOnlyOnScore | src/components/did/VerificationScoreDisplay.tsx:57-60 | two contexts with the same score render identically |
| SkinDetection.IsSkin | src/components/did/LivenessVerificationStep.tsx:303-309 | the seven-part skin test holds exactly when its six core conditions do |
| SkinDetection.CountSkinPixels | src/components/did/LivenessVerificationStep.tsx:293-312 | the loop counts exactly the skin pixels among the pixels it visits, a partial last pixel never counting |
| SkinDetection.FaceFoundIntegral | src/components/did/LivenessVerificationStep.tsx:293-316 | the ratio test `skin / (len / 4) > 0.15` is `80 * skin > 3 * len`, and an empty buffer finds no face |
| SkinDetection.CropThreshold | src/components/did/LivenessVerificationStep.tsx:273-316 | on the 100x100 crop a face is found exactly when more than 1500 pixels are skin |
| SkinDetection.CropExamples | src/components/did/LivenessVerificationStep.tsx:315-316 | 20% skin is a face; 15% and 5% are not |
| SkinDetection.FaceFoundMonotone | src/components/did/LivenessVerificationStep.tsx:315-316 | more skin pixels never turn a detection off |
| SkinDetection.DetectFacesSimple | src/components/did/LivenessVerificationStep.tsx:263-322 | the presence signal is true exactly when the buffer is non-empty and more than 3 skin pixels fall in every 80 bytes |
| Liveness.UseSimpleAtMount | src/components/did/LivenessVerificationStep.tsx:169-184 | the native detector is used exactly when the platform offers it and it constructs |
| Liveness.Mount | src/components/did/LivenessVerificationStep.tsx:146-164 | a still is shown exactly when the record holds a liveness image; camera hidden, no countdown, auto-capture on, no interval or timeout pending, and the detector chosen as at mount |
| Liveness.HandleFaceDetection | src/components/did/LivenessVerificationStep.tsx:340-369 | records the sample; a face with auto-capture on, nothing in progress and no countdown arms a countdown of 1 and one interval; otherwise no interval starts |
| Liveness.PollTick | src/components/did/LivenessVerificationStep.tsx:205-337 | no effect unless the camera is shown without a still; the heuristic's verdict on the frame, or the native detector's "at least one face", goes to the face handler; no frame or no detector changes nothing; a throwing native detector switches to the heuristic, which is never switched off |
| Liveness.CountdownTick | src/components/did/LivenessVerificationStep.tsx:348-360 | above 1 the countdown decreases; at 1 or cleared the interval stops and exactly one capture is scheduled |
| Liveness.CaptureTimer | src/components/did/LivenessVerificationStep.tsx:372-393 | a due capture without a mounted video does nothing; otherwise it captures the still, records it in the context and clears the capture state |
| Liveness.HandleCapture | src/components/did/LivenessVerificationStep.tsx:395-408 | shows the still, hides the camera, records image, verified flag and timestamp in one update, starts the upload, leaves the stream running |
| Liveness.StartVerification | src/components/did/LivenessVerificationStep.tsx:237-260 | clears the detection state; camera granted opens it, refused reports the permission error |
| Liveness.CancelCapture | src/components/did/LivenessVerificationStep.tsx:410-416 | hides the camera and stops the stream without touching the context |
| Liveness.VerificationTimeout | src/components/did/LivenessVerificationStep.tsx:429-439 | a due verification timeout ends the upload and completes the step without touching the record or the still; with none scheduled nothing happens |
| Liveness.CompleteOnCapture | src/components/did/LivenessVerificationStep.tsx:198-202 | the step becomes completed exactly when a still is on screen or it already was; nothing else changes |
| Liveness.Step | src/components/did/LivenessVerificationStep.tsx:198-439 | only a due capture or a retake writes the record, and only the verification timeout and the completion effect complete the step; further characterised by StepPreservesInv, StepKeepsSimpleDetection and CapturedIsStable |
| Liveness.HandleRetake | src/components/did/LivenessVerificationStep.tsx:418-427 | drops the still, clears the liveness keys and restarts the camera session |
| Liveness.MountEstablishesInv | src/components/did/LivenessVerificationStep.tsx:146-164 | the mounted step satisfies the invariant: auto-capture on, no pending timeout, a countdown only while in progress, still in sync with the record, liveness fields consistent |
| Liveness.StepPreservesInv | src/components/did/LivenessVerificationStep.tsx:198-439 | every tick, timer and action keeps the invariant |
| Liveness.RunPreservesInv | src/components/did/LivenessVerificationStep.tsx:198-439 | every sequence of events keeps the invariant |
| Liveness.ArmingNeedsOnlyInProgress | src/components/did/LivenessVerificationStep.tsx:343 | in reachable states the arming guard is "face and nothing in progress" |
| Liveness.NoRearmWhileInProgress | src/components/did/LivenessVerificationStep.tsx:343-347 | while a capture is in progress no sample restarts the countdown or starts another interval |
| Liveness.FaceLossKeepsCountdown | src/components/did/LivenessVerificationStep.tsx:362-368 | a sample without a face changes only the face indicator |
| Liveness.TickFromOneFires | src/components/did/LivenessVerificationStep.tsx:345-356 | from an armed countdown of 1 one tick stops the interval and schedules exactly one capture |
| Liveness.StepKeepsSimpleDetection | src/components/did/LivenessVerificationStep.tsx:332-336 | no event switches the heuristic detector off |
| Liveness.RunKeepsSimpleDetection | src/components/did/LivenessVerificationStep.tsx:332-336 | the switch to the heuristic is permanent over any run |
| Liveness.CapturedIsStable | src/components/did/LivenessVerificationStep.tsx:395-408 | only a retake replaces or clears a captured still or the record's liveness image |
| Liveness.NoCaptureAfterCapture | src/components/did/LivenessVerificationStep.tsx:372-408 | once a still is captured, no later event without a retake captures another |
| Liveness.AtMostOneCaptureWithoutRetake | src/components/did/LivenessVerificationStep.tsx:340-408 | without a retake at most one image is captured in any run |
| Liveness.RetakeClearsOnlyLiveness | src/components/did/LivenessVerificationStep.tsx:418-425 | a retake clears the three liveness fields and keeps every other field of the record |
| Liveness.CaptureWritesOnlyLiveness | src/components/did/LivenessVerificationStep.tsx:400-404 | a capture sets the three liveness fields and no other field of the record |
| Liveness.CaptureThenVerificationCompletes | src/components/did/LivenessVerificationStep.tsx:429-439 | the simulated verification after a capture ends the upload and completes the step, keeping the still |
| Liveness.StoredImageCompletesAtMount | src/components/did/LivenessVerificationStep.tsx:198-202 | a liveness image already in the record completes the step without a camera session |
| Liveness.PresenceScenario | src/components/did/LivenessVerificationStep.tsx:340-408 | face x3, no face, face x3 arms once, is not cancelled, and one tick plus the due capture records exactly one image |
| Extraction.ExtractDataWithOpenAI | src/components/did/ExtractionStep.tsx:98-151 | every path ends by publishing 100; a record is returned only when there is an image URL and the OCR succeeded, and then it is the OCR's; further characterised by ExtractedViews, ExtractedHasNoContextCall and FailuresAreReported |
| Extraction.PerformExtraction | src/components/did/ExtractionStep.tsx:155-207 | an extraction already in the record leaves the context as it was; the score is never touched; the step is completed afterwards only if it was before or an extraction is saved; further characterised by RunCompletion, SavedRecord, CatchSavesMock and RunKeepsOtherFields |
| Extraction.ProgressTicksValues | src/components/did/ExtractionStep.tsx:107-115 | the progress interval publishes 5, 10, ... up to 90 and nothing else |
| Extraction.TickValuesShape | src/components/did/ExtractionStep.tsx:107-115 | those values are strictly increasing multiples of 5 in (0, 90] |
| Extraction.ExtractedViews | src/components/did/ExtractionStep.tsx:98-151 | without an image: no phase, progress 100; OCR failure: Extracting, ticks then 100; success: Extracting then Processing, ticks, 95, 100 |
| Extraction.ExtractedHasNoContextCall | src/components/did/ExtractionStep.tsx:98-151 | the extraction call never updates the context or completes the step |
| Extraction.ShortCircuit | src/components/did/ExtractionStep.tsx:158-163 | an extraction already in the record goes straight to Complete at 100% with no OCR call and no context call |
| Extraction.PhaseSequence | src/components/did/ExtractionStep.tsx:98-189 | phases are Preparing, Extracting, Processing, Complete on success, skip Processing on OCR failure and also Extracting without an image |
| Extraction.ProgressSequence | src/components/did/ExtractionStep.tsx:107-148 | published progress strictly increases and ends at 100; values below 95 are interval ticks; success shows 95 right before 100 |
| Extraction.RunCompletion | src/components/did/ExtractionStep.tsx:164-206 | for every OCR outcome and every throwing context call an extraction is saved before any completion call; unless a call in the `catch` throws too, the run ends by completing the step with name, number, birth date and type non-empty; if one does, the step is never marked completed and the flag is as it was |
| Extraction.SavedFields | src/components/did/ExtractionStep.tsx:170-186 | the saved fields are the returned record's non-empty fields, else the mock's; a failed or skipped OCR call saves the mock |
| Extraction.FailuresAreReported | src/components/did/ExtractionStep.tsx:100-149 | a missing image is reported without an OCR call; an OCR failure's message (or the default) is reported after the OCR call, and the run still ends by completing |
| Extraction.SavedRecord | src/components/did/ExtractionStep.tsx:176-186 | without a fault the whole record afterwards is the old one with exactly the seven extraction keys written: the flag, the four identity fields from the result or the mock, the result itself and the raw text |
| Extraction.RecoverRecord | src/components/did/ExtractionStep.tsx:196-204 | the `catch` writes exactly the flag, the mock's four identity fields and the mock record, keeping every other field (the raw text included); a throwing save keeps the whole record |
| Extraction.CatchSavesMock | src/components/did/ExtractionStep.tsx:190-205 | a `catch` that runs to the end reports the retry message, shows the mock, saves it (over a real OCR save that went through) and completes; the raw text is the one saved before the failure, if any |
| Extraction.RunKeepsOtherFields | src/components/did/ExtractionStep.tsx:178-204 | under every fault a run leaves the liveness fields, image URLs, score, demo data, gender, issuing country and verification timestamp as they were |
| Extraction.ConfidenceLevel | src/components/did/ExtractionStep.tsx:565-576 | HIGH above 0.8, MEDIUM above 0.6 up to 0.8, LOW otherwise, each in both directions |
| Extraction.ConfidenceMonotone | src/components/did/ExtractionStep.tsx:565-576 | higher confidence never gives a lower level |
| Extraction.ConfidenceBadge | src/components/did/ExtractionStep.tsx:545-576 | the badge shows exactly for data with a present, non-zero confidence, at that confidence's level; its colour and its label each follow the 0.8 and 0.6 thresholds in both directions |
| Extraction.MockConfidenceIsHigh | src/components/did/ExtractionStep.tsx:82-95 | the mock record's 0.92 shows as HIGH |

## Left out

- `uploadMetadataToIPFS` and `createAndUploadDIDMetadata` (the Pinata upload): network I/O.
- The random token number of `generateDIDMetadata`: it is computed and never used.
- The current time and the captured frame's data URL are parameters; the camera, canvas drawing,
  `getUserMedia` and the native `FaceDetector` are outcomes supplied with each event.
- Real timers and React scheduling: each tick, timeout and action is one event applied in the
  order given; the 100 ms video attachment, the 1.5 s and 2 s delays and the cleanups on unmount
  are not modelled.
- The demo branch of `extractDataWithOpenAI` (`!useOpenAI`): the flag is initialised to true and
  never set, so the branch cannot run.
- Extraction.ProgressSequence: on the error path the progress interval is never cleared, so ticks
  may still arrive after the final 100; the model stops the trace at the OCR outcome.
- Extraction.SavedFields: `rawExtractionText` is saved from the component's `rawText` as the
  effect's closure saw it, which the model takes as a parameter; `setRawText` is not modelled.
- The exceptions of `performExtraction` are modelled as a throwing `updateDIDData` or
  `markStepAsCompleted` call, in the `try` and then again in the `catch`; other runtime
  exceptions are not. A rejection that escapes the `catch` ends the trace; what the runtime
  does with the unhandled rejection is not modelled. A throwing call is assumed to change
  nothing before it throws; the provider is not part of this model, and
  `Extraction.RunKeepsOtherFields` and the unchanged completion flag of
  `Extraction.RunCompletion` rest on that assumption.
- The confidence percentage (`Math.round(confidence * 100)`) and bar width.
- SkinDetection.FaceFoundIntegral: the ratio is exact; IEEE rounding of `skin / (len / 4)` is not
  modelled.
- ScoreDisplay.ScoreColor: scores are integers of magnitude below 1e21; fractional and NaN scores
  are not modelled.
- ScoreDisplay.VerificationStatus: the same integer scores; a fractional score's tier is not
  modelled.
- ScoreDisplay.Render: the same integer scores; the text of a fractional score such as 24.5 would
  not read back through the integer parser, and is not modelled.
- Metadata.ScoreText: the same integer scores; `NaN.toString()` ("NaN") and exponent notation
  from 1e21 up are not modelled.
- The verification-score computation and the DID context provider are not part of this model;
  `updateDIDData` is assumed to merge the supplied keys shallowly.
- Wallet connection, page routing, profile and welcome pages, footer and theme: presentation only.
