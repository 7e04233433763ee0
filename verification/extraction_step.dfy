/**
  The extraction step (`ExtractionStep`): one run of the `performExtraction`
  effect and the `extractDataWithOpenAI` call inside it.

  A run is the ordered trace of the observable things it does: phase and
  progress updates, data and error shown, the OCR call, context updates and
  the completion call. Delays do not appear; how many 300 ms progress ticks
  happen while the OCR call is pending, the OCR outcome, and whether a context
  call throws are parameters.
 */
module Extraction {
  import opened Values
  import opened DidContext

  datatype Phase = Preparing | Extracting | Processing | Complete

  datatype Effect =
    | SetPhase(phase: Phase)
    | SetProgress(percent: int)
    | ShowData(data: Option<IdInformation>)
    | SetError(message: string)
    | CallOcr(imageUrl: string)
    | UpdateContext(patch: Patch)
    | MarkCompleted(done: bool)

  /** What `performOcrWithGPT4o` did: resolved with `{extractedInfo, rawText}` (either may be
      missing), or threw an error whose `message` may be missing. */
  datatype OcrOutcome =
    | OcrSucceeded(extractedInfo: Option<IdInformation>, rawText: Option<string>)
    | OcrFailed(message: Option<string>)

  /** Which context call, if any, throws inside the outer `catch`. */
  datatype RecoveryFault = RecoveryOk | RecoveryUpdateThrows | RecoveryMarkThrows

  /** Which context call, if any, throws inside the outer `try`, and then what the `catch`
      meets. */
  datatype ContextFault = NoFault | UpdateThrows(recovery: RecoveryFault) | MarkThrows(recovery: RecoveryFault)

  /** A context call inside the outer `catch` throws as well: the effect's promise rejects and
      the rest of the `catch` never runs. */
  predicate Abandoned(fault: ContextFault) {
    !fault.NoFault? && !fault.recovery.RecoveryOk?
  }

  /** The record used when extraction fails. */
  const MockData := IdInformation(
    fullName := Some("John Doe"),
    dateOfBirth := Some("1990-01-01"),
    gender := Some("Male"),
    idNumber := Some("AB123456789"),
    metadata := Some(DocumentMeta(Some("National ID"), Some("United States"), Some("image/jpeg"), Some("Unknown"))),
    confidence := Some(0.92),
    rawText := Some(""))

  const MockFullName := "John Doe"
  const MockIdNumber := "AB123456789"
  const MockDateOfBirth := "1990-01-01"
  const MockDocumentType := "National ID"

  const NoImageMessage := "No image URL provided for extraction"
  const OcrFallbackMessage := "Failed to extract information from your ID"
  const RetryMessage := "Failed to extract information from your ID. Please try again."

  /** The progress interval publishes 5, 10, ... and stops itself after 90. */
  const MaxTicks := 18

  /** `metadata?.documentType`. */
  function DocumentTypeOf(info: IdInformation): Option<string> {
    if info.metadata.Some? then info.metadata.value.documentType else None
  }

  /** The updates published by the first `ticks` ticks of the progress interval. */
  function ProgressTicks(ticks: nat): (es: seq<Effect>)
    decreases ticks
  {
    if ticks > MaxTicks then ProgressTicks(MaxTicks)
    else if ticks == 0 then []
    else ProgressTicks(ticks - 1) + [SetProgress(5 * ticks)]
  }

  /** What `extractDataWithOpenAI` did and what it returned. */
  datatype Extracted = Extracted(effects: seq<Effect>, result: Option<IdInformation>)

  /** `extractDataWithOpenAI(imageUrl)`. Every error is caught: it shows the mock data, reports
      the message and returns `null`. */
  function ExtractDataWithOpenAI(imageUrl: string, ocr: OcrOutcome, ticks: nat): (r: Extracted)
    ensures |r.effects| > 0 && r.effects[|r.effects| - 1] == SetProgress(100)
    ensures r.result.Some? ==> imageUrl != "" && ocr.OcrSucceeded? && r.result == ocr.extractedInfo
    ensures imageUrl != "" && ocr.OcrSucceeded? ==> r.result == ocr.extractedInfo
  {
    if imageUrl == "" then
      Extracted([SetError(NoImageMessage), ShowData(Some(MockData)), SetProgress(100)], None)
    else
      var started := [SetPhase(Extracting), CallOcr(imageUrl)] + ProgressTicks(ticks);
      match ocr
      case OcrFailed(message) =>
        Extracted(started + [SetError(Or(message, OcrFallbackMessage)), ShowData(Some(MockData)), SetProgress(100)], None)
      case OcrSucceeded(info, _) =>
        Extracted(started + [ShowData(info), SetProgress(95), SetPhase(Processing), SetProgress(100)], info)
  }

  /** The update saved after extraction: each identity field from `data` when non-empty, else
      from the mock record. `rawText` is the component's `rawText` as the effect saw it. */
  function SavePatch(data: IdInformation, rawText: string): Patch {
    EmptyPatch.(
      extractedInfo := Put(true),
      fullName := Put(Some(Or(data.fullName, MockFullName))),
      documentNumber := Put(Some(Or(data.idNumber, MockIdNumber))),
      dateOfBirth := Put(Some(Or(data.dateOfBirth, MockDateOfBirth))),
      documentType := Put(Some(Or(DocumentTypeOf(data), MockDocumentType))),
      documentDetails := Put(Some(data)),
      rawExtractionText := Put(Some(rawText)))
  }

  /** The update saved by the outer `catch`: the mock record. */
  const FallbackPatch: Patch :=
    EmptyPatch.(
      extractedInfo := Put(true),
      fullName := Put(Some(MockFullName)),
      documentNumber := Put(Some(MockIdNumber)),
      dateOfBirth := Put(Some(MockDateOfBirth)),
      documentType := Put(Some(MockDocumentType)),
      documentDetails := Put(Some(MockData)))

  datatype RunResult = RunResult(effects: seq<Effect>, ctx: State)

  /** The outer `catch`: report, show the mock data and save it, then complete. A context call
      that throws here ends the run where it stands. */
  function Recover(effects: seq<Effect>, ctx: State, recovery: RecoveryFault): RunResult {
    var shown := effects + [SetError(RetryMessage), SetPhase(Complete), ShowData(Some(MockData))];
    match recovery
    case RecoveryOk =>
      RunResult(shown + [UpdateContext(FallbackPatch), MarkCompleted(true)],
                MarkStepAsCompleted(UpdateDidData(ctx, FallbackPatch), true))
    case RecoveryUpdateThrows =>
      RunResult(shown, ctx)
    case RecoveryMarkThrows =>
      RunResult(shown + [UpdateContext(FallbackPatch)], UpdateDidData(ctx, FallbackPatch))
  }

  /** One run of `performExtraction` over the context `ctx`. A throwing context call has no
      effect of its own. */
  function PerformExtraction(ctx: State, ocr: OcrOutcome, ticks: nat, fault: ContextFault,
                             rawText: string): (r: RunResult)
    ensures ctx.didData.extractedInfo ==> r.ctx == ctx
    ensures r.ctx.didVerificationScore == ctx.didVerificationScore
    ensures r.ctx.isStepCompleted ==> ctx.isStepCompleted || r.ctx.didData.extractedInfo
  {
    if ctx.didData.extractedInfo then
      RunResult(
        [SetPhase(Complete), ShowData(Some(ctx.didData.documentDetails.GetOr(MockData))), SetProgress(100)],
        ctx)
    else
      var x := ExtractDataWithOpenAI(Or(ctx.didData.ipfsUrl, ""), ocr, ticks);
      var patch := SavePatch(x.result.GetOr(MockData), rawText);
      var before := [SetPhase(Preparing)] + x.effects + [SetPhase(Complete)];
      match fault
      case NoFault =>
        RunResult(before + [UpdateContext(patch), MarkCompleted(true)],
                  MarkStepAsCompleted(UpdateDidData(ctx, patch), true))
      case UpdateThrows(recovery) =>
        Recover(before, ctx, recovery)
      case MarkThrows(recovery) =>
        Recover(before + [UpdateContext(patch)], UpdateDidData(ctx, patch), recovery)
  }

  // ---------------------------------------------------------------------
  // Views of a trace
  // ---------------------------------------------------------------------

  function PhaseOf(e: Effect): seq<Phase> {
    if e.SetPhase? then [e.phase] else []
  }

  function ProgressOf(e: Effect): seq<int> {
    if e.SetProgress? then [e.percent] else []
  }

  /** The phases a trace enters, in order. */
  function Phases(es: seq<Effect>): seq<Phase>
    decreases |es|
  {
    if es == [] then [] else PhaseOf(es[0]) + Phases(es[1..])
  }

  /** The progress values a trace publishes, in order. */
  function Progress(es: seq<Effect>): seq<int>
    decreases |es|
  {
    if es == [] then [] else ProgressOf(es[0]) + Progress(es[1..])
  }

  lemma ViewsCons(e: Effect, rest: seq<Effect>)
    ensures Phases([e] + rest) == PhaseOf(e) + Phases(rest)
    ensures Progress([e] + rest) == ProgressOf(e) + Progress(rest)
  {
    assert ([e] + rest)[1..] == rest;
  }

  lemma {:induction false} ViewsAppend(a: seq<Effect>, b: seq<Effect>)
    ensures Phases(a + b) == Phases(a) + Phases(b)
    ensures Progress(a + b) == Progress(a) + Progress(b)
    decreases |a|
  {
    if a == [] {
      assert a + b == b;
    } else {
      assert (a + b)[0] == a[0];
      assert (a + b)[1..] == a[1..] + b;
      ViewsAppend(a[1..], b);
      calc {
        Phases(a + b);
        PhaseOf(a[0]) + Phases(a[1..] + b);
        PhaseOf(a[0]) + (Phases(a[1..]) + Phases(b));
        (PhaseOf(a[0]) + Phases(a[1..])) + Phases(b);
      }
      calc {
        Progress(a + b);
        ProgressOf(a[0]) + Progress(a[1..] + b);
        ProgressOf(a[0]) + (Progress(a[1..]) + Progress(b));
        (ProgressOf(a[0]) + Progress(a[1..])) + Progress(b);
      }
    }
  }

  lemma Views2(e1: Effect, e2: Effect)
    ensures Phases([e1, e2]) == PhaseOf(e1) + PhaseOf(e2)
    ensures Progress([e1, e2]) == ProgressOf(e1) + ProgressOf(e2)
  {
    ViewsCons(e2, []);
    assert [e2] + [] == [e2];
    ViewsCons(e1, [e2]);
    assert [e1] + [e2] == [e1, e2];
  }

  lemma Views3(e1: Effect, e2: Effect, e3: Effect)
    ensures Phases([e1, e2, e3]) == PhaseOf(e1) + PhaseOf(e2) + PhaseOf(e3)
    ensures Progress([e1, e2, e3]) == ProgressOf(e1) + ProgressOf(e2) + ProgressOf(e3)
  {
    Views2(e2, e3);
    ViewsCons(e1, [e2, e3]);
    assert [e1] + [e2, e3] == [e1, e2, e3];
  }

  predicate StrictlyIncreasing(xs: seq<int>) {
    forall i, j :: 0 <= i < j < |xs| ==> xs[i] < xs[j]
  }

  /** The values the progress interval publishes in `ticks` ticks: 5, 10, ..., at most 90. */
  function TickValues(ticks: nat): seq<int> {
    var n := if ticks <= MaxTicks then ticks else MaxTicks;
    seq(n, i requires 0 <= i < n => 5 * (i + 1))
  }

  /** The interval's updates are exactly `TickValues` and enter no phase. */
  lemma {:induction false} ProgressTicksValues(ticks: nat)
    ensures Progress(ProgressTicks(ticks)) == TickValues(ticks)
    ensures Phases(ProgressTicks(ticks)) == []
    decreases ticks
  {
    if ticks > MaxTicks {
      ProgressTicksValues(MaxTicks);
      assert TickValues(ticks) == TickValues(MaxTicks);
    } else if ticks > 0 {
      var prefix := ProgressTicks(ticks - 1);
      var last := [SetProgress(5 * ticks)];
      ProgressTicksValues(ticks - 1);
      ViewsAppend(prefix, last);
      SingleProgress(5 * ticks);
      TickValuesStep(ticks);
    }
  }

  lemma SingleProgress(v: int)
    ensures Progress([SetProgress(v)]) == [v] && Phases([SetProgress(v)]) == []
  {
    ViewsCons(SetProgress(v), []);
    assert [SetProgress(v)] + [] == [SetProgress(v)];
  }

  lemma TickValuesStep(ticks: nat)
    requires 0 < ticks <= MaxTicks
    ensures TickValues(ticks) == TickValues(ticks - 1) + [5 * ticks]
  {
    var a := TickValues(ticks);
    var b := TickValues(ticks - 1) + [5 * ticks];
    assert |a| == ticks == |b|;
    forall i | 0 <= i < ticks
      ensures a[i] == b[i]
    {
      if i < ticks - 1 { assert b[i] == TickValues(ticks - 1)[i]; }
    }
  }

  /** Tick values are multiples of 5 in (0, 90], strictly increasing. */
  lemma TickValuesShape(ticks: nat)
    ensures var t := TickValues(ticks);
      && StrictlyIncreasing(t)
      && forall i :: 0 <= i < |t| ==> t[i] % 5 == 0 && 0 < t[i] <= 90
  {
  }

  // ---------------------------------------------------------------------
  // Properties of a run
  // ---------------------------------------------------------------------

  /** An effect that saves an extraction into the context. */
  predicate SavesExtraction(e: Effect) {
    e.UpdateContext? && e.patch.extractedInfo == Put(true)
  }

  /** An extraction already in the context short-circuits the run: it goes straight to the
      final phase at 100%, calls no OCR, updates nothing and does not call for completion. */
  lemma ShortCircuit(ctx: State, ocr: OcrOutcome, ticks: nat, fault: ContextFault, rawText: string)
    requires ctx.didData.extractedInfo
    ensures var r := PerformExtraction(ctx, ocr, ticks, fault, rawText);
      && r.ctx == ctx
      && Phases(r.effects) == [Complete]
      && Progress(r.effects) == [100]
      && forall i :: 0 <= i < |r.effects| ==>
           !r.effects[i].CallOcr? && !r.effects[i].UpdateContext? && !r.effects[i].MarkCompleted?
  {
    var r := PerformExtraction(ctx, ocr, ticks, fault, rawText);
    Views3(r.effects[0], r.effects[1], r.effects[2]);
  }

  /** The start of an extraction with an image URL: the Extracting phase, then the interval. */
  lemma StartedViews(imageUrl: string, ticks: nat)
    ensures var started := [SetPhase(Extracting), CallOcr(imageUrl)] + ProgressTicks(ticks);
      Phases(started) == [Extracting] && Progress(started) == TickValues(ticks)
  {
    Views2(SetPhase(Extracting), CallOcr(imageUrl));
    ProgressTicksValues(ticks);
    ViewsAppend([SetPhase(Extracting), CallOcr(imageUrl)], ProgressTicks(ticks));
  }

  /** The end of a failed extraction: no phase, progress 100. */
  lemma FailedViews(message: string)
    ensures var rest := [SetError(message), ShowData(Some(MockData)), SetProgress(100)];
      Phases(rest) == [] && Progress(rest) == [100]
  {
    Views3(SetError(message), ShowData(Some(MockData)), SetProgress(100));
  }

  /** The end of a successful extraction: 95, the Processing phase, then 100. */
  lemma SucceededViews(info: Option<IdInformation>)
    ensures var rest := [ShowData(info), SetProgress(95), SetPhase(Processing), SetProgress(100)];
      Phases(rest) == [Processing] && Progress(rest) == [95, 100]
  {
    var rest := [ShowData(info), SetProgress(95), SetPhase(Processing), SetProgress(100)];
    Views2(ShowData(info), SetProgress(95));
    Views2(SetPhase(Processing), SetProgress(100));
    ViewsAppend([ShowData(info), SetProgress(95)], [SetPhase(Processing), SetProgress(100)]);
    assert [ShowData(info), SetProgress(95)] + [SetPhase(Processing), SetProgress(100)] == rest;
  }

  lemma NoImageViews(ocr: OcrOutcome, ticks: nat)
    ensures var es := ExtractDataWithOpenAI("", ocr, ticks).effects;
      Phases(es) == [] && Progress(es) == [100]
  {
    FailedViews(NoImageMessage);
    assert ExtractDataWithOpenAI("", ocr, ticks).effects
        == [SetError(NoImageMessage), ShowData(Some(MockData)), SetProgress(100)];
  }

  lemma OcrFailedViews(imageUrl: string, message: Option<string>, ticks: nat)
    requires imageUrl != ""
    ensures var es := ExtractDataWithOpenAI(imageUrl, OcrFailed(message), ticks).effects;
      Phases(es) == [Extracting] && Progress(es) == TickValues(ticks) + [100]
  {
    var started := [SetPhase(Extracting), CallOcr(imageUrl)] + ProgressTicks(ticks);
    var m := Or(message, OcrFallbackMessage);
    var rest := [SetError(m), ShowData(Some(MockData)), SetProgress(100)];
    StartedViews(imageUrl, ticks);
    FailedViews(m);
    OcrFailedTrace(imageUrl, message, ticks);
    ViewsAppend(started, rest);
  }

  /** The trace of a failed OCR call: the started part, then the report and the mock. */
  lemma OcrFailedTrace(imageUrl: string, message: Option<string>, ticks: nat)
    requires imageUrl != ""
    ensures ExtractDataWithOpenAI(imageUrl, OcrFailed(message), ticks).effects ==
              ([SetPhase(Extracting), CallOcr(imageUrl)] + ProgressTicks(ticks))
              + [SetError(Or(message, OcrFallbackMessage)), ShowData(Some(MockData)), SetProgress(100)]
  {
  }

  lemma OcrSucceededViews(imageUrl: string, info: Option<IdInformation>, raw: Option<string>, ticks: nat)
    requires imageUrl != ""
    ensures var es := ExtractDataWithOpenAI(imageUrl, OcrSucceeded(info, raw), ticks).effects;
      Phases(es) == [Extracting, Processing] && Progress(es) == TickValues(ticks) + [95, 100]
  {
    var started := [SetPhase(Extracting), CallOcr(imageUrl)] + ProgressTicks(ticks);
    var rest := [ShowData(info), SetProgress(95), SetPhase(Processing), SetProgress(100)];
    StartedViews(imageUrl, ticks);
    SucceededViews(info);
    assert ExtractDataWithOpenAI(imageUrl, OcrSucceeded(info, raw), ticks).effects == started + rest;
    ViewsAppend(started, rest);
  }

  /** The phases and progress of `extractDataWithOpenAI` on each of its three paths. */
  lemma ExtractedViews(imageUrl: string, ocr: OcrOutcome, ticks: nat)
    ensures var es := ExtractDataWithOpenAI(imageUrl, ocr, ticks).effects;
      && (imageUrl == "" ==> Phases(es) == [] && Progress(es) == [100])
      && (imageUrl != "" && ocr.OcrFailed? ==>
            Phases(es) == [Extracting] && Progress(es) == TickValues(ticks) + [100])
      && (imageUrl != "" && ocr.OcrSucceeded? ==>
            Phases(es) == [Extracting, Processing] && Progress(es) == TickValues(ticks) + [95, 100])
  {
    if imageUrl == "" {
      NoImageViews(ocr, ticks);
    } else {
      match ocr
      case OcrFailed(message) => OcrFailedViews(imageUrl, message, ticks);
      case OcrSucceeded(info, raw) => OcrSucceededViews(imageUrl, info, raw, ticks);
    }
  }

  /** The trace of a run without an earlier extraction and without a context fault. */
  lemma NoFaultTrace(ctx: State, ocr: OcrOutcome, ticks: nat, rawText: string)
    requires !ctx.didData.extractedInfo
    ensures var x := ExtractDataWithOpenAI(Or(ctx.didData.ipfsUrl, ""), ocr, ticks);
      PerformExtraction(ctx, ocr, ticks, NoFault, rawText).effects ==
        [SetPhase(Preparing)] + x.effects
        + [SetPhase(Complete), UpdateContext(SavePatch(x.result.GetOr(MockData), rawText)), MarkCompleted(true)]
  {
  }

  /** A run without a context fault: the extraction's trace between Preparing and Complete,
      then the update and the completion call. */
  lemma RunViews(ctx: State, ocr: OcrOutcome, ticks: nat, rawText: string)
    requires !ctx.didData.extractedInfo
    ensures var es := PerformExtraction(ctx, ocr, ticks, NoFault, rawText).effects;
      var x := ExtractDataWithOpenAI(Or(ctx.didData.ipfsUrl, ""), ocr, ticks).effects;
      && Phases(es) == [Preparing] + Phases(x) + [Complete]
      && Progress(es) == Progress(x)
  {
    var x := ExtractDataWithOpenAI(Or(ctx.didData.ipfsUrl, ""), ocr, ticks);
    var patch := SavePatch(x.result.GetOr(MockData), rawText);
    var tail := [SetPhase(Complete), UpdateContext(patch), MarkCompleted(true)];
    Views3(tail[0], tail[1], tail[2]);
    ViewsCons(SetPhase(Preparing), x.effects);
    ViewsAppend([SetPhase(Preparing)] + x.effects, tail);
    NoFaultTrace(ctx, ocr, ticks, rawText);
  }

  /** The phases of a run without an earlier extraction and without a context fault: all four
      on success; Processing skipped when the OCR call fails; Extracting skipped as well when
      there is no image URL. */
  lemma PhaseSequence(ctx: State, ocr: OcrOutcome, ticks: nat, rawText: string)
    requires !ctx.didData.extractedInfo
    ensures var p := Phases(PerformExtraction(ctx, ocr, ticks, NoFault, rawText).effects);
      && (!Truthy(ctx.didData.ipfsUrl) ==> p == [Preparing, Complete])
      && (Truthy(ctx.didData.ipfsUrl) && ocr.OcrFailed? ==> p == [Preparing, Extracting, Complete])
      && (Truthy(ctx.didData.ipfsUrl) && ocr.OcrSucceeded? ==>
            p == [Preparing, Extracting, Processing, Complete])
  {
    var url := Or(ctx.didData.ipfsUrl, "");
    RunViews(ctx, ocr, ticks, rawText);
    ExtractedViews(url, ocr, ticks);
    Bracketed(Phases(ExtractDataWithOpenAI(url, ocr, ticks).effects));
  }

  /** The extraction's phases between Preparing and Complete, for each of its three outcomes. */
  lemma Bracketed(px: seq<Phase>)
    ensures px == [] ==> [Preparing] + px + [Complete] == [Preparing, Complete]
    ensures px == [Extracting] ==> [Preparing] + px + [Complete] == [Preparing, Extracting, Complete]
    ensures px == [Extracting, Processing] ==>
              [Preparing] + px + [Complete] == [Preparing, Extracting, Processing, Complete]
  {
  }

  /** The published progress values strictly increase and end at 100, and every value below 95
      is one of the interval's multiples of 5 up to 90. */
  predicate ProgressShape(p: seq<int>) {
    && StrictlyIncreasing(p) && |p| > 0 && p[|p| - 1] == 100
    && forall i :: 0 <= i < |p| && p[i] < 95 ==> p[i] % 5 == 0 && 0 < p[i] <= 90
  }

  /** The interval's ticks followed by the final values of either path have that shape. */
  lemma TicksThenFinal(ticks: nat, tail: seq<int>)
    requires tail == [100] || tail == [95, 100]
    ensures ProgressShape(TickValues(ticks) + tail)
  {
    var t := TickValues(ticks);
    var p := t + tail;
    TickValuesShape(ticks);
    assert forall i :: 0 <= i < |t| ==> p[i] == t[i] && p[i] <= 90;
    assert forall i :: |t| <= i < |p| ==> p[i] == tail[i - |t|] && p[i] >= 95;
  }

  /** Published progress in a run without an earlier extraction and without a context fault:
      strictly increasing and ending at 100. Before the end only the interval's multiples of 5
      up to 90 appear, and a successful OCR call adds 95 right before 100. */
  lemma ProgressSequence(ctx: State, ocr: OcrOutcome, ticks: nat, rawText: string)
    requires !ctx.didData.extractedInfo
    ensures var p := Progress(PerformExtraction(ctx, ocr, ticks, NoFault, rawText).effects);
      && ProgressShape(p)
      && (!Truthy(ctx.didData.ipfsUrl) ==> p == [100])
      && (Truthy(ctx.didData.ipfsUrl) && ocr.OcrSucceeded? ==> |p| >= 2 && p[|p| - 2] == 95)
  {
    var url := Or(ctx.didData.ipfsUrl, "");
    var x := ExtractDataWithOpenAI(url, ocr, ticks).effects;
    RunViews(ctx, ocr, ticks, rawText);
    ExtractedViews(url, ocr, ticks);
    var p := Phases(PerformExtraction(ctx, ocr, ticks, NoFault, rawText).effects);
    assert p == [Preparing] + Phases(x) + [Complete];
    if url == "" {
      assert ProgressShape([100]);
    } else if ocr.OcrFailed? {
      TicksThenFinal(ticks, [100]);
    } else {
      TicksThenFinal(ticks, [95, 100]);
    }
  }

  /** `extractDataWithOpenAI` neither updates the context nor calls for completion. */
  lemma ExtractedHasNoContextCall(imageUrl: string, ocr: OcrOutcome, ticks: nat)
    ensures var es := ExtractDataWithOpenAI(imageUrl, ocr, ticks).effects;
      forall i :: 0 <= i < |es| ==> !es[i].UpdateContext? && !es[i].MarkCompleted?
  {
    ProgressTicksOnlyProgress(ticks);
  }

  lemma {:induction false} ProgressTicksOnlyProgress(ticks: nat)
    ensures forall i :: 0 <= i < |ProgressTicks(ticks)| ==> ProgressTicks(ticks)[i].SetProgress?
    decreases ticks
  {
    if ticks > MaxTicks {
      ProgressTicksOnlyProgress(MaxTicks);
    } else if ticks > 0 {
      ProgressTicksOnlyProgress(ticks - 1);
    }
  }

  /** Everything before the final context calls: the extraction's trace between the first and
      the last phase. It calls for no completion. */
  lemma PrefixHasNoCompletion(imageUrl: string, ocr: OcrOutcome, ticks: nat)
    ensures var before := [SetPhase(Preparing)] + ExtractDataWithOpenAI(imageUrl, ocr, ticks).effects
                          + [SetPhase(Complete)];
      forall i :: 0 <= i < |before| ==> !before[i].MarkCompleted?
  {
    var x := ExtractDataWithOpenAI(imageUrl, ocr, ticks).effects;
    var before := [SetPhase(Preparing)] + x + [SetPhase(Complete)];
    ExtractedHasNoContextCall(imageUrl, ocr, ticks);
    forall i | 0 <= i < |before|
      ensures !before[i].MarkCompleted?
    {
      if 0 < i < |before| - 1 { assert before[i] == x[i - 1]; }
    }
  }

  /** A trace whose only completion call is its last effect, right after a save. */
  predicate CompletesAfterSave(es: seq<Effect>) {
    && |es| >= 2 && es[|es| - 1] == MarkCompleted(true) && SavesExtraction(es[|es| - 2])
    && forall j :: 0 <= j < |es| - 1 ==> !es[j].MarkCompleted?
  }

  lemma CompletesAfterSaveAppend(before: seq<Effect>, tail: seq<Effect>)
    requires forall i :: 0 <= i < |before| ==> !before[i].MarkCompleted?
    requires CompletesAfterSave(tail)
    ensures CompletesAfterSave(before + tail)
  {
    var es := before + tail;
    forall j | 0 <= j < |es| - 1
      ensures !es[j].MarkCompleted?
    {
      if j < |before| { assert es[j] == before[j]; } else { assert es[j] == tail[j - |before|]; }
    }
  }

  /** A trace that never calls for completion. */
  predicate NoCompletion(es: seq<Effect>) {
    forall j :: 0 <= j < |es| ==> !es[j].MarkCompleted?
  }

  lemma NoCompletionAppend(before: seq<Effect>, tail: seq<Effect>)
    requires NoCompletion(before) && NoCompletion(tail)
    ensures NoCompletion(before + tail)
  {
    var es := before + tail;
    forall j | 0 <= j < |es|
      ensures !es[j].MarkCompleted?
    {
      if j < |before| { assert es[j] == before[j]; } else { assert es[j] == tail[j - |before|]; }
    }
  }

  /** The trace of every run without an earlier extraction, unless the `catch` fails as well,
      completes right after a save. */
  lemma RunTraceCompletes(ctx: State, ocr: OcrOutcome, ticks: nat, fault: ContextFault, rawText: string)
    requires !ctx.didData.extractedInfo && !Abandoned(fault)
    ensures CompletesAfterSave(PerformExtraction(ctx, ocr, ticks, fault, rawText).effects)
  {
    var r := PerformExtraction(ctx, ocr, ticks, fault, rawText);
    var url := Or(ctx.didData.ipfsUrl, "");
    var x := ExtractDataWithOpenAI(url, ocr, ticks);
    var patch := SavePatch(x.result.GetOr(MockData), rawText);
    var before := [SetPhase(Preparing)] + x.effects + [SetPhase(Complete)];
    PrefixHasNoCompletion(url, ocr, ticks);
    var recovery := [SetError(RetryMessage), SetPhase(Complete), ShowData(Some(MockData)),
                     UpdateContext(FallbackPatch), MarkCompleted(true)];
    match fault
    case NoFault =>
      assert r.effects == before + [UpdateContext(patch), MarkCompleted(true)];
      CompletesAfterSaveAppend(before, [UpdateContext(patch), MarkCompleted(true)]);
    case UpdateThrows(_) =>
      assert r.effects == before + recovery;
      CompletesAfterSaveAppend(before, recovery);
    case MarkThrows(_) =>
      var saved := before + [UpdateContext(patch)];
      NoCompletionAppend(before, [UpdateContext(patch)]);
      assert r.effects == saved + recovery;
      CompletesAfterSaveAppend(saved, recovery);
  }

  /** When a context call in the `catch` throws too, the trace stops short of completion and
      the completion flag is as it was: the failed call changed nothing, and a save that did
      go through touches only the record. */
  lemma RunTraceAbandoned(ctx: State, ocr: OcrOutcome, ticks: nat, fault: ContextFault, rawText: string)
    requires Abandoned(fault)
    ensures var r := PerformExtraction(ctx, ocr, ticks, fault, rawText);
      NoCompletion(r.effects) && r.ctx.isStepCompleted == ctx.isStepCompleted
  {
    var r := PerformExtraction(ctx, ocr, ticks, fault, rawText);
    if !ctx.didData.extractedInfo {
      var url := Or(ctx.didData.ipfsUrl, "");
      var x := ExtractDataWithOpenAI(url, ocr, ticks);
      var patch := SavePatch(x.result.GetOr(MockData), rawText);
      var before := [SetPhase(Preparing)] + x.effects + [SetPhase(Complete)];
      PrefixHasNoCompletion(url, ocr, ticks);
      var shown := [SetError(RetryMessage), SetPhase(Complete), ShowData(Some(MockData))];
      var tail := if fault.recovery.RecoveryMarkThrows? then shown + [UpdateContext(FallbackPatch)] else shown;
      assert NoCompletion(tail) by {
        forall k | 0 <= k < |tail| ensures !tail[k].MarkCompleted? {
          if k < |shown| { assert tail[k] == shown[k]; }
        }
      }
      if fault.UpdateThrows? {
        assert r.effects == before + tail;
        NoCompletionAppend(before, tail);
      } else {
        var saved := before + [UpdateContext(patch)];
        NoCompletionAppend(before, [UpdateContext(patch)]);
        assert r.effects == saved + tail;
        NoCompletionAppend(saved, tail);
      }
    }
  }

  /** The context after every run without an earlier extraction, unless the `catch` fails as
      well: completed, with an extraction and non-empty identity fields. */
  lemma RunStateCompletes(ctx: State, ocr: OcrOutcome, ticks: nat, fault: ContextFault, rawText: string)
    requires !ctx.didData.extractedInfo && !Abandoned(fault)
    ensures var c := PerformExtraction(ctx, ocr, ticks, fault, rawText).ctx;
      && c.isStepCompleted && c.didData.extractedInfo
      && Truthy(c.didData.fullName) && Truthy(c.didData.documentNumber)
      && Truthy(c.didData.dateOfBirth) && Truthy(c.didData.documentType)
  {
  }

  /** How a run without an earlier extraction ends, for every OCR outcome and every throwing
      context call. An extraction is saved before every completion call. Unless a context call
      in the `catch` throws as well, the run ends by calling for completion and leaves a
      completed step whose four identity fields are non-empty; if one does, the run never calls
      for completion and the completion flag is as it was. */
  lemma RunCompletion(ctx: State, ocr: OcrOutcome, ticks: nat, fault: ContextFault, rawText: string)
    requires !ctx.didData.extractedInfo
    ensures var r := PerformExtraction(ctx, ocr, ticks, fault, rawText);
      && (forall j :: 0 <= j < |r.effects| && r.effects[j].MarkCompleted? ==>
            exists i :: 0 <= i < j && SavesExtraction(r.effects[i]))
      && (!Abandoned(fault) ==>
            && |r.effects| > 0 && r.effects[|r.effects| - 1] == MarkCompleted(true)
            && r.ctx.isStepCompleted && r.ctx.didData.extractedInfo
            && Truthy(r.ctx.didData.fullName) && Truthy(r.ctx.didData.documentNumber)
            && Truthy(r.ctx.didData.dateOfBirth) && Truthy(r.ctx.didData.documentType))
      && (Abandoned(fault) ==>
            && (forall j :: 0 <= j < |r.effects| ==> !r.effects[j].MarkCompleted?)
            && r.ctx.isStepCompleted == ctx.isStepCompleted)
  {
    var es := PerformExtraction(ctx, ocr, ticks, fault, rawText).effects;
    if Abandoned(fault) {
      RunTraceAbandoned(ctx, ocr, ticks, fault, rawText);
    } else {
      RunTraceCompletes(ctx, ocr, ticks, fault, rawText);
      RunStateCompletes(ctx, ocr, ticks, fault, rawText);
      var n := |es|;
      forall j | 0 <= j < n && es[j].MarkCompleted?
        ensures exists i :: 0 <= i < j && SavesExtraction(es[i])
      {
        assert SavesExtraction(es[n - 2]);
      }
    }
  }

  /** Where the saved fields come from when nothing throws: a returned record's non-empty fields,
      else the mock record's. A failed OCR call, or a missing image URL, saves the mock. */
  lemma SavedFields(ctx: State, ocr: OcrOutcome, ticks: nat, rawText: string)
    requires !ctx.didData.extractedInfo
    ensures var d := PerformExtraction(ctx, ocr, ticks, NoFault, rawText).ctx.didData;
      var saved := if Truthy(ctx.didData.ipfsUrl) && ocr.OcrSucceeded? && ocr.extractedInfo.Some?
                   then ocr.extractedInfo.value else MockData;
      && d.fullName == Some(Or(saved.fullName, MockFullName))
      && d.documentNumber == Some(Or(saved.idNumber, MockIdNumber))
      && d.dateOfBirth == Some(Or(saved.dateOfBirth, MockDateOfBirth))
      && d.documentType == Some(Or(DocumentTypeOf(saved), MockDocumentType))
      && d.documentDetails == Some(saved)
    ensures var d := PerformExtraction(ctx, ocr, ticks, NoFault, rawText).ctx.didData;
      !(Truthy(ctx.didData.ipfsUrl) && ocr.OcrSucceeded?) ==>
        d.fullName == Some(MockFullName) && d.documentNumber == Some(MockIdNumber)
  {
  }

  /** An OCR failure is reported after the call that failed: its message (or the default) is
      shown, and the run still saves and completes. A missing image URL is reported without
      calling the OCR. */
  lemma FailuresAreReported(ctx: State, ocr: OcrOutcome, ticks: nat, rawText: string)
    requires !ctx.didData.extractedInfo
    ensures var es := PerformExtraction(ctx, ocr, ticks, NoFault, rawText).effects;
      && (!Truthy(ctx.didData.ipfsUrl) ==>
            SetError(NoImageMessage) in es && forall i :: 0 <= i < |es| ==> !es[i].CallOcr?)
      && (Truthy(ctx.didData.ipfsUrl) && ocr.OcrFailed? ==>
            && (exists i, j :: 0 <= i < j < |es| && es[i] == CallOcr(ctx.didData.ipfsUrl.value)
                                && es[j] == SetError(Or(ocr.message, OcrFallbackMessage)))
            && es[|es| - 1] == MarkCompleted(true))
  {
    var url := Or(ctx.didData.ipfsUrl, "");
    var es := PerformExtraction(ctx, ocr, ticks, NoFault, rawText).effects;
    if url != "" && ocr.OcrFailed? {
      var x := ExtractDataWithOpenAI(url, ocr, ticks);
      assert x.effects[1] == CallOcr(url);
      assert es[2] == CallOcr(url);
      assert x.effects[|x.effects| - 3] == SetError(Or(ocr.message, OcrFallbackMessage));
      assert es[|x.effects| - 2] == SetError(Or(ocr.message, OcrFallbackMessage));
      RunTraceCompletes(ctx, ocr, ticks, NoFault, rawText);
    }
  }

  /** The whole record after a run without a context fault: the extraction keys are written
      from the result (or the mock) and every other field is kept. */
  lemma SavedRecord(ctx: State, ocr: OcrOutcome, ticks: nat, rawText: string)
    requires !ctx.didData.extractedInfo
    ensures var data := ExtractDataWithOpenAI(Or(ctx.didData.ipfsUrl, ""), ocr, ticks).result.GetOr(MockData);
      PerformExtraction(ctx, ocr, ticks, NoFault, rawText).ctx.didData ==
        ctx.didData.(extractedInfo := true,
                     fullName := Some(Or(data.fullName, MockFullName)),
                     documentNumber := Some(Or(data.idNumber, MockIdNumber)),
                     dateOfBirth := Some(Or(data.dateOfBirth, MockDateOfBirth)),
                     documentType := Some(Or(DocumentTypeOf(data), MockDocumentType)),
                     documentDetails := Some(data),
                     rawExtractionText := Some(rawText))
  {
  }

  /** The whole record after the outer `catch`: the mock record is saved over the extraction
      keys and everything else, the raw text included, is kept; a throwing save keeps it all. */
  lemma RecoverRecord(effects: seq<Effect>, ctx: State, recovery: RecoveryFault)
    ensures var d := Recover(effects, ctx, recovery).ctx.didData;
      d == if recovery.RecoveryUpdateThrows? then ctx.didData
           else ctx.didData.(extractedInfo := true,
                             fullName := Some(MockFullName),
                             documentNumber := Some(MockIdNumber),
                             dateOfBirth := Some(MockDateOfBirth),
                             documentType := Some(MockDocumentType),
                             documentDetails := Some(MockData))
  {
  }

  /** What the outer `catch` does when it runs to the end: it reports the retry message, shows
      the mock record and saves it, overwriting a save of real OCR data that went through, and
      completes the step. The raw text is the one saved before the failure, if any. */
  lemma CatchSavesMock(ctx: State, ocr: OcrOutcome, ticks: nat, fault: ContextFault, rawText: string)
    requires !ctx.didData.extractedInfo && !fault.NoFault? && !Abandoned(fault)
    ensures var r := PerformExtraction(ctx, ocr, ticks, fault, rawText);
      var d := r.ctx.didData;
      && |r.effects| >= 5
      && r.effects[|r.effects| - 5..] ==
           [SetError(RetryMessage), SetPhase(Complete), ShowData(Some(MockData)),
            UpdateContext(FallbackPatch), MarkCompleted(true)]
      && d.extractedInfo && r.ctx.isStepCompleted
      && d.fullName == Some(MockFullName) && d.documentNumber == Some(MockIdNumber)
      && d.dateOfBirth == Some(MockDateOfBirth) && d.documentType == Some(MockDocumentType)
      && d.documentDetails == Some(MockData)
      && d.rawExtractionText == (if fault.UpdateThrows? then ctx.didData.rawExtractionText else Some(rawText))
  {
    var url := Or(ctx.didData.ipfsUrl, "");
    var x := ExtractDataWithOpenAI(url, ocr, ticks);
    var patch := SavePatch(x.result.GetOr(MockData), rawText);
    var before := [SetPhase(Preparing)] + x.effects + [SetPhase(Complete)];
    var tail := [SetError(RetryMessage), SetPhase(Complete), ShowData(Some(MockData)),
                 UpdateContext(FallbackPatch), MarkCompleted(true)];
    var prefix := if fault.UpdateThrows? then before else before + [UpdateContext(patch)];
    var saved := if fault.UpdateThrows? then ctx else UpdateDidData(ctx, patch);
    assert PerformExtraction(ctx, ocr, ticks, fault, rawText) == Recover(prefix, saved, fault.recovery);
    RecoverRecord(prefix, saved, fault.recovery);
    assert (prefix + tail)[|prefix + tail| - 5..] == tail;
  }

  /** A run touches only the extraction keys of the record: the liveness fields, the images,
      the identity fields the OCR does not supply, the score and the demo data are kept. */
  lemma RunKeepsOtherFields(ctx: State, ocr: OcrOutcome, ticks: nat, fault: ContextFault, rawText: string)
    ensures var d := PerformExtraction(ctx, ocr, ticks, fault, rawText).ctx.didData;
      && d.livenessImage == ctx.didData.livenessImage
      && d.livenessVerified == ctx.didData.livenessVerified
      && d.livenessTimestamp == ctx.didData.livenessTimestamp
      && d.ipfsUrl == ctx.didData.ipfsUrl
      && d.didVerificationScore == ctx.didData.didVerificationScore
      && d.demoData == ctx.didData.demoData
      && d.gender == ctx.didData.gender
      && d.issuingCountry == ctx.didData.issuingCountry
      && d.verificationTimestamp == ctx.didData.verificationTimestamp
  {
    if !ctx.didData.extractedInfo {
      var url := Or(ctx.didData.ipfsUrl, "");
      var x := ExtractDataWithOpenAI(url, ocr, ticks);
      var patch := SavePatch(x.result.GetOr(MockData), rawText);
      var before := [SetPhase(Preparing)] + x.effects + [SetPhase(Complete)];
      match fault
      case NoFault =>
        SavedRecord(ctx, ocr, ticks, rawText);
      case UpdateThrows(recovery) =>
        RecoverRecord(before, ctx, recovery);
      case MarkThrows(recovery) =>
        RecoverRecord(before + [UpdateContext(patch)], UpdateDidData(ctx, patch), recovery);
    }
  }

  // ---------------------------------------------------------------------
  // Confidence badge
  // ---------------------------------------------------------------------

  datatype Confidence = High | Medium | Low {
    function Label(): string {
      match this
      case High => "HIGH"
      case Medium => "MEDIUM"
      case Low => "LOW"
    }

    function Color(): string {
      match this
      case High => "#059669"
      case Medium => "#d97706"
      case Low => "#dc2626"
    }

    function Rank(): nat {
      match this
      case Low => 0
      case Medium => 1
      case High => 2
    }
  }

  /** The confidence tier: above 0.8 high, above 0.6 medium, otherwise low. */
  function ConfidenceLevel(c: real): (l: Confidence)
    ensures l == High <==> c > 0.8
    ensures l == Medium <==> 0.6 < c <= 0.8
    ensures l == Low <==> c <= 0.6
  {
    if c > 0.8 then High else if c > 0.6 then Medium else Low
  }

  /** The tier never drops as confidence rises. */
  lemma ConfidenceMonotone(a: real, b: real)
    requires a <= b
    ensures ConfidenceLevel(a).Rank() <= ConfidenceLevel(b).Rank()
  {
  }

  /** The badge is shown only for data with a truthy (present, non-zero) confidence; its colour
      and its label each follow the same two thresholds. */
  function ConfidenceBadge(data: Option<IdInformation>): (b: Option<Confidence>)
    ensures b.Some? <==> data.Some? && data.value.confidence.Some? && data.value.confidence.value != 0.0
    ensures b.Some? ==> b.value == ConfidenceLevel(data.value.confidence.value)
    ensures b.Some? ==> var c := data.value.confidence.value;
      && (b.value.Color() == "#059669" <==> c > 0.8)
      && (b.value.Color() == "#d97706" <==> 0.6 < c <= 0.8)
      && (b.value.Color() == "#dc2626" <==> c <= 0.6)
    ensures b.Some? ==> var c := data.value.confidence.value;
      && (b.value.Label() == "HIGH" <==> c > 0.8)
      && (b.value.Label() == "MEDIUM" <==> 0.6 < c <= 0.8)
      && (b.value.Label() == "LOW" <==> c <= 0.6)
  {
    if data.Some? && data.value.confidence.Some? && data.value.confidence.value != 0.0 then
      Some(ConfidenceLevel(data.value.confidence.value))
    else None
  }

  /** The mock record's 0.92 shows as HIGH. */
  lemma MockConfidenceIsHigh()
    ensures ConfidenceBadge(Some(MockData)) == Some(High)
  {
  }
}
