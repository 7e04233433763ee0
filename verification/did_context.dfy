/**
  The shared DID context that every step reads and updates.

  The context provider (`useDIDContext`, `updateDIDData`, `markStepAsCompleted`)
  is not part of this model; what the steps rely on is stated here as an
  ASSUMPTION: the identity record is a record of optional fields, and
  `updateDIDData(partial)` is a shallow merge in which every key present in
  `partial` overwrites (possibly with `null`) and every other field keeps its
  value. `Merge` below is that assumption written out, not a verified fact
  about the provider.
 */
module DidContext {
  import opened Values

  /** Demo-mode identity (`didData.demoData`); its fields are plain strings. */
  datatype DemoData = DemoData(
    firstName: string,
    lastName: string,
    dateOfBirth: string,
    nationality: string,
    documentType: string,
    documentNumber: string)

  /** `metadata` of an extraction result. */
  datatype DocumentMeta = DocumentMeta(
    documentType: Option<string>,
    issuingCountry: Option<string>,
    fileType: Option<string>,
    fileSize: Option<string>)

  /** The OCR capability's `IDInformation` record; every field may be missing or empty. */
  datatype IdInformation = IdInformation(
    fullName: Option<string>,
    dateOfBirth: Option<string>,
    gender: Option<string>,
    idNumber: Option<string>,
    metadata: Option<DocumentMeta>,
    confidence: Option<real>,
    rawText: Option<string>)

  /** The identity record (`state.didData`). `extractedInfo` and `livenessVerified` are only
      ever read for truthiness, so an absent value is `false`. */
  datatype DidData = DidData(
    fullName: Option<string>,
    documentNumber: Option<string>,
    documentType: Option<string>,
    dateOfBirth: Option<string>,
    gender: Option<string>,
    issuingCountry: Option<string>,
    verificationTimestamp: Option<string>,
    ipfsUrl: Option<string>,
    livenessImage: Option<string>,
    livenessVerified: bool,
    livenessTimestamp: Option<string>,
    didVerificationScore: Option<int>,
    demoData: Option<DemoData>,
    extractedInfo: bool,
    documentDetails: Option<IdInformation>,
    rawExtractionText: Option<string>)

  /** The context state: the record, the active step's completion flag and the score the
      score display reads (`state.didVerificationScore`). */
  datatype State = State(didData: DidData, isStepCompleted: bool, didVerificationScore: int)

  /** One key of a partial update: absent from the object, or present with a value. */
  datatype Field<+T> = Keep | Put(v: T)

  function Apply<T>(f: Field<T>, old_: T): T {
    match f
    case Keep => old_
    case Put(v) => v
  }

  /** The argument of `updateDIDData`: a `Partial<DidData>`. */
  datatype Patch = Patch(
    fullName: Field<Option<string>>,
    documentNumber: Field<Option<string>>,
    documentType: Field<Option<string>>,
    dateOfBirth: Field<Option<string>>,
    gender: Field<Option<string>>,
    issuingCountry: Field<Option<string>>,
    verificationTimestamp: Field<Option<string>>,
    ipfsUrl: Field<Option<string>>,
    livenessImage: Field<Option<string>>,
    livenessVerified: Field<bool>,
    livenessTimestamp: Field<Option<string>>,
    didVerificationScore: Field<Option<int>>,
    demoData: Field<Option<DemoData>>,
    extractedInfo: Field<bool>,
    documentDetails: Field<Option<IdInformation>>,
    rawExtractionText: Field<Option<string>>)

  /** The empty object `{}`: a patch that provides no key. */
  const EmptyPatch := Patch(Keep, Keep, Keep, Keep, Keep, Keep, Keep, Keep,
                            Keep, Keep, Keep, Keep, Keep, Keep, Keep, Keep)

  /** The record with every field absent. */
  const EmptyData := DidData(None, None, None, None, None, None, None, None,
                             None, false, None, None, None, false, None, None)

  /** True when `p` provides only the liveness keys. */
  predicate OnlyLivenessKeys(p: Patch) {
    p == EmptyPatch.(livenessImage := p.livenessImage,
                     livenessVerified := p.livenessVerified,
                     livenessTimestamp := p.livenessTimestamp)
  }

  /** Assumed shallow-merge semantics of `updateDIDData`. */
  function Merge(d: DidData, p: Patch): DidData {
    DidData(
      Apply(p.fullName, d.fullName),
      Apply(p.documentNumber, d.documentNumber),
      Apply(p.documentType, d.documentType),
      Apply(p.dateOfBirth, d.dateOfBirth),
      Apply(p.gender, d.gender),
      Apply(p.issuingCountry, d.issuingCountry),
      Apply(p.verificationTimestamp, d.verificationTimestamp),
      Apply(p.ipfsUrl, d.ipfsUrl),
      Apply(p.livenessImage, d.livenessImage),
      Apply(p.livenessVerified, d.livenessVerified),
      Apply(p.livenessTimestamp, d.livenessTimestamp),
      Apply(p.didVerificationScore, d.didVerificationScore),
      Apply(p.demoData, d.demoData),
      Apply(p.extractedInfo, d.extractedInfo),
      Apply(p.documentDetails, d.documentDetails),
      Apply(p.rawExtractionText, d.rawExtractionText))
  }

  /** `updateDIDData(p)` on the context state: only the record changes. */
  function UpdateDidData(s: State, p: Patch): (r: State)
    ensures r.isStepCompleted == s.isStepCompleted
    ensures r.didVerificationScore == s.didVerificationScore
  {
    s.(didData := Merge(s.didData, p))
  }

  /** `markStepAsCompleted(b)`: only the completion flag changes. */
  function MarkStepAsCompleted(s: State, b: bool): (r: State)
    ensures r.isStepCompleted == b
    ensures r.didData == s.didData && r.didVerificationScore == s.didVerificationScore
  {
    s.(isStepCompleted := b)
  }

  /** A patch restricted to the liveness keys leaves every other field as it was. */
  lemma MergeLivenessOnly(d: DidData, p: Patch)
    requires OnlyLivenessKeys(p)
    ensures var r := Merge(d, p);
      r == d.(livenessImage := r.livenessImage,
              livenessVerified := r.livenessVerified,
              livenessTimestamp := r.livenessTimestamp)
  {
  }
}
