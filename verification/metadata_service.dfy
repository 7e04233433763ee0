/**
  Assembly of the DID NFT metadata document (`generateDIDMetadata`).

  The document is `{name, description, image, attributes}` where `attributes`
  is a fixed, ordered list of twelve `{trait_type, value}` pairs. The current
  time (`new Date().toISOString()`) is a parameter; the unused random token
  number is not modelled.
 */
module Metadata {
  import opened Values
  import opened DidContext

  datatype Attribute = Attribute(traitType: string, value: string)

  datatype DidMetadata = DidMetadata(
    name: string,
    description: string,
    image: string,
    attributes: seq<Attribute>)

  /** Asset shown when neither a selfie nor a document image was uploaded. */
  const PlaceholderImage: string :=
    "https://green-manual-tapir-637.mypinata.cloud/ipfs/bafybeiamhz7xwe7kjvurvtc7d4t3pscyttowfqkkcjrdfsulcn56bdrgke/image.png"

  /** The attribute order downstream indexers rely on. */
  const TraitOrder: seq<string> := [
    "document_type", "document_number", "full_name", "date_of_birth",
    "gender", "nationality", "verification_score", "verification_timestamp",
    "verification_type", "liveness_verified", "document_image_url", "liveness_image_url"]

  // Positions of the attributes in `TraitOrder`.
  const DocumentTypeAt := 0
  const DocumentNumberAt := 1
  const FullNameAt := 2
  const DateOfBirthAt := 3
  const GenderAt := 4
  const NationalityAt := 5
  const ScoreAt := 6
  const TimestampAt := 7
  const VerificationTypeAt := 8
  const LivenessVerifiedAt := 9
  const DocumentImageAt := 10
  const LivenessImageAt := 11

  function Traits(attrs: seq<Attribute>): seq<string> {
    seq(|attrs|, i requires 0 <= i < |attrs| => attrs[i].traitType)
  }

  /** The `name` binding: demo first and last name, or the verified full name. */
  function NameOf(d: DidData, isDemoMode: bool): string {
    if isDemoMode then
      Show(if d.demoData.Some? then Some(d.demoData.value.firstName) else None) + " " +
      Show(if d.demoData.Some? then Some(d.demoData.value.lastName) else None)
    else Or(d.fullName, "Unknown User")
  }

  /** A demo-mode binding `didData.demoData?.<field>`, or the verified field `|| fallback`. */
  function Pick(d: DidData, isDemoMode: bool, demo: DemoData -> string,
                verified: Option<string>, fallback: string): Option<string> {
    if isDemoMode then (if d.demoData.Some? then Some(demo(d.demoData.value)) else None)
    else Some(Or(verified, fallback))
  }

  /** `generateDIDMetadata(didData, isDemoMode)` with the clock reading `now`. */
  function GenerateDidMetadata(d: DidData, isDemoMode: bool, now: string): (m: DidMetadata)
    requires now != ""
    ensures |m.attributes| == 12 && Traits(m.attributes) == TraitOrder
    ensures forall i :: 0 <= i < |m.attributes| ==> m.attributes[i].value != ""
    ensures m.name == m.attributes[FullNameAt].value
    // the displayed asset: selfie, then document image, then the placeholder
    ensures Truthy(d.livenessImage) ==> m.image == d.livenessImage.value
    ensures !Truthy(d.livenessImage) && Truthy(d.ipfsUrl) ==> m.image == d.ipfsUrl.value
    ensures !Truthy(d.livenessImage) && !Truthy(d.ipfsUrl) ==> m.image == PlaceholderImage
  {
    var name := NameOf(d, isDemoMode);
    var documentNumber := Pick(d, isDemoMode, (dd: DemoData) => dd.documentNumber, d.documentNumber, "N/A");
    var dateOfBirth := Pick(d, isDemoMode, (dd: DemoData) => dd.dateOfBirth, d.dateOfBirth, "N/A");
    var gender := GenderOf(d, isDemoMode);
    DidMetadata(
      name,
      Description(name, Show(documentNumber), Show(dateOfBirth), gender),
      Or(d.livenessImage, Or(d.ipfsUrl, PlaceholderImage)),
      AttributesOf(d, isDemoMode, now))
  }

  /** The `description` template. */
  function Description(name: string, documentNumber: string, dateOfBirth: string, gender: string): string {
    "Name: " + name + ", ID # " + documentNumber + ", DOB: " + dateOfBirth + ", Gender: " + gender
  }

  /** The `gender` binding: never taken from the record in demo mode. */
  function GenderOf(d: DidData, isDemoMode: bool): string {
    if isDemoMode then "Not Specified" else Or(d.gender, "Not Specified")
  }

  /** The `verification_score` value: `didVerificationScore?.toString() || "0"`. */
  function ScoreText(score: Option<int>): (t: string)
    ensures t != ""
  {
    match score
    case None => "0"
    case Some(n) => IntToStringRoundTrip(n); Or(Some(IntToString(n)), "0")
  }

  /** The twelve attributes, in `TraitOrder`. */
  function AttributesOf(d: DidData, isDemoMode: bool, now: string): (attrs: seq<Attribute>)
    requires now != ""
    ensures |attrs| == 12 && Traits(attrs) == TraitOrder
    ensures forall i :: 0 <= i < |attrs| ==> attrs[i].value != ""
  {
    var name := NameOf(d, isDemoMode);
    var documentNumber := Pick(d, isDemoMode, (dd: DemoData) => dd.documentNumber, d.documentNumber, "N/A");
    var documentType := Pick(d, isDemoMode, (dd: DemoData) => dd.documentType, d.documentType, "Unknown");
    var dateOfBirth := Pick(d, isDemoMode, (dd: DemoData) => dd.dateOfBirth, d.dateOfBirth, "N/A");
    var nationality := Pick(d, isDemoMode, (dd: DemoData) => dd.nationality, d.issuingCountry, "Unknown");
    [ Attribute("document_type", Or(documentType, "Unknown")),
      Attribute("document_number", Or(documentNumber, "Unknown")),
      Attribute("full_name", name),
      Attribute("date_of_birth", Or(dateOfBirth, "Unknown")),
      Attribute("gender", GenderOf(d, isDemoMode)),
      Attribute("nationality", Or(nationality, "Unknown")),
      Attribute("verification_score", ScoreText(d.didVerificationScore)),
      Attribute("verification_timestamp", Or(d.verificationTimestamp, now)),
      Attribute("verification_type", if isDemoMode then "Demo Mode" else "Full Verification"),
      Attribute("liveness_verified", if Truthy(d.livenessImage) then "Yes" else "No"),
      Attribute("document_image_url", Or(d.ipfsUrl, "Not Available")),
      Attribute("liveness_image_url", Or(d.livenessImage, "Not Available")) ]
  }

  /** The liveness and document-image attributes report exactly which images the record holds. */
  lemma ImageAttributes(d: DidData, isDemoMode: bool, now: string)
    requires now != ""
    ensures var a := GenerateDidMetadata(d, isDemoMode, now).attributes;
      && (a[LivenessVerifiedAt].value == "Yes" <==> Truthy(d.livenessImage))
      && (a[LivenessVerifiedAt].value == "No" <==> !Truthy(d.livenessImage))
      && a[LivenessImageAt].value == (if Truthy(d.livenessImage) then d.livenessImage.value else "Not Available")
      && a[DocumentImageAt].value == (if Truthy(d.ipfsUrl) then d.ipfsUrl.value else "Not Available")
  {
  }

  /** The mode label tells the two modes apart, and demo mode never reveals a gender. */
  lemma ModeAttributes(d: DidData, isDemoMode: bool, now: string)
    requires now != ""
    ensures var a := GenerateDidMetadata(d, isDemoMode, now).attributes;
      && (a[VerificationTypeAt].value == "Demo Mode" <==> isDemoMode)
      && (a[VerificationTypeAt].value == "Full Verification" <==> !isDemoMode)
      && (isDemoMode ==> a[GenderAt].value == "Not Specified")
  {
  }

  /** The score attribute is the canonical text that parses back to the record's score, or "0"
      when there is none; the timestamp is the record's, else the current time. */
  lemma ScoreAndTimestampAttributes(d: DidData, isDemoMode: bool, now: string)
    requires now != ""
    ensures var a := GenerateDidMetadata(d, isDemoMode, now).attributes;
      && (d.didVerificationScore.None? ==> a[ScoreAt].value == "0")
      && (d.didVerificationScore.Some? ==>
            Canonical(a[ScoreAt].value) && ParseInt(a[ScoreAt].value) == d.didVerificationScore)
      && a[TimestampAt].value == (if Truthy(d.verificationTimestamp) then d.verificationTimestamp.value else now)
  {
    if d.didVerificationScore.Some? {
      IntToStringRoundTrip(d.didVerificationScore.value);
    }
  }

  /** Verified mode: every identity attribute is the record's field or its placeholder, and the
      description repeats the name, number, birth date and gender attributes. */
  lemma VerifiedModeAttributes(d: DidData, now: string)
    requires now != ""
    ensures var m := GenerateDidMetadata(d, false, now);
      && m.attributes[FullNameAt].value == Or(d.fullName, "Unknown User")
      && m.attributes[DocumentNumberAt].value == Or(d.documentNumber, "N/A")
      && m.attributes[DocumentTypeAt].value == Or(d.documentType, "Unknown")
      && m.attributes[DateOfBirthAt].value == Or(d.dateOfBirth, "N/A")
      && m.attributes[NationalityAt].value == Or(d.issuingCountry, "Unknown")
      && m.attributes[GenderAt].value == Or(d.gender, "Not Specified")
      && m.description == Description(m.attributes[FullNameAt].value, m.attributes[DocumentNumberAt].value,
                                      m.attributes[DateOfBirthAt].value, m.attributes[GenderAt].value)
  {
  }

  /** Demo mode: the identity attributes and the description come from the demo record. */
  lemma DemoModeAttributes(d: DidData, now: string)
    requires now != "" && d.demoData.Some?
    ensures var m := GenerateDidMetadata(d, true, now);
      var dd := d.demoData.value;
      && m.name == dd.firstName + " " + dd.lastName
      && m.attributes[DocumentNumberAt].value == Or(Some(dd.documentNumber), "Unknown")
      && m.attributes[DocumentTypeAt].value == Or(Some(dd.documentType), "Unknown")
      && m.attributes[DateOfBirthAt].value == Or(Some(dd.dateOfBirth), "Unknown")
      && m.attributes[NationalityAt].value == Or(Some(dd.nationality), "Unknown")
      && m.description == Description(m.name, dd.documentNumber, dd.dateOfBirth, m.attributes[GenderAt].value)
  {
  }

  /** Demo mode without a demo record: the name and description print `undefined` for the
      missing values while the attributes fall back to "Unknown". */
  lemma DemoModeWithoutDemoData(d: DidData, now: string)
    requires now != "" && d.demoData.None?
    ensures var m := GenerateDidMetadata(d, true, now);
      && m.name == "undefined undefined"
      && m.attributes[DocumentNumberAt].value == "Unknown"
      && m.attributes[DateOfBirthAt].value == "Unknown"
      && m.description == Description("undefined undefined", "undefined", "undefined", "Not Specified")
  {
    var m := GenerateDidMetadata(d, true, now);
    assert m.name == "undefined" + " " + "undefined";
  }

  /** In demo mode the document does not depend on the verified identity fields at all: two
      records that agree on the demo data, the images, the score and the timestamp give the same
      document, whatever their names, numbers or genders. */
  lemma DemoIgnoresVerifiedFields(d1: DidData, d2: DidData, now: string)
    requires now != ""
    requires d1.demoData == d2.demoData && d1.livenessImage == d2.livenessImage
    requires d1.ipfsUrl == d2.ipfsUrl && d1.didVerificationScore == d2.didVerificationScore
    requires d1.verificationTimestamp == d2.verificationTimestamp
    ensures GenerateDidMetadata(d1, true, now) == GenerateDidMetadata(d2, true, now)
  {
  }

  /** The scenario of a verified record with a selfie: the document carries
      `liveness_verified = Yes` and the record's document number. */
  lemma VerifiedRecordScenario(now: string)
    requires now != ""
    ensures var d := EmptyData.(fullName := Some("Jane Doe"), documentNumber := Some("X1"),
                                livenessImage := Some("data:image/png;base64,AAAA"),
                                livenessVerified := true);
            var m := GenerateDidMetadata(d, false, now);
            && Attribute("liveness_verified", "Yes") in m.attributes
            && Attribute("document_number", "X1") in m.attributes
            && m.name == "Jane Doe"
  {
    var d := EmptyData.(fullName := Some("Jane Doe"), documentNumber := Some("X1"),
                        livenessImage := Some("data:image/png;base64,AAAA"),
                        livenessVerified := true);
    var m := GenerateDidMetadata(d, false, now);
    assert m.attributes[LivenessVerifiedAt] == Attribute("liveness_verified", "Yes");
    assert m.attributes[DocumentNumberAt] == Attribute("document_number", "X1");
  }

  /** The all-absent record still yields a complete document of placeholders. */
  lemma EmptyRecordScenario(now: string)
    requires now != ""
    ensures var m := GenerateDidMetadata(EmptyData, false, now);
            && m.name == "Unknown User"
            && m.image == PlaceholderImage
            && m.attributes[ScoreAt].value == "0"
            && m.attributes[TimestampAt].value == now
            && m.description == Description("Unknown User", "N/A", "N/A", "Not Specified")
  {
  }
}
