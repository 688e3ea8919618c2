/** The row records sent to the backend tables, the form-to-row conversions and
    the column names their `CodingKeys` declare (utdisa/Models/Form+Supabase.swift).
    A row is encoded as a map from column name to value; like synthesised
    `Encodable`, an optional that is `nil` is left out of the encoding. */
module Wire {
  import opened Base
  import opened Forms

  /** The JSON values the rows are made of. */
  datatype Json = JString(s: string) | JInt(n: int) | JDate(d: Date) | JUuid(u: Uuid)

  // ---------------------------------------------------------------------------
  // AirportPickupFormDB
  // ---------------------------------------------------------------------------

  datatype AirportPickupFormDB = AirportPickupFormDB(
    id: Option<Uuid>,
    utdId: string,
    firstName: string,
    lastName: string,
    utdEmail: string,
    whatsappNumber: string,
    gender: string,
    emergencyContact: string,
    flightNumber: string,
    flightDate: Date,
    flightTime: Date,
    portOfEntry: string,
    checkInBagsCount: int,
    cabinBagsCount: int,
    dropOffLocation: string,
    acceptanceLetterUrl: string,
    studentPhotoUrl: string,
    itineraryImageUrl: string,
    createdAt: Option<Date>)

  /** The `CodingKeys` column names other than the server-assigned `id` and
      `created_at`, in declaration order. */
  const PICKUP_PAYLOAD_COLUMNS: seq<string> := [
    "utd_id", "first_name", "last_name", "utd_email", "whatsapp_number", "gender",
    "emergency_contact", "flight_number", "flight_date", "flight_time", "port_of_entry",
    "checkin_bags_count", "cabin_bags_count", "drop_off_location", "acceptance_letter_url",
    "student_photo_url", "itinerary_image_url"]

  /** All `CodingKeys` column names, in declaration order. */
  const PICKUP_COLUMNS: seq<string> := ["id"] + PICKUP_PAYLOAD_COLUMNS + ["created_at"]

  /** The JSON object the row encodes to: an optional key is present only when
      its value is. */
  function EncodePickupRow(r: AirportPickupFormDB): map<string, Json> {
    var row := map[
      "utd_id" := JString(r.utdId),
      "first_name" := JString(r.firstName),
      "last_name" := JString(r.lastName),
      "utd_email" := JString(r.utdEmail),
      "whatsapp_number" := JString(r.whatsappNumber),
      "gender" := JString(r.gender),
      "emergency_contact" := JString(r.emergencyContact),
      "flight_number" := JString(r.flightNumber),
      "flight_date" := JDate(r.flightDate),
      "flight_time" := JDate(r.flightTime),
      "port_of_entry" := JString(r.portOfEntry),
      "checkin_bags_count" := JInt(r.checkInBagsCount),
      "cabin_bags_count" := JInt(r.cabinBagsCount),
      "drop_off_location" := JString(r.dropOffLocation),
      "acceptance_letter_url" := JString(r.acceptanceLetterUrl),
      "student_photo_url" := JString(r.studentPhotoUrl),
      "itinerary_image_url" := JString(r.itineraryImageUrl)];
    var row := if r.id.Some? then row["id" := JUuid(r.id.value)] else row;
    if r.createdAt.Some? then row["created_at" := JDate(r.createdAt.value)] else row
  }

  /** `AirportPickupForm.toDatabase()`: the server assigns `id` and `created_at`. */
  function PickupToDatabase(f: AirportPickupForm): (r: AirportPickupFormDB)
    ensures r.id == None && r.createdAt == None
  {
    AirportPickupFormDB(
      id := None,
      utdId := f.utdId,
      firstName := f.firstName,
      lastName := f.lastName,
      utdEmail := f.utdEmail,
      whatsappNumber := f.whatsappNumber,
      gender := GenderRaw(f.gender),
      emergencyContact := f.emergencyContact,
      flightNumber := f.flightNumber,
      flightDate := f.arrivalDate,
      flightTime := f.arrivalTime,
      portOfEntry := f.portOfEntryAirport,
      checkInBagsCount := f.checkInBagsCount,
      cabinBagsCount := f.cabinBagsCount,
      dropOffLocation := f.dropOffLocation,
      acceptanceLetterUrl := f.acceptanceLetterImageURL,
      studentPhotoUrl := f.studentPhotoURL,
      itineraryImageUrl := f.itineraryImageURL,
      createdAt := None)
  }

  /** The inserted pickup row: exactly these seventeen columns, each holding the
      named form field (arrival date and time under flight_date/flight_time, the
      port of entry under port_of_entry, the gender as its label), and no
      `id` or `created_at`. */
  lemma PickupRowColumns(f: AirportPickupForm)
    ensures EncodePickupRow(PickupToDatabase(f)) == map[
      "utd_id" := JString(f.utdId),
      "first_name" := JString(f.firstName),
      "last_name" := JString(f.lastName),
      "utd_email" := JString(f.utdEmail),
      "whatsapp_number" := JString(f.whatsappNumber),
      "gender" := JString(GenderRaw(f.gender)),
      "emergency_contact" := JString(f.emergencyContact),
      "flight_number" := JString(f.flightNumber),
      "flight_date" := JDate(f.arrivalDate),
      "flight_time" := JDate(f.arrivalTime),
      "port_of_entry" := JString(f.portOfEntryAirport),
      "checkin_bags_count" := JInt(f.checkInBagsCount),
      "cabin_bags_count" := JInt(f.cabinBagsCount),
      "drop_off_location" := JString(f.dropOffLocation),
      "acceptance_letter_url" := JString(f.acceptanceLetterImageURL),
      "student_photo_url" := JString(f.studentPhotoURL),
      "itinerary_image_url" := JString(f.itineraryImageURL)]
    ensures EncodePickupRow(PickupToDatabase(f)).Keys == set c | c in PICKUP_PAYLOAD_COLUMNS
  {
  }

  /** The row ignores the dropped fields: contact email, the student flag, the
      Dallas airport choice and both consent flags. */
  lemma PickupRowIgnoresDroppedFields(
    f: AirportPickupForm, email: string, student: bool, airport: DallasAirport, terms: bool, waiver: bool)
    ensures PickupToDatabase(f.(email := email, isSpring25Student := student, arrivalAirport := airport,
                                agreesToTerms := terms, agreesToWaiver := waiver))
         == PickupToDatabase(f)
  {
  }

  /** Every carried field can be read back from the row, the gender included. */
  lemma PickupRowKeepsCarriedFields(f: AirportPickupForm, g: AirportPickupForm)
    requires PickupToDatabase(f) == PickupToDatabase(g)
    ensures f == g.(email := f.email, isSpring25Student := f.isSpring25Student,
                    arrivalAirport := f.arrivalAirport, agreesToTerms := f.agreesToTerms,
                    agreesToWaiver := f.agreesToWaiver)
  {
    RawValuesInjective();
  }

  // ---------------------------------------------------------------------------
  // FeedbackFormDB
  // ---------------------------------------------------------------------------

  datatype FeedbackFormDB = FeedbackFormDB(
    id: Option<Uuid>, name: string, email: string, category: string, message: string,
    createdAt: Option<Date>)

  const FEEDBACK_COLUMNS: seq<string> := ["id", "name", "email", "category", "message", "created_at"]

  function EncodeFeedbackRow(r: FeedbackFormDB): map<string, Json> {
    (if r.id.Some? then map["id" := JUuid(r.id.value)] else map[]) +
    map["name" := JString(r.name), "email" := JString(r.email),
        "category" := JString(r.category), "message" := JString(r.message)] +
    (if r.createdAt.Some? then map["created_at" := JDate(r.createdAt.value)] else map[])
  }

  /** `FeedbackForm.toDatabase()`. */
  function FeedbackToDatabase(f: FeedbackForm): (r: FeedbackFormDB)
    ensures r.id == None && r.createdAt == None
  {
    FeedbackFormDB(
      id := None, name := f.name, email := f.email, category := CategoryRaw(f.category),
      message := f.message, createdAt := None)
  }

  /** The inserted feedback row holds name, email, the category label and the
      message, nothing else; the mapping loses none of the form. */
  lemma FeedbackRowColumns(f: FeedbackForm, g: FeedbackForm)
    ensures EncodeFeedbackRow(FeedbackToDatabase(f)) == map[
      "name" := JString(f.name), "email" := JString(f.email),
      "category" := JString(CategoryRaw(f.category)), "message" := JString(f.message)]
    ensures EncodeFeedbackRow(FeedbackToDatabase(f)).Keys == set c | c in FEEDBACK_COLUMNS[1..5]
    ensures FeedbackToDatabase(f) == FeedbackToDatabase(g) ==> f == g
  {
    RawValuesInjective();
    assert FEEDBACK_COLUMNS[1..5] == ["name", "email", "category", "message"];
  }

  /** A feedback form left on its default category is stored as "General". */
  lemma FeedbackDefaultCategoryRow(name: string, email: string, message: string)
    ensures EncodeFeedbackRow(FeedbackToDatabase(FeedbackForm(name, email, NewFeedbackForm().category, message)))
         == map["name" := JString(name), "email" := JString(email),
                "category" := JString("General"), "message" := JString(message)]
  {
    FeedbackRowColumns(FeedbackForm(name, email, General, message), NewFeedbackForm());
  }

  // ---------------------------------------------------------------------------
  // SponsorFormDB
  // ---------------------------------------------------------------------------

  datatype SponsorFormDB = SponsorFormDB(
    id: Option<Uuid>, companyName: string, contactName: string, email: string, phone: string,
    sponsorshipTier: string, message: Option<string>, createdAt: Option<Date>)

  /** `CodingKeys` in declaration order. */
  const SPONSOR_COLUMNS: seq<string> :=
    ["id", "email", "phone", "message", "company_name", "contact_name", "sponsorship_tier", "created_at"]

  function EncodeSponsorRow(r: SponsorFormDB): map<string, Json> {
    (if r.id.Some? then map["id" := JUuid(r.id.value)] else map[]) +
    map["email" := JString(r.email), "phone" := JString(r.phone)] +
    (if r.message.Some? then map["message" := JString(r.message.value)] else map[]) +
    map["company_name" := JString(r.companyName), "contact_name" := JString(r.contactName),
        "sponsorship_tier" := JString(r.sponsorshipTier)] +
    (if r.createdAt.Some? then map["created_at" := JDate(r.createdAt.value)] else map[])
  }

  /** `SponsorForm.toDatabase()`: the message is always present, even when empty. */
  function SponsorToDatabase(f: SponsorForm): (r: SponsorFormDB)
    ensures r.id == None && r.createdAt == None
    ensures r.message == Some(f.message)
  {
    SponsorFormDB(
      id := None, companyName := f.companyName, contactName := f.contactName, email := f.email,
      phone := f.phone, sponsorshipTier := TierRaw(f.sponsorshipTier), message := Some(f.message),
      createdAt := None)
  }

  /** The inserted sponsor row holds the six columns from `email` to
      `sponsorship_tier`, `message` included whatever its content; the mapping
      loses none of the form. */
  lemma SponsorRowColumns(f: SponsorForm, g: SponsorForm)
    ensures EncodeSponsorRow(SponsorToDatabase(f)) == map[
      "email" := JString(f.email), "phone" := JString(f.phone), "message" := JString(f.message),
      "company_name" := JString(f.companyName), "contact_name" := JString(f.contactName),
      "sponsorship_tier" := JString(TierRaw(f.sponsorshipTier))]
    ensures EncodeSponsorRow(SponsorToDatabase(f)).Keys == set c | c in SPONSOR_COLUMNS[1..7]
    ensures SponsorToDatabase(f) == SponsorToDatabase(g) ==> f == g
  {
    RawValuesInjective();
    assert SPONSOR_COLUMNS[1..7] == ["email", "phone", "message", "company_name", "contact_name", "sponsorship_tier"];
  }

  /** Within each table no column name is used twice. */
  lemma ColumnNamesDistinct()
    ensures forall i, j :: 0 <= i < j < |PICKUP_COLUMNS| ==> PICKUP_COLUMNS[i] != PICKUP_COLUMNS[j]
    ensures forall i, j :: 0 <= i < j < |FEEDBACK_COLUMNS| ==> FEEDBACK_COLUMNS[i] != FEEDBACK_COLUMNS[j]
    ensures forall i, j :: 0 <= i < j < |SPONSOR_COLUMNS| ==> SPONSOR_COLUMNS[i] != SPONSOR_COLUMNS[j]
  {
  }
}
