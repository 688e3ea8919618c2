/** The three submission forms, their validity predicates, the phone-number
    cleaner and the enum label tables (utdisa/Models/Form.swift). */
module Forms {
  import opened Base
  import opened Text

  // ---------------------------------------------------------------------------
  // Enumerations with String raw values
  // ---------------------------------------------------------------------------

  datatype Gender = Male | Female | PreferNotToSay

  function GenderRaw(g: Gender): string {
    match g
    case Male => "Male"
    case Female => "Female"
    case PreferNotToSay => "Prefer not to say"
  }

  /** `Gender(rawValue:)`: the inverse of the raw-value table. */
  function GenderFromRaw(s: string): (r: Option<Gender>)
    ensures forall g :: r == Some(g) <==> GenderRaw(g) == s
  {
    if s == "Male" then Some(Male)
    else if s == "Female" then Some(Female)
    else if s == "Prefer not to say" then Some(PreferNotToSay)
    else None
  }

  datatype DallasAirport = Dfw | Dal

  function AirportRaw(a: DallasAirport): string {
    match a
    case Dfw => "Dallas/Fort Worth International Airport (DFW)"
    case Dal => "Dallas Love Field Airport (DAL)"
  }

  /** `DallasAirport(rawValue:)`. */
  function AirportFromRaw(s: string): (r: Option<DallasAirport>)
    ensures forall a :: r == Some(a) <==> AirportRaw(a) == s
  {
    if s == "Dallas/Fort Worth International Airport (DFW)" then Some(Dfw)
    else if s == "Dallas Love Field Airport (DAL)" then Some(Dal)
    else None
  }

  datatype FeedbackCategory = General | EventCategory | Suggestion | Technical | Other

  function CategoryRaw(c: FeedbackCategory): string {
    match c
    case General => "General"
    case EventCategory => "Event"
    case Suggestion => "Suggestion"
    case Technical => "Technical"
    case Other => "Other"
  }

  /** `FeedbackCategory(rawValue:)`. */
  function CategoryFromRaw(s: string): (r: Option<FeedbackCategory>)
    ensures forall c :: r == Some(c) <==> CategoryRaw(c) == s
  {
    if s == "General" then Some(General)
    else if s == "Event" then Some(EventCategory)
    else if s == "Suggestion" then Some(Suggestion)
    else if s == "Technical" then Some(Technical)
    else if s == "Other" then Some(Other)
    else None
  }

  datatype SponsorshipTier = Platinum | Gold | Silver | Bronze

  function TierRaw(t: SponsorshipTier): string {
    match t
    case Platinum => "Platinum"
    case Gold => "Gold"
    case Silver => "Silver"
    case Bronze => "Bronze"
  }

  /** `SponsorshipTier(rawValue:)`. */
  function TierFromRaw(s: string): (r: Option<SponsorshipTier>)
    ensures forall t :: r == Some(t) <==> TierRaw(t) == s
  {
    if s == "Platinum" then Some(Platinum)
    else if s == "Gold" then Some(Gold)
    else if s == "Silver" then Some(Silver)
    else if s == "Bronze" then Some(Bronze)
    else None
  }

  function TierAmount(t: SponsorshipTier): string {
    match t
    case Platinum => "$2000+"
    case Gold => "$1000"
    case Silver => "$500"
    case Bronze => "$250"
  }

  function TierBenefits(t: SponsorshipTier): string {
    match t
    case Platinum => "Logo on all materials, VIP event access, Speaking opportunity, Premium booth space"
    case Gold => "Logo on all materials, VIP event access, Premium booth space"
    case Silver => "Logo on digital materials, Event booth space"
    case Bronze => "Logo on digital materials"
  }

  /** Each raw-value table is injective, so a label identifies its case;
      the same holds for the tier amounts. */
  lemma RawValuesInjective()
    ensures forall a, b :: GenderRaw(a) == GenderRaw(b) ==> a == b
    ensures forall a, b :: AirportRaw(a) == AirportRaw(b) ==> a == b
    ensures forall a, b :: CategoryRaw(a) == CategoryRaw(b) ==> a == b
    ensures forall a, b :: TierRaw(a) == TierRaw(b) ==> a == b
    ensures forall a, b :: TierAmount(a) == TierAmount(b) ==> a == b
  {
    forall a, b | GenderRaw(a) == GenderRaw(b) ensures a == b {
      assert GenderFromRaw(GenderRaw(a)) == Some(a);
    }
    forall a, b | AirportRaw(a) == AirportRaw(b) ensures a == b {
      assert AirportFromRaw(AirportRaw(a)) == Some(a);
    }
    forall a, b | CategoryRaw(a) == CategoryRaw(b) ensures a == b {
      assert CategoryFromRaw(CategoryRaw(a)) == Some(a);
    }
    forall a, b | TierRaw(a) == TierRaw(b) ensures a == b {
      assert TierFromRaw(TierRaw(a)) == Some(a);
    }
  }

  /** The amount shown for each tier. */
  lemma TierAmounts()
    ensures TierAmount(Platinum) == "$2000+" && TierAmount(Gold) == "$1000"
    ensures TierAmount(Silver) == "$500" && TierAmount(Bronze) == "$250"
  {
  }

  // ---------------------------------------------------------------------------
  // FormType
  // ---------------------------------------------------------------------------

  datatype FormType = AirportPickup | Feedback | Sponsor {
    function RawValue(): string {
      match this
      case AirportPickup => "Airport Pickup"
      case Feedback => "Feedback"
      case Sponsor => "Become a Sponsor"
    }

    /** `Identifiable.id` is the raw value, so distinct form types have distinct ids. */
    function Id(): (r: string)
      ensures r == RawValue()
      ensures forall t: FormType :: t.RawValue() == r ==> t == this
    {
      RawValue()
    }

    function Title(): string {
      match this
      case AirportPickup => "Airport Pickup Request"
      case Feedback => "Share Your Feedback"
      case Sponsor => "Sponsor ISA Events"
    }

    function Description(): string {
      match this
      case AirportPickup => "Request a pickup from DFW Airport by ISA volunteers"
      case Feedback => "Share your thoughts, suggestions, or report issues"
      case Sponsor => "Support ISA events and connect with our community"
    }

    /** Only the airport pickup form links to an external form. */
    function FormUrl(): (r: Option<string>)
      ensures r.Some? <==> this == AirportPickup
      ensures r.Some? ==> HasPrefix(r.value, "https://")
    {
      match this
      case AirportPickup => Some("https://forms.office.com/r/pFCGev576R")
      case Feedback => None
      case Sponsor => None
    }
  }

  // ---------------------------------------------------------------------------
  // AirportPickupForm
  // ---------------------------------------------------------------------------

  datatype AirportPickupForm = AirportPickupForm(
    email: string,
    utdId: string,
    utdEmail: string,
    firstName: string,
    lastName: string,
    whatsappNumber: string,
    gender: Gender,
    emergencyContact: string,
    isSpring25Student: bool,
    acceptanceLetterImageURL: string,
    studentPhotoURL: string,
    flightNumber: string,
    arrivalDate: Date,
    arrivalTime: Date,
    arrivalAirport: DallasAirport,
    portOfEntryAirport: string,
    itineraryImageURL: string,
    checkInBagsCount: int,
    cabinBagsCount: int,
    dropOffLocation: string,
    agreesToTerms: bool,
    agreesToWaiver: bool)
  {
    predicate IsValid() {
      && email != ""
      && utdId != ""
      && utdEmail != ""
      && firstName != ""
      && lastName != ""
      && whatsappNumber != ""
      && emergencyContact != ""
      && isSpring25Student
      && acceptanceLetterImageURL != ""
      && studentPhotoURL != ""
      && flightNumber != ""
      && portOfEntryAirport != ""
      && itineraryImageURL != ""
      && dropOffLocation != ""
      && agreesToTerms
      && agreesToWaiver
    }

    /** The text fields the form insists on, in declaration order. */
    function RequiredTexts(): (r: seq<string>)
      ensures |r| == 13
    {
      [email, utdId, utdEmail, firstName, lastName, whatsappNumber, emergencyContact,
       acceptanceLetterImageURL, studentPhotoURL, flightNumber, portOfEntryAirport,
       itineraryImageURL, dropOffLocation]
    }

    /** The consent and verification flags the form insists on. */
    function RequiredFlags(): (r: seq<bool>)
      ensures |r| == 3
    {
      [isSpring25Student, agreesToTerms, agreesToWaiver]
    }

    /** `formatPhoneNumber`: both branches return the cleaned digit string; the
        "91"/12-digit branch splits it after the country code and glues it back. */
    static function FormatPhoneNumber(number: string): (r: string)
      ensures r == Digits(number)
    {
      var cleaned := Digits(number);
      if HasPrefix(cleaned, "91") && |cleaned| == 12 then
        var countryCode := cleaned[..2];
        var remaining := cleaned[2..];
        countryCode + remaining
      else
        cleaned
    }
  }

  /** The memberwise initialiser with every default; `Date()` is the current instant `now`. */
  function NewAirportPickupForm(now: Date): AirportPickupForm {
    AirportPickupForm(
      email := "", utdId := "", utdEmail := "", firstName := "", lastName := "",
      whatsappNumber := "", gender := PreferNotToSay, emergencyContact := "",
      isSpring25Student := false, acceptanceLetterImageURL := "", studentPhotoURL := "",
      flightNumber := "", arrivalDate := now, arrivalTime := now, arrivalAirport := Dfw,
      portOfEntryAirport := "", itineraryImageURL := "",
      checkInBagsCount := 1, cabinBagsCount := 1, dropOffLocation := "",
      agreesToTerms := false, agreesToWaiver := false)
  }

  /** Valid exactly when all thirteen required texts are non-empty and all three
      flags are set. */
  lemma AirportValidIff(f: AirportPickupForm)
    ensures f.IsValid() <==>
      (forall i :: 0 <= i < 13 ==> f.RequiredTexts()[i] != "") &&
      (forall i :: 0 <= i < 3 ==> f.RequiredFlags()[i])
  {
    var t := f.RequiredTexts();
    var b := f.RequiredFlags();
    if (forall i :: 0 <= i < 13 ==> t[i] != "") && (forall i :: 0 <= i < 3 ==> b[i]) {
      assert t[0] != "" && t[1] != "" && t[2] != "" && t[3] != "" && t[4] != "";
      assert t[5] != "" && t[6] != "" && t[7] != "" && t[8] != "" && t[9] != "";
      assert t[10] != "" && t[11] != "" && t[12] != "";
      assert b[0] && b[1] && b[2];
    }
  }

  /** Gender, dates, airport choice and bag counts have no bearing on validity. */
  lemma AirportValidityIgnoresOtherFields(f: AirportPickupForm, g: AirportPickupForm)
    requires f.RequiredTexts() == g.RequiredTexts() && f.RequiredFlags() == g.RequiredFlags()
    ensures f.IsValid() == g.IsValid()
  {
    AirportValidIff(f);
    AirportValidIff(g);
  }

  /** A freshly opened form is invalid: its texts are empty and its flags unset. */
  lemma NewAirportPickupFormInvalid(now: Date)
    ensures !NewAirportPickupForm(now).IsValid()
    ensures forall i :: 0 <= i < 13 ==> NewAirportPickupForm(now).RequiredTexts()[i] == ""
    ensures forall i :: 0 <= i < 3 ==> !NewAirportPickupForm(now).RequiredFlags()[i]
  {
  }

  /** The cleaner's output is all digits and cleaning twice changes nothing. */
  lemma FormatPhoneNumberIdempotent(number: string)
    ensures AllDigits(AirportPickupForm.FormatPhoneNumber(number))
    ensures AirportPickupForm.FormatPhoneNumber(AirportPickupForm.FormatPhoneNumber(number))
         == AirportPickupForm.FormatPhoneNumber(number)
  {
    DigitsIdempotent(number);
  }

  // ---------------------------------------------------------------------------
  // FeedbackForm
  // ---------------------------------------------------------------------------

  datatype FeedbackForm = FeedbackForm(name: string, email: string, category: FeedbackCategory, message: string)
  {
    predicate IsValid() {
      name != "" && email != "" && message != ""
    }
  }

  function NewFeedbackForm(): FeedbackForm {
    FeedbackForm("", "", General, "")
  }

  /** Valid exactly when name, email and message are non-empty, whatever the category. */
  lemma FeedbackValidIff(f: FeedbackForm, c: FeedbackCategory)
    ensures f.IsValid() <==> f.name != "" && f.email != "" && f.message != ""
    ensures f.(category := c).IsValid() == f.IsValid()
    ensures !NewFeedbackForm().IsValid() && NewFeedbackForm().category == General
  {
  }

  // ---------------------------------------------------------------------------
  // SponsorForm
  // ---------------------------------------------------------------------------

  datatype SponsorForm = SponsorForm(
    companyName: string, contactName: string, email: string, phone: string,
    sponsorshipTier: SponsorshipTier, message: string)
  {
    predicate IsValid() {
      companyName != "" && contactName != "" && email != "" && phone != ""
    }
  }

  function NewSponsorForm(): SponsorForm {
    SponsorForm("", "", "", "", Gold, "")
  }

  /** Valid exactly when the four contact fields are non-empty; tier and message
      play no part. */
  lemma SponsorValidIff(f: SponsorForm, t: SponsorshipTier, m: string)
    ensures f.IsValid() <==> f.companyName != "" && f.contactName != "" && f.email != "" && f.phone != ""
    ensures f.(sponsorshipTier := t, message := m).IsValid() == f.IsValid()
    ensures !NewSponsorForm().IsValid() && NewSponsorForm().sponsorshipTier == Gold
  {
  }
}
