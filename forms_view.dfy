/** The three request forms on the forms screen (utdisa/Views/FormsView.swift).
    Submitting only raises the thank-you alert and clears some fields; nothing
    is sent anywhere. */
module FormsViews {
  import opened Base
  import opened Forms

  const SPONSORSHIP_LEVELS: seq<string> := ["Gold", "Silver", "Bronze"]

  /** The sponsor picker starts on one of its levels, and every level is the
      raw value of a sponsorship tier; the platinum tier is not offered. */
  lemma SponsorshipLevelsAreTiers()
    ensures "Gold" in SPONSORSHIP_LEVELS
    ensures forall l :: l in SPONSORSHIP_LEVELS ==> TierFromRaw(l).Some?
    ensures TierRaw(Platinum) !in SPONSORSHIP_LEVELS
  {
  }

  class FeedbackFormView {
    var name: string
    var email: string
    var feedback: string
    var showingSubmitAlert: bool

    constructor ()
      ensures name == "" && email == "" && feedback == "" && !showingSubmitAlert
    {
      name := "";
      email := "";
      feedback := "";
      showingSubmitAlert := false;
    }

    method SubmitFeedback()
      modifies this
      ensures showingSubmitAlert && name == "" && email == "" && feedback == ""
    {
      showingSubmitAlert := true;
      name := "";
      email := "";
      feedback := "";
    }
  }

  class SponsorFormView {
    var companyName: string
    var contactName: string
    var email: string
    var phone: string
    var sponsorshipLevel: string
    var additionalInfo: string
    var showingSubmitAlert: bool

    constructor ()
      ensures companyName == "" && contactName == "" && email == "" && phone == ""
      ensures sponsorshipLevel == "Gold" && additionalInfo == "" && !showingSubmitAlert
    {
      companyName := "";
      contactName := "";
      email := "";
      phone := "";
      sponsorshipLevel := "Gold";
      additionalInfo := "";
      showingSubmitAlert := false;
    }

    /** Clears the five text fields; the chosen level is kept. */
    method SubmitSponsorRequest()
      modifies this
      ensures showingSubmitAlert
      ensures companyName == "" && contactName == "" && email == "" && phone == "" && additionalInfo == ""
      ensures sponsorshipLevel == old(sponsorshipLevel)
    {
      showingSubmitAlert := true;
      companyName := "";
      contactName := "";
      email := "";
      phone := "";
      additionalInfo := "";
    }
  }

  class AirportPickupFormView {
    var name: string
    var email: string
    var phone: string
    var flightNumber: string
    var arrivalDate: Date
    var additionalInfo: string
    var showingSubmitAlert: bool

    /** `now` is the `Date()` the arrival picker starts at. */
    constructor (now: Date)
      ensures name == "" && email == "" && phone == "" && flightNumber == ""
      ensures arrivalDate == now && additionalInfo == "" && !showingSubmitAlert
    {
      name := "";
      email := "";
      phone := "";
      flightNumber := "";
      arrivalDate := now;
      additionalInfo := "";
      showingSubmitAlert := false;
    }

    /** Clears the five text fields; the arrival date is kept. */
    method SubmitPickupRequest()
      modifies this
      ensures showingSubmitAlert
      ensures name == "" && email == "" && phone == "" && flightNumber == "" && additionalInfo == ""
      ensures arrivalDate == old(arrivalDate)
    {
      showingSubmitAlert := true;
      name := "";
      email := "";
      phone := "";
      flightNumber := "";
      additionalInfo := "";
    }
  }
}
