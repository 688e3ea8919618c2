/** The housing list screen (utdisa/Views/HousingMarketplaceView.swift): what
    the body shows for a given state, how `fetchListings` moves that state,
    and which lines a listing card shows. */
module HousingMarketplace {
  import opened Base
  import opened Records

  /** What the body shows. */
  datatype Display =
    | Loading
    | ErrorWithRetry(message: string)
    | NoListings
    | Cards(listings: seq<HousingListing>)

  /** Loading wins over an error, an error over the empty message, and the
      cards show only when none of those applies. */
  function DisplayFor(isLoading: bool, errorMessage: Option<string>, listings: seq<HousingListing>): (d: Display)
    ensures d == Loading <==> isLoading
    ensures d.ErrorWithRetry? <==> !isLoading && errorMessage.Some?
    ensures d.ErrorWithRetry? ==> d.message == errorMessage.value
    ensures d == NoListings <==> !isLoading && errorMessage.None? && listings == []
    ensures d.Cards? <==> !isLoading && errorMessage.None? && listings != []
    ensures d.Cards? ==> d.listings == listings
  {
    if isLoading then Loading
    else if errorMessage.Some? then ErrorWithRetry(errorMessage.value)
    else if listings == [] then NoListings
    else Cards(listings)
  }

  /** What the `housing_listings` query (newest first) and its decoding produced. */
  datatype FetchResult = Fetched(rows: seq<HousingListing>) | FetchFailed(description: string)

  class HousingMarketplaceView {
    var listings: seq<HousingListing>
    var isLoading: bool
    var errorMessage: Option<string>
    var showListingForm: bool
    var showSuccessAlert: bool

    function Display(): Display
      reads this
    {
      DisplayFor(isLoading, errorMessage, listings)
    }

    /** The screen opens in the loading state with no listings. */
    constructor ()
      ensures listings == [] && isLoading && errorMessage == None
      ensures !showListingForm && !showSuccessAlert
      ensures Display() == Loading
    {
      listings := [];
      isLoading := true;
      errorMessage := None;
      showListingForm := false;
      showSuccessAlert := false;
    }

    /** The synchronous start of `fetchListings`. */
    method StartFetch()
      modifies this
      ensures isLoading && errorMessage == None
      ensures listings == old(listings) && showListingForm == old(showListingForm)
      ensures showSuccessAlert == old(showSuccessAlert)
      ensures Display() == Loading
    {
      isLoading := true;
      errorMessage := None;
    }

    /** The completion of `fetchListings`: the rows replace the list, or the
        error is shown over the list left as it was. */
    method FinishFetch(result: FetchResult)
      modifies this
      ensures !isLoading
      ensures showListingForm == old(showListingForm) && showSuccessAlert == old(showSuccessAlert)
      ensures result.Fetched? ==> listings == result.rows && errorMessage == old(errorMessage)
      ensures result.FetchFailed? ==> listings == old(listings) && errorMessage == Some(result.description)
    {
      match result {
        case Fetched(rows) =>
          listings := rows;
          isLoading := false;
        case FetchFailed(description) =>
          errorMessage := Some(description);
          isLoading := false;
      }
    }

    /** `fetchListings` run to the end (also the "Retry" button and `onAppear`). */
    method FetchListings(result: FetchResult)
      modifies this
      ensures !isLoading
      ensures showListingForm == old(showListingForm) && showSuccessAlert == old(showSuccessAlert)
      ensures result.Fetched? ==> listings == result.rows && errorMessage == None
      ensures result.FetchFailed? ==> listings == old(listings) && errorMessage == Some(result.description)
      ensures result.Fetched? ==> Display() == (if result.rows == [] then NoListings else Cards(result.rows))
      ensures result.FetchFailed? ==> Display() == ErrorWithRetry(result.description)
    {
      StartFetch();
      FinishFetch(result);
    }

    /** The "Add Listing" toolbar button. */
    method AddListing()
      modifies this
      ensures showListingForm
      ensures listings == old(listings) && isLoading == old(isLoading) && errorMessage == old(errorMessage)
      ensures showSuccessAlert == old(showSuccessAlert)
    {
      showListingForm := true;
    }

    /** Dismissing the form sheet, however the form ended: the sheet's
        `isPresented` binding is reset, a refetch starts and the success alert
        is raised. */
    method OnSheetDismiss()
      modifies this
      ensures !showListingForm
      ensures showSuccessAlert && isLoading && errorMessage == None
      ensures listings == old(listings)
    {
      showListingForm := false;
      StartFetch();
      showSuccessAlert := true;
    }
  }

  /** One line of a listing card, in the order the card stacks them. */
  datatype CardLine =
    | PhotoLine(url: string)
    | NameLine(name: string)
    | TypeLine(apartmentType: string, availability: string)
    | RentLine(rent: real)
    | AptNumberLine(number: string)
    | LeaseLine(leaseType: string)
    | MonthsLeftLine(months: int)
    | TemporaryLine
    | DateRangeLine(from: Date, to: Date)
    | PerDayLine(rentPerDay: real)
    | PostedLine(createdAt: Date)

  function PhotoPart(l: HousingListing, parsesAsUrl: string -> bool): seq<CardLine> {
    if l.photo_urls != [] && parsesAsUrl(l.photo_urls[0]) then [PhotoLine(l.photo_urls[0])] else []
  }

  function AptNumberPart(l: HousingListing): seq<CardLine> {
    if l.apartment_number.Some? && l.apartment_number.value != "" then [AptNumberLine(l.apartment_number.value)] else []
  }

  function MonthsLeftPart(l: HousingListing): seq<CardLine> {
    if l.lease_type == "existing" && l.lease_months_left.Some? then [MonthsLeftLine(l.lease_months_left.value)] else []
  }

  function TemporaryPart(l: HousingListing): seq<CardLine> {
    if l.is_temporary then
      [TemporaryLine]
      + (if l.available_from.Some? && l.available_to.Some?
         then [DateRangeLine(l.available_from.value, l.available_to.value)] else [])
      + (if l.rent_per_day.Some? then [PerDayLine(l.rent_per_day.value)] else [])
    else []
  }

  function PostedPart(l: HousingListing): seq<CardLine> {
    if l.created_at.Some? then [PostedLine(l.created_at.value)] else []
  }

  /** The lines `HousingListingCard` shows; `parsesAsUrl` is `URL(string:)` succeeding. */
  function CardLines(l: HousingListing, parsesAsUrl: string -> bool): (r: seq<CardLine>)
    ensures NameLine(l.apartment_name) in r && LeaseLine(l.lease_type) in r && RentLine(l.rent) in r
    ensures TypeLine(l.apartment_type, l.availability) in r
  {
    PhotoPart(l, parsesAsUrl)
    + [NameLine(l.apartment_name), TypeLine(l.apartment_type, l.availability), RentLine(l.rent)]
    + AptNumberPart(l)
    + [LeaseLine(l.lease_type)]
    + MonthsLeftPart(l)
    + TemporaryPart(l)
    + PostedPart(l)
  }

  /** A line is on the card exactly when one of the card's parts holds it. */
  lemma InCard(l: HousingListing, parsesAsUrl: string -> bool, x: CardLine)
    ensures x in CardLines(l, parsesAsUrl) <==>
      || x in PhotoPart(l, parsesAsUrl)
      || x in [NameLine(l.apartment_name), TypeLine(l.apartment_type, l.availability), RentLine(l.rent)]
      || x in AptNumberPart(l) || x == LeaseLine(l.lease_type) || x in MonthsLeftPart(l)
      || x in TemporaryPart(l) || x in PostedPart(l)
  {
  }

  /** "Months left" shows exactly for an existing lease with a month count. */
  lemma MonthsLeftShown(l: HousingListing, parsesAsUrl: string -> bool, n: int)
    ensures MonthsLeftLine(n) in CardLines(l, parsesAsUrl) <==>
      l.lease_type == "existing" && l.lease_months_left == Some(n)
  {
    InCard(l, parsesAsUrl, MonthsLeftLine(n));
  }

  /** The date range shows exactly for temporary housing with both dates. */
  lemma DateRangeShown(l: HousingListing, parsesAsUrl: string -> bool, from: Date, to: Date)
    ensures DateRangeLine(from, to) in CardLines(l, parsesAsUrl) <==>
      l.is_temporary && l.available_from == Some(from) && l.available_to == Some(to)
  {
    InCard(l, parsesAsUrl, DateRangeLine(from, to));
  }

  /** The apartment number shows exactly when it is present and not empty. */
  lemma AptNumberShown(l: HousingListing, parsesAsUrl: string -> bool, s: string)
    ensures AptNumberLine(s) in CardLines(l, parsesAsUrl) <==> l.apartment_number == Some(s) && s != ""
  {
    InCard(l, parsesAsUrl, AptNumberLine(s));
  }

  /** The temporary-housing lines show only for temporary housing. */
  lemma TemporaryLinesShown(l: HousingListing, parsesAsUrl: string -> bool, r: real)
    ensures TemporaryLine in CardLines(l, parsesAsUrl) <==> l.is_temporary
    ensures PerDayLine(r) in CardLines(l, parsesAsUrl) <==> l.is_temporary && l.rent_per_day == Some(r)
  {
    InCard(l, parsesAsUrl, TemporaryLine);
    InCard(l, parsesAsUrl, PerDayLine(r));
  }

  /** The photo shows only when the first URL parses. */
  lemma PhotoShown(l: HousingListing, parsesAsUrl: string -> bool, u: string)
    ensures PhotoLine(u) in CardLines(l, parsesAsUrl) <==>
      l.photo_urls != [] && u == l.photo_urls[0] && parsesAsUrl(u)
  {
    InCard(l, parsesAsUrl, PhotoLine(u));
  }
}
