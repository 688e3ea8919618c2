/** The form that posts a housing listing
    (utdisa/Views/HousingListingFormView.swift): the required-field guard, the
    photo upload whose result is all or nothing, the record built from the
    form, and the `isUploading` flag across the asynchronous steps. */
module HousingForm {
  import opened Base
  import opened Text
  import opened Numbers
  import opened Records
  import opened Backend

  const APARTMENT_TYPES: seq<string> := ["1b1b", "2b2b", "2b2.5b", "3b2b", "3b3b"]
  const AVAILABILITIES: seq<string> := ["whole", "room"]
  const LEASE_TYPES: seq<string> := ["new", "existing"]

  const FILL_REQUIRED := "Please fill all required fields and select at least one photo."
  const UPLOAD_FAILED := "Failed to upload images."
  const SAVE_FAILED := "Failed to save listing: "
  const BUCKET := "housing-photos"
  const PUBLIC_STORAGE := "https://ygeuxkwcqqscxqomwrgo.supabase.co/storage/v1/object/public/"

  /** The pickers start on a value they offer. */
  lemma DefaultsAreOptions()
    ensures "1b1b" in APARTMENT_TYPES && "whole" in AVAILABILITIES && "new" in LEASE_TYPES
  {
  }

  /** A picked photo, identified by its position in the picker's result. */
  datatype Photo = Photo(index: nat)

  /** What became of one photo: `jpegData` produced nothing, or the file named
      after the fresh `fileId` was sent to storage and `stored` says whether
      the upload succeeded. */
  datatype PhotoUpload = NotEncoded | Sent(fileId: Uuid, stored: bool)

  function FileName(fileId: Uuid): string {
    "listing-" + fileId + ".jpg"
  }

  function PublicUrl(fileId: Uuid): string {
    PUBLIC_STORAGE + BUCKET + "/" + FileName(fileId)
  }

  /** Distinct file ids give distinct public URLs. */
  lemma PublicUrlInjective(a: Uuid, b: Uuid)
    ensures PublicUrl(a) == PublicUrl(b) ==> a == b
  {
    var pre := PUBLIC_STORAGE + BUCKET + "/" + "listing-";
    if PublicUrl(a) == PublicUrl(b) {
      assert PublicUrl(a) == pre + a + ".jpg";
      assert PublicUrl(b) == pre + b + ".jpg";
      assert a == PublicUrl(a)[|pre|..|PublicUrl(a)| - 4];
      assert b == PublicUrl(b)[|pre|..|PublicUrl(b)| - 4];
    }
  }

  predicate Stored(u: PhotoUpload) {
    u.Sent? && u.stored
  }

  /** The URLs collected by the upload loop, in photo order. */
  function StoredUrls(uploads: seq<PhotoUpload>): (r: seq<string>)
    ensures |r| <= |uploads|
    decreases |uploads|
  {
    if uploads == [] then []
    else
      var last := uploads[|uploads| - 1];
      StoredUrls(uploads[..|uploads| - 1]) + (if Stored(last) then [PublicUrl(last.fileId)] else [])
  }

  /** The storage requests the upload loop sends, in photo order. */
  function UploadRequests(uploads: seq<PhotoUpload>): seq<Request>
    decreases |uploads|
  {
    if uploads == [] then []
    else
      var last := uploads[|uploads| - 1];
      UploadRequests(uploads[..|uploads| - 1]) + (if last.Sent? then [UploadPhoto(BUCKET, FileName(last.fileId))] else [])
  }

  predicate AllStored(uploads: seq<PhotoUpload>) {
    forall i :: 0 <= i < |uploads| ==> Stored(uploads[i])
  }

  /** As many URLs as photos exactly when every photo was encoded and stored. */
  lemma {:induction false} StoredUrlsComplete(uploads: seq<PhotoUpload>)
    ensures |StoredUrls(uploads)| == |uploads| <==> AllStored(uploads)
    decreases |uploads|
  {
    if uploads != [] {
      var init := uploads[..|uploads| - 1];
      StoredUrlsComplete(init);
      if AllStored(uploads) {
        assert AllStored(init) by {
          forall i | 0 <= i < |init| ensures Stored(init[i]) { assert init[i] == uploads[i]; }
        }
      }
      if |StoredUrls(uploads)| == |uploads| {
        assert Stored(uploads[|uploads| - 1]);
        forall i | 0 <= i < |uploads| ensures Stored(uploads[i]) {
          if i < |init| { assert uploads[i] == init[i]; }
        }
      }
    }
  }

  /** When every photo was stored, URL `i` names photo `i`'s file. */
  lemma {:induction false} StoredUrlsInOrder(uploads: seq<PhotoUpload>)
    requires AllStored(uploads)
    ensures |StoredUrls(uploads)| == |uploads|
    ensures forall i :: 0 <= i < |uploads| ==> StoredUrls(uploads)[i] == PublicUrl(uploads[i].fileId)
    decreases |uploads|
  {
    StoredUrlsComplete(uploads);
    if uploads != [] {
      var init := uploads[..|uploads| - 1];
      assert AllStored(init) by {
        forall i | 0 <= i < |init| ensures Stored(init[i]) { assert init[i] == uploads[i]; }
      }
      StoredUrlsInOrder(init);
      forall i | 0 <= i < |uploads| ensures StoredUrls(uploads)[i] == PublicUrl(uploads[i].fileId) {
        if i < |init| { assert uploads[i] == init[i]; }
      }
    }
  }

  /** What `uploadImages` hands its completion: all the URLs, or `nil`. */
  function UploadResult(uploads: seq<PhotoUpload>): (r: Option<seq<string>>)
    ensures r.Some? <==> AllStored(uploads)
    ensures r.Some? ==> |r.value| == |uploads|
    ensures r.Some? ==> forall i :: 0 <= i < |uploads| ==> r.value[i] == PublicUrl(uploads[i].fileId)
  {
    StoredUrlsComplete(uploads);
    var urls := StoredUrls(uploads);
    if |urls| == |uploads| then StoredUrlsInOrder(uploads); Some(urls) else None
  }

  /** The upload loop: a photo that does not encode is skipped, a failed
      upload is skipped, and the URLs count only if none was skipped. */
  method UploadImages(client: Client, uploads: seq<PhotoUpload>) returns (urls: Option<seq<string>>)
    modifies client
    ensures urls == UploadResult(uploads)
    ensures client.sent == old(client.sent) + UploadRequests(uploads)
  {
    var collected: seq<string> := [];
    var i := 0;
    while i < |uploads|
      invariant 0 <= i <= |uploads|
      invariant collected == StoredUrls(uploads[..i])
      invariant client.sent == old(client.sent) + UploadRequests(uploads[..i])
    {
      assert uploads[..i + 1][..i] == uploads[..i];
      match uploads[i] {
        case NotEncoded =>
        case Sent(fileId, stored) =>
          client.Send(UploadPhoto(BUCKET, FileName(fileId)));
          if stored {
            collected := collected + [PublicUrl(fileId)];
          }
      }
      i := i + 1;
    }
    assert uploads[..i] == uploads;
    urls := if |collected| == |uploads| then Some(collected) else None;
  }

  /** The form's fields, as `submitListing` reads them. */
  datatype ListingDraft = ListingDraft(
    apartmentName: string, apartmentType: string, availability: string, rent: string,
    apartmentNumber: string, leaseType: string, leaseMonthsLeft: string, isTemporary: bool,
    availableFrom: Date, availableTo: Date, hasAvailableFrom: bool, hasAvailableTo: bool,
    rentPerDay: string)

  /** The guard of `submitListing`; `parseDouble` is Swift's `Double(_: String)`. */
  function SubmitError(d: ListingDraft, parseDouble: string -> Option<real>, photoCount: nat): (r: Option<string>)
    ensures r == None <==>
      d.apartmentName != "" && d.apartmentType != "" && d.availability != ""
      && parseDouble(d.rent).Some? && photoCount > 0
    ensures r.Some? ==> r.value == FILL_REQUIRED
  {
    if d.apartmentName == "" || d.apartmentType == "" || d.availability == ""
       || parseDouble(d.rent).None? || photoCount == 0
    then Some(FILL_REQUIRED)
    else None
  }

  /** The record `submitListing` saves once the photos are stored. */
  function BuildListing(d: ListingDraft, parseDouble: string -> Option<real>, rentValue: real, urls: seq<string>): (l: HousingListing)
    ensures l.id == None && l.user_id == None && l.created_at == None
    ensures l.photo_urls == urls && l.rent == rentValue
    ensures l.apartment_name == d.apartmentName && l.apartment_type == d.apartmentType
    ensures l.availability == d.availability && l.lease_type == d.leaseType && l.is_temporary == d.isTemporary
    ensures l.apartment_number == None <==> d.apartmentNumber == ""
    ensures l.apartment_number.Some? ==> l.apartment_number.value == d.apartmentNumber
    ensures l.available_from.Some? <==> d.hasAvailableFrom
    ensures l.available_from.Some? ==> l.available_from.value == d.availableFrom
    ensures l.available_to.Some? <==> d.hasAvailableTo
    ensures l.available_to.Some? ==> l.available_to.value == d.availableTo
    ensures l.lease_months_left == ParseInt(d.leaseMonthsLeft)
    ensures l.rent_per_day == parseDouble(d.rentPerDay)
  {
    HousingListing(
      None, None, d.apartmentName, d.apartmentType, d.availability, rentValue,
      if d.apartmentNumber == "" then None else Some(d.apartmentNumber),
      d.leaseType, ParseInt(d.leaseMonthsLeft), d.isTemporary,
      if d.hasAvailableFrom then Some(d.availableFrom) else None,
      if d.hasAvailableTo then Some(d.availableTo) else None,
      parseDouble(d.rentPerDay), urls, None)
  }

  /** A months-left field typed as digits is saved as that number. */
  lemma MonthsLeftSaved(d: ListingDraft, parseDouble: string -> Option<real>, rentValue: real, urls: seq<string>, n: nat)
    requires d.leaseMonthsLeft == NatToString(n) && n <= INT_MAX
    ensures BuildListing(d, parseDouble, rentValue, urls).lease_months_left == Some(n)
  {
    ParseIntRoundTrip(n);
  }

  class HousingListingFormView {
    const client: Client
    var apartmentName: string
    var apartmentType: string
    var availability: string
    var rent: string
    var apartmentNumber: string
    var leaseType: string
    var leaseMonthsLeft: string
    var isTemporary: bool
    var availableFrom: Date
    var availableTo: Date
    var hasAvailableFrom: bool
    var hasAvailableTo: bool
    var rentPerDay: string
    var selectedImages: seq<Photo>
    var isUploading: bool
    var errorMessage: Option<string>
    var showErrorAlert: bool
    var showSuccessAlert: bool

    function Draft(): ListingDraft
      reads this
    {
      ListingDraft(
        apartmentName, apartmentType, availability, rent, apartmentNumber, leaseType,
        leaseMonthsLeft, isTemporary, availableFrom, availableTo, hasAvailableFrom,
        hasAvailableTo, rentPerDay)
    }

    /** The initial field values; `now` is the `Date()` both date pickers start at. */
    constructor (client: Client, now: Date)
      ensures this.client == client
      ensures Draft() == ListingDraft("", "1b1b", "whole", "", "", "new", "", false, now, now, false, false, "")
      ensures selectedImages == [] && !isUploading && errorMessage == None
      ensures !showErrorAlert && !showSuccessAlert
    {
      this.client := client;
      apartmentName := "";
      apartmentType := "1b1b";
      availability := "whole";
      rent := "";
      apartmentNumber := "";
      leaseType := "new";
      leaseMonthsLeft := "";
      isTemporary := false;
      availableFrom := now;
      availableTo := now;
      hasAvailableFrom := false;
      hasAvailableTo := false;
      rentPerDay := "";
      selectedImages := [];
      isUploading := false;
      errorMessage := None;
      showErrorAlert := false;
      showSuccessAlert := false;
    }

    /** The synchronous start of `submitListing`: the guard, then
        `isUploading`. Returns the parsed rent once the guard passes. */
    method StartSubmit(parseDouble: string -> Option<real>) returns (rentValue: Option<real>)
      modifies this
      ensures Draft() == old(Draft()) && selectedImages == old(selectedImages)
      ensures showSuccessAlert == old(showSuccessAlert)
      ensures rentValue.Some? <==> SubmitError(Draft(), parseDouble, |selectedImages|) == None
      ensures rentValue.Some? ==> (rentValue == parseDouble(rent) && isUploading
        && errorMessage == old(errorMessage) && showErrorAlert == old(showErrorAlert))
      ensures rentValue.None? ==> (errorMessage == Some(FILL_REQUIRED) && showErrorAlert
        && isUploading == old(isUploading))
    {
      var error := SubmitError(Draft(), parseDouble, |selectedImages|);
      if error.Some? {
        errorMessage := error;
        showErrorAlert := true;
        return None;
      }
      isUploading := true;
      rentValue := parseDouble(rent);
    }

    /** `saveListing`: insert the row; `saveError` is the insert's error text, if any. */
    method SaveListing(listing: HousingListing, saveError: Option<string>)
      modifies this, client
      ensures client.sent == old(client.sent) + [InsertListing(listing)]
      ensures Draft() == old(Draft()) && selectedImages == old(selectedImages) && !isUploading
      ensures saveError.None? ==> (showSuccessAlert
        && errorMessage == old(errorMessage) && showErrorAlert == old(showErrorAlert))
      ensures saveError.Some? ==> (errorMessage == Some(SAVE_FAILED + saveError.value) && showErrorAlert
        && showSuccessAlert == old(showSuccessAlert))
    {
      client.Send(InsertListing(listing));
      match saveError {
        case None =>
          isUploading := false;
          showSuccessAlert := true;
        case Some(e) =>
          errorMessage := Some(SAVE_FAILED + e);
          showErrorAlert := true;
          isUploading := false;
      }
    }

    /** The completion `submitListing` hands to `uploadImages`. */
    method UploadsFinished(urls: Option<seq<string>>, rentValue: real, parseDouble: string -> Option<real>, saveError: Option<string>)
      modifies this, client
      ensures Draft() == old(Draft()) && selectedImages == old(selectedImages) && !isUploading
      ensures (urls.None? || urls.value == []) ==>
        && client.sent == old(client.sent)
        && errorMessage == Some(UPLOAD_FAILED) && showErrorAlert && showSuccessAlert == old(showSuccessAlert)
      ensures urls.Some? && urls.value != [] ==>
        client.sent == old(client.sent) + [InsertListing(BuildListing(Draft(), parseDouble, rentValue, urls.value))]
      ensures urls.Some? && urls.value != [] && saveError.None? ==>
        showSuccessAlert && errorMessage == old(errorMessage) && showErrorAlert == old(showErrorAlert)
      ensures urls.Some? && urls.value != [] && saveError.Some? ==>
        errorMessage == Some(SAVE_FAILED + saveError.value) && showErrorAlert && showSuccessAlert == old(showSuccessAlert)
    {
      if urls.None? || urls.value == [] {
        errorMessage := Some(UPLOAD_FAILED);
        showErrorAlert := true;
        isUploading := false;
        return;
      }
      var listing := BuildListing(Draft(), parseDouble, rentValue, urls.value);
      SaveListing(listing, saveError);
    }

    /** `submitListing` run to the end: the guard, the uploads (one outcome
        per selected photo) and the insert. */
    method SubmitListing(parseDouble: string -> Option<real>, uploads: seq<PhotoUpload>, saveError: Option<string>)
      requires |uploads| == |selectedImages|
      modifies this, client
      ensures Draft() == old(Draft()) && selectedImages == old(selectedImages)
      ensures SubmitError(Draft(), parseDouble, |selectedImages|).Some? ==>
        && client.sent == old(client.sent) && isUploading == old(isUploading)
        && errorMessage == Some(FILL_REQUIRED) && showErrorAlert && showSuccessAlert == old(showSuccessAlert)
      ensures SubmitError(Draft(), parseDouble, |selectedImages|).None? ==>
        && !isUploading
        && (!AllStored(uploads) ==>
              && client.sent == old(client.sent) + UploadRequests(uploads)
              && errorMessage == Some(UPLOAD_FAILED) && showErrorAlert && showSuccessAlert == old(showSuccessAlert))
        && (AllStored(uploads) ==>
              && client.sent == old(client.sent) + UploadRequests(uploads) +
                   [InsertListing(BuildListing(Draft(), parseDouble, parseDouble(rent).value, StoredUrls(uploads)))]
              && (saveError.None? ==>
                    showSuccessAlert && errorMessage == old(errorMessage) && showErrorAlert == old(showErrorAlert))
              && (saveError.Some? ==>
                    errorMessage == Some(SAVE_FAILED + saveError.value) && showErrorAlert
                    && showSuccessAlert == old(showSuccessAlert)))
    {
      var rentValue := StartSubmit(parseDouble);
      if rentValue.None? {
        return;
      }
      var urls := UploadImages(client, uploads);
      if AllStored(uploads) {
        StoredUrlsComplete(uploads);
        assert urls.value == StoredUrls(uploads);
        assert |urls.value| == |selectedImages| > 0;
      }
      UploadsFinished(urls, rentValue.value, parseDouble, saveError);
    }
  }
}
