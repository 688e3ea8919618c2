/** The plain records the views display (utdisa/Models/TeamMember.swift,
    utdisa/Models/Event.swift, utdisa/Models/HousingListing.swift). They carry
    no logic of their own. */
module Records {
  import opened Base

  /** A roster entry. `id` stands for the `UUID()` each instance draws. */
  datatype TeamMember = TeamMember(
    id: Uuid, name: string, position: string, email: string,
    linkedInURL: Option<string>, bio: string)

  /** A calendar entry; only its `id` matters to the events screen. */
  datatype Event = Event(
    id: Uuid, title: string, description: string, date: Date, location: string,
    imageURL: Option<string>, registrationLink: Option<string>)

  /** A row of the `housing_listings` table. The field names are the column
      names, as in the source. `Double` amounts are kept as reals. */
  datatype HousingListing = HousingListing(
    id: Option<Uuid>,
    user_id: Option<Uuid>,
    apartment_name: string,
    apartment_type: string,
    availability: string,
    rent: real,
    apartment_number: Option<string>,
    lease_type: string,
    lease_months_left: Option<int>,
    is_temporary: bool,
    available_from: Option<Date>,
    available_to: Option<Date>,
    rent_per_day: Option<real>,
    photo_urls: seq<string>,
    created_at: Option<Date>)
}
