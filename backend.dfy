/** The hosted backend client (`SupabaseManager.shared.client`), reduced to a
    record of the requests the app sends that change remote state or carry
    credentials. What each request returns is not decided here: the handlers
    that send a request receive its outcome as a parameter. */
module Backend {
  import opened Records

  /** The row inserted into `profiles` during registration. */
  datatype ProfileRow = ProfileRow(user_id: string, full_name: string, phone_number: string)

  datatype Request =
    | SignIn(email: string, password: string)
    | SignUp(email: string, password: string)
    | SignOut
    | InsertProfile(row: ProfileRow)
    | UploadPhoto(bucket: string, path: string)
    | InsertListing(listing: HousingListing)

  class Client {
    /** Every request sent so far, oldest first. */
    var sent: seq<Request>

    constructor ()
      ensures sent == []
    {
      sent := [];
    }

    method Send(r: Request)
      modifies this
      ensures sent == old(sent) + [r]
    {
      sent := sent + [r];
    }
  }
}
