/** The `/api/profile` route: a single in-memory profile record and the GET,
    PUT and PATCH handlers that read and replace it. Each handler is a pure
    transition from the current record, the parsed request and the clock
    reading `now` to the response and the record stored afterwards.
 */
module ProfileRoute {
  import opened ProfileTypes

  /** The image URL of the record the store starts with. */
  const SeedImage: string := "https://bonzai.iodigital.com/images/677fa8df0ca13e1b58cf4fa1/3f1ed94f-f25e-40af-816d-a4f1d002bb73-image_edit_oai_toolu_vrtx_01DoXseZ1k5EtUSXJSH7szgM_img_3Lgy22kc53A-XgVlDFLo6.png"

  /** The fixed URL that stands in for an uploaded image file. */
  const UploadedImage: string := "https://bonzai.iodigital.com/images/677fa8df0ca13e1b58cf4fa1/7897fe5c-439f-4aa4-b9cb-e23194141346-image_edit_oai_toolu_vrtx_01NEhvsUbjyjHcP5SMydthqK_img_O1UX8392L40STniGkvHsp.png"

  /** The record the store holds when the process starts. */
  const Seed: Profile := Profile(
    "1",
    "John Doe",
    "john.doe@example.com",
    Url(SeedImage),
    "2024-01-15T10:30:00Z",
    "2024-01-20T14:45:00Z"
  )

  const RequiredFieldsError: string := "Name and email are required"
  const UpdatedMessage: string := "Profile updated successfully"
  const UpdateFailedError: string := "Failed to update profile"

  /** The `profileImage` entry of a PUT form: missing from the form (the form
      lookup yields null), a plain string entry, or a file of `size` bytes. */
  datatype FormImage = Absent | Text(text: string) | File(size: nat)

  /** The `profileImage` member of a PATCH JSON body: left out, null, a
      string, or any other JSON object (a browser `File` serialises to `{}`). */
  datatype JsonImage = Omitted | JsonNull | JsonString(s: string) | JsonObject

  /** What one handler call produces: the response and the record stored
      after the call. */
  datatype Transition = Transition(response: ApiResponse, store: Profile)

  predicate JsonTruthy(image: JsonImage) {
    image.JsonObject? || (image.JsonString? && image.s != "")
  }

  /** GET: answers with the stored record and stores nothing. */
  function Get(store: Profile): (t: Transition)
    ensures t.store == store
    ensures t.response.status == 200 && t.response.success
    ensures t.response.data == Some(store)
    ensures t.response.error.None? && t.response.message.None?
  {
    Transition(ApiResponse(200, true, Some(store), None, None), store)
  }

  /** The image a successful PUT stores. A non-empty file is replaced by the
      placeholder URL; an entry missing from the form clears the image; a
      string entry or an empty file keeps the prior image, with a falsy prior
      reference turned into null. */
  function PutImage(prior: ImageRef, field: FormImage): (r: ImageRef)
    ensures NormalisedImage(r)
    ensures field.File? && field.size > 0 ==> r == Url(UploadedImage)
    ensures field.Absent? ==> r == Null
    ensures field.Text? || field == File(0) ==> r == OrNull(prior)
  {
    var current := OrNull(prior);
    // a string entry has no `size`, so only a file of positive size uploads
    if field.File? && field.size > 0 then Url(UploadedImage)
    else if field.Absent? then Null
    else current
  }

  /** PUT: a full update from a multipart form. The only check is that name
      and email are present and non-empty; no length or format rule applies.
      On success name and email are stored exactly as sent, the image follows
      `PutImage`, the id and creation time are kept, and the modification time
      becomes `now`. */
  function Put(store: Profile, name: Option<string>, email: Option<string>, image: FormImage, now: string): (t: Transition)
    ensures t.response.success <==> Truthy(name) && Truthy(email)
    ensures !t.response.success ==>
              && t.store == store
              && t.response == ApiResponse(400, false, None, Some(RequiredFieldsError), None)
    ensures t.response.success ==>
              && t.response.status == 200
              && t.response.data == Some(t.store)
              && t.response.message == Some(UpdatedMessage)
              && t.response.error.None?
    ensures t.response.success ==>
              && t.store.id == store.id
              && t.store.name == name.value
              && t.store.email == email.value
              && t.store.profileImage == PutImage(store.profileImage, image)
              && t.store.createdAt == store.createdAt
              && t.store.updatedAt == now
  {
    if !Truthy(name) || !Truthy(email) then
      Transition(ApiResponse(400, false, None, Some(RequiredFieldsError), None), store)
    else
      var updated := store.(
        name := name.value,
        email := email.value,
        profileImage := PutImage(store.profileImage, image),
        updatedAt := now);
      Transition(ApiResponse(200, true, Some(updated), None, Some(UpdatedMessage)), updated)
  }

  /** PATCH: a partial update from a JSON body. It never fails: a truthy name
      or email replaces the stored one, a missing or empty one keeps it, the
      image is kept whatever the body holds, and the modification time
      becomes `now` even when nothing else changes. */
  function Patch(store: Profile, name: Option<string>, email: Option<string>, image: JsonImage, now: string): (t: Transition)
    ensures t.response.success && t.response.status == 200
    ensures t.response.data == Some(t.store)
    ensures t.response.message == Some(UpdatedMessage) && t.response.error.None?
    ensures t.store.id == store.id && t.store.createdAt == store.createdAt
    ensures t.store.updatedAt == now
    ensures t.store.profileImage == store.profileImage
    ensures Truthy(name) ==> t.store.name == name.value
    ensures !Truthy(name) ==> t.store.name == store.name
    ensures Truthy(email) ==> t.store.email == email.value
    ensures !Truthy(email) ==> t.store.email == store.email
  {
    var updated := store.(
      name := if Truthy(name) then name.value else store.name,
      email := if Truthy(email) then email.value else store.email,
      // both arms of the source's conditional pick the stored image
      profileImage := if JsonTruthy(image) then store.profileImage else store.profileImage,
      updatedAt := now);
    Transition(ApiResponse(200, true, Some(updated), None, Some(UpdatedMessage)), updated)
  }

  /** PATCH whose JSON body is the literal `null`: reading `body.name`
      throws, the handler's catch answers 500 with a fixed message, and
      nothing is stored. (Any other JSON value reads missing members as
      undefined and goes through `Patch`.) */
  function PatchNullBody(store: Profile): (t: Transition)
    ensures t.store == store
    ensures !t.response.success && t.response.status == 500
    ensures t.response.error == Some(UpdateFailedError)
    ensures t.response.data.None? && t.response.message.None?
  {
    Transition(ApiResponse(500, false, None, Some(UpdateFailedError), None), store)
  }

  /** One parsed request to the route. A PATCH body is either an object,
      whose name, email and image members are read, or `null`. */
  datatype Request =
    | GetRequest
    | PutRequest(name: Option<string>, email: Option<string>, image: FormImage)
    | PatchRequest(patchName: Option<string>, patchEmail: Option<string>, patchImage: JsonImage)
    | PatchNull

  /** A request is a mutation that the route accepts: every PATCH with an
      object body, and a PUT that names both a name and an email. */
  predicate Mutates(request: Request) {
    match request
    case GetRequest => false
    case PutRequest(name, email, _) => Truthy(name) && Truthy(email)
    case PatchRequest(_, _, _) => true
    case PatchNull => false
  }

  /** Dispatch on the request's method. */
  function Handle(store: Profile, request: Request, now: string): Transition
  {
    match request
    case GetRequest => Get(store)
    case PutRequest(name, email, image) => Put(store, name, email, image, now)
    case PatchRequest(name, email, image) => Patch(store, name, email, image, now)
    case PatchNull => PatchNullBody(store)
  }

  /** Whatever the request, the id and the creation time survive, a
      normalised image stays normalised, a rejected, failed or read-only
      request stores nothing, an accepted mutation stamps `now`, and a successful
      response carries the record now stored. */
  lemma HandleKeepsInvariants(store: Profile, request: Request, now: string)
    ensures var t := Handle(store, request, now);
            && t.store.id == store.id && t.store.createdAt == store.createdAt
            && (NormalisedImage(store.profileImage) ==> NormalisedImage(t.store.profileImage))
            && (t.response.success ==> t.response.data == Some(t.store))
            && (Mutates(request) ==> t.response.success && t.store.updatedAt == now)
            && (!Mutates(request) ==> t.store == store)
  {
  }
}
