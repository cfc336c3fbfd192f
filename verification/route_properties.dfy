/** Properties that relate several handler calls to each other: the image
    rule's outcome classes, repeating an update, PATCH against PUT, and the
    concrete request sequences the repository's clients and scripts send.
 */
module RouteProperties {
  import opened ProfileTypes
  import opened ProfileRoute

  /** A form entry that keeps the prior image: a string or an empty file. */
  predicate KeepsImage(field: FormImage) {
    field.Text? || field == File(0)
  }

  /** The three outcome classes of the PUT image rule, each with both
      directions: the result is the placeholder, null, or the kept prior
      reference, and which one is fixed by the form entry and the prior value
      alone. */
  lemma PutImageOutcomes(prior: ImageRef, field: FormImage)
    ensures PutImage(prior, field) == Null <==>
              field.Absent? || (KeepsImage(field) && !ImageTruthy(prior))
    ensures PutImage(prior, field) == Url(UploadedImage) <==>
              (field.File? && field.size > 0) || (KeepsImage(field) && prior == Url(UploadedImage))
    ensures KeepsImage(field) && ImageTruthy(prior) ==> PutImage(prior, field) == prior
  {
  }

  /** The browser client always sends an image entry (an empty string when no
      file was picked), so a PUT from it never clears an image that is set. */
  lemma BrowserPutKeepsSetImage(store: Profile, name: string, email: string, field: FormImage, now: string)
    requires name != "" && email != ""
    requires !field.Absent?
    requires ImageTruthy(store.profileImage)
    ensures ImageTruthy(Put(store, Some(name), Some(email), field, now).store.profileImage)
  {
  }

  /** A PUT form without any image entry, as the test script sends it,
      clears the stored image. */
  lemma FormWithoutImageClears(store: Profile, name: string, email: string, now: string)
    requires name != "" && email != ""
    ensures Put(store, Some(name), Some(email), Absent, now).store.profileImage == Null
  {
  }

  /** Sending the same PUT twice leaves the record as one PUT at the later
      time would: the image rule is idempotent because `|| null` is. */
  lemma PutRepeatable(store: Profile, name: Option<string>, email: Option<string>, field: FormImage, t1: string, t2: string)
    ensures var once := Put(store, name, email, field, t1).store;
            Put(once, name, email, field, t2) == Put(store, name, email, field, t2)
  {
    OrNullIdempotent(store.profileImage);
  }

  /** Sending the same PATCH twice leaves the record as one PATCH at the
      later time would. */
  lemma PatchRepeatable(store: Profile, name: Option<string>, email: Option<string>, image: JsonImage, t1: string, t2: string)
    ensures var once := Patch(store, name, email, image, t1).store;
            Patch(once, name, email, image, t2) == Patch(store, name, email, image, t2)
  {
  }

  /** A PATCH with neither a truthy name nor a truthy email changes nothing
      but the modification time. */
  lemma EmptyPatchOnlyStamps(store: Profile, name: Option<string>, email: Option<string>, image: JsonImage, now: string)
    requires !Truthy(name) && !Truthy(email)
    ensures Patch(store, name, email, image, now).store == store.(updatedAt := now)
  {
  }

  /** On a record whose image is normalised, a PATCH naming both fields
      stores exactly what a browser PUT without a file stores, whatever image
      the PATCH body carries. */
  lemma PatchAgreesWithFilelessPut(store: Profile, name: string, email: string, image: JsonImage, now: string)
    requires name != "" && email != ""
    requires NormalisedImage(store.profileImage)
    ensures Patch(store, Some(name), Some(email), image, now).store
         == Put(store, Some(name), Some(email), Text(""), now).store
  {
    OrNullIdempotent(store.profileImage);
  }

  /** Why `PatchAgreesWithFilelessPut` needs a normalised image: on any
      record whose image is undefined, PATCH keeps it undefined while PUT
      turns it into null. Such a record is never reachable from the seed
      (`ReachableRecord`), so on the running process the two always agree. */
  lemma PatchDiffersOnUndefinedImage(store: Profile, name: string, email: string, image: JsonImage, now: string)
    requires name != "" && email != ""
    requires store.profileImage == Undefined
    ensures Patch(store, Some(name), Some(email), image, now).store.profileImage == Undefined
    ensures Put(store, Some(name), Some(email), Text(""), now).store.profileImage == Null
  {
  }

  /** A GET after an accepted PUT reads back the name and email as sent. */
  lemma GetAfterPut(store: Profile, name: string, email: string, field: FormImage, now: string)
    requires name != "" && email != ""
    ensures var after := Get(Put(store, Some(name), Some(email), field, now).store).response.data;
            after.Some? && after.value.name == name && after.value.email == email && after.value.updatedAt == now
  {
  }

  /** PUT applies no length or format rule: a one-letter name and an email
      without an at-sign are accepted and stored. */
  lemma PutAcceptsUnvalidatedFields(now: string)
    ensures var t := Put(Seed, Some("J"), Some("invalid-email"), Absent, now);
            t.response.success && t.store.name == "J" && t.store.email == "invalid-email"
  {
  }

  /** A PUT form without an email entry, or with an empty name, is refused
      with status 400 and the fixed message, and the seed record stays. */
  lemma PutRefusesMissingFields(now: string)
    ensures Put(Seed, Some("John Doe"), None, Absent, now)
         == Transition(ApiResponse(400, false, None, Some(RequiredFieldsError), None), Seed)
    ensures Put(Seed, Some(""), Some("x@y.com"), Text(""), now).response.status == 400
    ensures Put(Seed, Some(""), Some("x@y.com"), Text(""), now).store == Seed
  {
  }

  /** On the seed record: a PUT form with no image entry clears the image,
      while the same form from the browser client (an empty image entry)
      keeps the seed image. */
  lemma SeedPutImageScenarios(now: string)
    ensures Put(Seed, Some("John Doe"), Some("john.doe@example.com"), Absent, now).store.profileImage == Null
    ensures Put(Seed, Some("John Doe"), Some("john.doe@example.com"), Text(""), now).store.profileImage == Url(SeedImage)
  {
  }

  /** A PATCH naming only a new name changes the name and keeps the email. */
  lemma PatchNameOnlyScenario(now: string)
    ensures var t := Patch(Seed, Some("Jane Doe Updated"), None, Omitted, now);
            t.response.status == 200 && t.store.name == "Jane Doe Updated" && t.store.email == Seed.email
  {
  }
}
