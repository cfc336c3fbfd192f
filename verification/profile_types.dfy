/** The data shapes of the profile API: the profile record, its optional image
    reference, the response envelope, and JavaScript truthiness of the values
    the handlers test with `!x` and `x || y`.
 */
module ProfileTypes {

  /** The conventional Some/None datatype, used for optional envelope members
      and for request fields that may be left out. */
  datatype Option<+T> = None | Some(value: T)

  /** The record's `profileImage?: string | null`: the property left out of
      the object, explicitly null, or a URL string (possibly empty). */
  datatype ImageRef = Undefined | Null | Url(url: string)

  /** The single profile record held by the store. */
  datatype Profile = Profile(
    id: string,
    name: string,
    email: string,
    profileImage: ImageRef,
    createdAt: string,
    updatedAt: string
  )

  /** The response envelope `ApiResponse<Profile>` together with the HTTP
      status the handler attaches to it. */
  datatype ApiResponse = ApiResponse(
    status: nat,
    success: bool,
    data: Option<Profile>,
    error: Option<string>,
    message: Option<string>
  )

  /** Truthiness of a string field that may be missing (null or undefined):
      only a present, non-empty string is truthy. */
  predicate Truthy(s: Option<string>) {
    s.Some? && s.value != ""
  }

  /** Truthiness of a stored image reference. */
  predicate ImageTruthy(image: ImageRef) {
    image.Url? && image.url != ""
  }

  /** An image reference in the form the PUT handler always stores: null or a
      non-empty URL, never undefined and never the empty string. */
  predicate NormalisedImage(image: ImageRef) {
    image.Null? || ImageTruthy(image)
  }

  /** The expression `image || null`: a truthy reference is kept, every falsy
      one (undefined, null, "") becomes null. */
  function OrNull(image: ImageRef): (r: ImageRef)
    ensures NormalisedImage(r)
    ensures ImageTruthy(image) ==> r == image
    ensures !ImageTruthy(image) ==> r == Null
  {
    if ImageTruthy(image) then image else Null
  }

  /** `|| null` changes nothing on a reference that is already normalised, so
      applying it twice is the same as applying it once. */
  lemma OrNullIdempotent(image: ImageRef)
    ensures NormalisedImage(image) <==> OrNull(image) == image
    ensures OrNull(OrNull(image)) == OrNull(image)
  {
  }
}
