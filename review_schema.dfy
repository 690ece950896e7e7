/**
 * The review document schema of the back end (BN-shopping/models/Review.js):
 * four required paths, a `date` path that defaults to the creation time,
 * and no range, length or uniqueness constraint.
 */
module ReviewSchema {
  import opened Wrappers

  /** Identifier the store assigns on creation (an ObjectId in the source). */
  type Id = nat

  /** Creation time; the clock (`Date.now`) is supplied by the caller. */
  type Timestamp = int

  /** The fields a create request supplies; `None` is a field that is absent or null. */
  datatype ReviewInput = ReviewInput(
    productId: Option<string>,
    userId: Option<string>,
    rating: Option<int>,
    text: Option<string>)

  /** A persisted review document. */
  datatype Review = Review(
    id: Id,
    productId: string,
    userId: string,
    rating: int,
    text: string,
    date: Timestamp)

  /** The schema paths marked `required: true`, in declaration order. */
  const RequiredPaths: seq<string> := ["productId", "userId", "rating", "text"]

  /** The `required` check of a String path: present and not the empty string. */
  predicate StringPresent(v: Option<string>) {
    v.Some? && v.value != ""
  }

  /** The `required` check of a Number path: present; every number passes. */
  predicate NumberPresent(v: Option<int>) {
    v.Some?
  }

  /** The required paths whose check fails, in schema order (the validation error's contents). */
  function MissingPaths(input: ReviewInput): (missing: seq<string>)
    ensures forall p :: p in missing ==> p in RequiredPaths
    ensures "productId" in missing <==> !StringPresent(input.productId)
    ensures "userId" in missing <==> !StringPresent(input.userId)
    ensures "rating" in missing <==> !NumberPresent(input.rating)
    ensures "text" in missing <==> !StringPresent(input.text)
  {
    (if StringPresent(input.productId) then [] else ["productId"])
    + (if StringPresent(input.userId) then [] else ["userId"])
    + (if NumberPresent(input.rating) then [] else ["rating"])
    + (if StringPresent(input.text) then [] else ["text"])
  }

  /** A document passes validation when no required path fails. */
  predicate IsValid(input: ReviewInput) {
    MissingPaths(input) == []
  }

  /** The fields of a stored document, as a create request would have supplied them. */
  function InputOf(r: Review): ReviewInput {
    ReviewInput(Some(r.productId), Some(r.userId), Some(r.rating), Some(r.text))
  }

  /** The document `new Review(input)` builds: given fields copied, `date` defaulted to `now`. */
  function Instantiate(input: ReviewInput, id: Id, now: Timestamp): (r: Review)
    requires IsValid(input)
    ensures InputOf(r) == input
    ensures r.id == id && r.date == now
  {
    Review(id, input.productId.value, input.userId.value, input.rating.value, input.text.value, now)
  }

  /** Validity is exactly: all four required paths present, the three strings non-empty. */
  lemma ValidIffRequiredPresent(input: ReviewInput)
    ensures IsValid(input) <==>
      StringPresent(input.productId) && StringPresent(input.userId)
      && NumberPresent(input.rating) && StringPresent(input.text)
  {
  }

  /** Every required path is needed on its own: dropping any one of them invalidates the document. */
  lemma EachPathRequired(input: ReviewInput)
    ensures !IsValid(input.(productId := None))
    ensures !IsValid(input.(userId := None))
    ensures !IsValid(input.(rating := None))
    ensures !IsValid(input.(text := None))
  {
  }

  /** `rating` has no range constraint: any number may replace a valid rating, 0, -3 and 42 included. */
  lemma RatingUnconstrained(input: ReviewInput, n: int)
    requires IsValid(input)
    ensures IsValid(input.(rating := Some(n)))
  {
  }

  /** `text` has no length bound: any non-empty text may replace a valid one. */
  lemma TextUnbounded(input: ReviewInput, t: string)
    requires IsValid(input) && t != ""
    ensures IsValid(input.(text := Some(t)))
  {
  }

  /** A stored document's fields are valid again exactly when its three strings are non-empty. */
  lemma StoredFieldsValid(r: Review)
    ensures IsValid(InputOf(r)) <==> r.productId != "" && r.userId != "" && r.text != ""
  {
  }
}
