# Review feature of the shopping site, modelled in Dafny

The model covers the product-review feature on both sides of the HTTP boundary.

- **Back end.** The `Review` schema is a validity predicate with a `date` default (`ReviewSchema`). The MongoDB collection is an abstract document store: a class holding an ordered sequence of documents with distinct generated ids (`DocumentStore`). The three request handlers are methods over an injected store, and each returns the status code and JSON body it sends (`ReviewController`). The JSON bodies are in `Http`.
- **Client slice.** The review slice is a class `State` with fields `reviews`, `status` and `error`. It has one method per reducer case and a `Dispatch` that routes actions to them. Each async thunk is a function. It maps the outcome of its HTTP call to the sequence of actions it dispatches (`ReviewSlice`).
- **Detail page.** The component state `{size, sizeError, rating, reviewText, showReviewModal}` is a class with one method per event handler. The submit guard, the redirect threshold, the rating clamp, the star counts and size enablement are pure functions (`ProductDetailPage`).

`Scenarios` and `ClientScenarios` are methods whose assertions the verifier proves along whole flows. One flow is create, list, delete, list, delete again. Another is a save with a missing `text`. Another fetches through the slice. Another deletes and then re-fetches through the slice. Another is a failed delete, which leaves the list unchanged.

Behaviour kept as the code has it:
- The create handler takes `productId` from the request body. The path parameter is unused (`ReviewController.AddReview` takes it and ignores it).
- The delete success body is `{ message }` only. The client re-fetches with that body's `productId`, which is undefined, so it requests `/review/undefined`. `ReviewSlice.DeleteResyncKeyUndefined` proves this. `ClientScenarios.DeleteResyncRun` shows the client list ending up empty while a review of the product is still stored.
- The page dispatches the local `addReview` reducer with the wrapper `{ productId, review }`, not the server-backed `createReview`. The wrapper has no top-level `id`, `rating` or `text`, so it is drawn with zero filled stars, and only `removeReview(undefined)` drops it. That removal also keeps every received document, but only because received documents are assumed to carry `id` (see "## Left out").
- Submitting with no logged-in user reads `user.id` on null. That throws before anything is dispatched or reset.
- `addItemToCart` with no user navigates to the login page and still dispatches `addToCart`.
- A required String path fails validation when the value is absent or the empty string. That is how Mongoose's `required` validator treats strings. A required Number path fails only when absent. There is no range check, length bound or uniqueness constraint.
- In `createReview`, any status other than 201 throws an `Error` that has no `response`. The rejection value is then the "server error" text, so the reducer's `'리뷰 추가 실패'` fallback is never reached from the thunk (`ReviewSlice.CreateRejectionNeverFallsBack`).
- In `deleteReview`, a non-200 response throws `new Error(response.error)` with an undefined argument. Its message is the empty string, and that empty string becomes the rejection value.

## Model

| member | source | states |
|---|---|---|
| `ReviewSchema.MissingPaths` | BN-shopping/models/Review.js:6-9 | each required path is reported exactly when its check fails, and only required paths are reported |
| `ReviewSchema.Instantiate` | BN-shopping/models/Review.js:4-12 | the built document carries exactly the supplied fields, the given id, and `date` defaulted to the creation time |
| `ReviewSchema.ValidIffRequiredPresent` | BN-shopping/models/Review.js:6-9 | valid iff productId, userId and text are present non-empty strings and rating is present |
| `ReviewSchema.EachPathRequired` | BN-shopping/models/Review.js:6-9 | dropping any one of the four required paths makes a document invalid |
| `ReviewSchema.RatingUnconstrained` | BN-shopping/models/Review.js:8 | any integer rating (outside 1..5 too) keeps a valid document valid |
| `ReviewSchema.TextUnbounded` | BN-shopping/models/Review.js:9 | any non-empty text, of any length, keeps a valid document valid |
| `ReviewSchema.StoredFieldsValid` | BN-shopping/models/Review.js:6-9 | a stored document's fields validate iff its three strings are non-empty |
| `DocumentStore.IndexOfId` | BN-shopping/controllers/reviewController.js:36 | returns the first position holding the id, or None iff no document has it |
| `DocumentStore.FindById` | BN-shopping/controllers/reviewController.js:36 | a found document is stored and has the id; None iff no stored document has the id |
| `DocumentStore.ForProductExact` | BN-shopping/controllers/reviewController.js:25 | the query result contains exactly the stored documents whose productId equals the key |
| `DocumentStore.ForProductAppend` | BN-shopping/controllers/reviewController.js:25 | the query distributes over concatenation, so results keep store order |
| `DocumentStore.WithoutIdExact` | BN-shopping/controllers/reviewController.js:36 | after deletion exactly the documents with a different id remain |
| `DocumentStore.WithoutAbsentId` | BN-shopping/controllers/reviewController.js:36-39 | deleting an absent id leaves the documents unchanged |
| `DocumentStore.WithoutIdSplice` | BN-shopping/controllers/reviewController.js:36 | with distinct ids, deleting a present id cuts out exactly that one document, the rest in order |
| `DocumentStore.WithoutFreshAppended` | BN-shopping/controllers/reviewController.js:36 | deleting the document just appended with a fresh id restores the previous documents |
| `DocumentStore.WithoutIdKeepsIds` | BN-shopping/controllers/reviewController.js:36 | deletion keeps ids distinct and below the id generator |
| `DocumentStore.ReviewCollection.constructor` | BN-shopping/models/Review.js:14 | a new collection is empty and satisfies the store invariant |
| `DocumentStore.ReviewCollection.Save` | BN-shopping/controllers/reviewController.js:10-11 | saves iff the input validates; a save appends one document with the input's fields, a fresh id and the default date; a failed save changes nothing |
| `DocumentStore.ReviewCollection.Find` | BN-shopping/controllers/reviewController.js:25 | returns exactly the documents whose productId equals the key, in store order |
| `DocumentStore.ReviewCollection.FindByIdAndDelete` | BN-shopping/controllers/reviewController.js:36 | returns the document with the id or None, and leaves exactly the documents with other ids |
| `ReviewController.AddReview` | BN-shopping/controllers/reviewController.js:7-19 | valid body: 201 with the saved document built from the body's fields, and the store grows by exactly that document; invalid body: 500 with "리뷰 저장 실패" and the failing paths, and the store is unchanged |
| `ReviewController.GetReviewsByProduct` | BN-shopping/controllers/reviewController.js:23-26 | 200 with exactly the stored reviews of the product, in store order, an empty list when there are none |
| `ReviewController.DeleteReview` | BN-shopping/controllers/reviewController.js:34-42 | absent id: 404 and the store is unchanged; present id: 200 `{message: "리뷰 삭제 성공"}`, only that document removed, and the id is gone |
| `ReviewController.DeleteTwiceNotFound` | BN-shopping/controllers/reviewController.js:36-39 | after deleting an id no document has it, so a second delete answers 404 |
| `ReviewController.CreateListDelete` | BN-shopping/controllers/reviewController.js:11-42 | a created review is listed under its productId; deleting it restores the other documents and it is no longer listed |
| `ReviewController.CreateNotListedElsewhere` | BN-shopping/controllers/reviewController.js:25 | creating a review for one product leaves every other product's listing unchanged |
| `ReviewSlice.WithoutItemExact` | FN-shopping/src/features/review/reviewSlice.js:84 | `removeReview` keeps exactly the items whose id differs from the payload |
| `ReviewSlice.WithoutItemAppend` | FN-shopping/src/features/review/reviewSlice.js:84 | the filter distributes over concatenation, so survivors keep their order |
| `ReviewSlice.WithoutItemIdempotent` | FN-shopping/src/features/review/reviewSlice.js:84 | removing the same id twice equals removing it once |
| `ReviewSlice.WithoutAppendedItem` | FN-shopping/src/features/review/reviewSlice.js:81-84 | removing the id of an item just added removes it along with the earlier items of that id, and nothing else |
| `ReviewSlice.RemoveUndefinedDropsSubmissions` | FN-shopping/src/features/review/reviewSlice.js:84 | removing an undefined id drops exactly the page's id-less wrappers, given that received documents carry `id` |
| `ReviewSlice.State.constructor` | FN-shopping/src/features/review/reviewSlice.js:6-10 | initial state: no reviews, status idle, no error |
| `ReviewSlice.State.AddReview` | FN-shopping/src/features/review/reviewSlice.js:80-82 | appends the payload as the last item; earlier items, status and error are unchanged |
| `ReviewSlice.State.RemoveReview` | FN-shopping/src/features/review/reviewSlice.js:83-85 | reviews become the id filter of the old list; status and error are unchanged |
| `ReviewSlice.State.FetchPending` | FN-shopping/src/features/review/reviewSlice.js:89-91 | status becomes loading; reviews and error are unchanged |
| `ReviewSlice.State.FetchFulfilled` | FN-shopping/src/features/review/reviewSlice.js:92-95 | status becomes succeeded and reviews are replaced wholesale by the payload; error is not cleared |
| `ReviewSlice.State.FetchRejected` | FN-shopping/src/features/review/reviewSlice.js:96-99 | status becomes failed and error the rejection message; reviews are unchanged |
| `ReviewSlice.State.CreateFulfilled` | FN-shopping/src/features/review/reviewSlice.js:100-102 | appends the server's document; status and error are unchanged |
| `ReviewSlice.State.CreateRejected` | FN-shopping/src/features/review/reviewSlice.js:103-105 | error becomes the payload, or '리뷰 추가 실패' when the payload is falsy; reviews and status are unchanged |
| `ReviewSlice.State.Dispatch` | FN-shopping/src/features/review/reviewSlice.js:76-107 | each handled action has its case's effect; actions without a case (pendings of create and delete, delete settlements, toasts, thunk dispatches) change nothing |
| `ReviewSlice.FetchPathUndefinedCollides` | FN-shopping/src/features/review/reviewSlice.js:38 | the template path cannot tell an undefined key from a product named "undefined": both request `/review/undefined` |
| `ReviewSlice.FetchPathInjective` | FN-shopping/src/features/review/reviewSlice.js:38 | two defined product ids request the same path only if they are equal |
| `ReviewSlice.FetchReviewsRun` | FN-shopping/src/features/review/reviewSlice.js:35-41 | pending first; fulfilled iff the call resolved, with exactly the received documents; otherwise rejected with the thrown message |
| `ReviewSlice.CreateReviewRun` | FN-shopping/src/features/review/reviewSlice.js:16-31 | pending first; fulfilled iff the response status is 201, with the server's document, and rejected otherwise; a non-201 status or a throw without response data rejects with "서버 오류", a throw with response data rejects with that data; every rejection value is truthy |
| `ReviewSlice.DeleteReviewRun` | FN-shopping/src/features/review/reviewSlice.js:44-72 | on status 200: pending, success toast, fetch keyed on the body's productId, fulfilled with its message; any other outcome: pending then one rejection, with the empty message for a non-200 status |
| `ReviewSlice.DeleteResyncOnlyOnSuccess` | FN-shopping/src/features/review/reviewSlice.js:50-66 | a successful delete dispatches exactly one toast and then exactly one re-fetch; a failed one dispatches neither |
| `ReviewSlice.DeleteResyncKeyUndefined` | FN-shopping/src/features/review/reviewSlice.js:64 | against the service's `{ message }` success body the re-fetch key is undefined and it requests `/review/undefined` |
| `ReviewSlice.CreateRejectionNeverFallsBack` | FN-shopping/src/features/review/reviewSlice.js:28 | a rejection from `createReview` always carries a truthy value, never the reducer's fallback text |
| `ProductDetailPage.TrimEmptyIffBlank` | FN-shopping/src/page/ProductDetailPage/ProductDetailPage.js:31 | `trim()` yields "" iff every character is JavaScript white space or a line terminator |
| `ProductDetailPage.SubmitGuard` | FN-shopping/src/page/ProductDetailPage/ProductDetailPage.js:31 | a submit is accepted iff the rating is non-zero and the text has a non-white-space character |
| `ProductDetailPage.ShouldRedirect` | FN-shopping/src/page/ProductDetailPage/ProductDetailPage.js:50-51 | redirect iff the rendered list is non-null and already holds at least four reviews (count + 1 ≥ 5) |
| `ProductDetailPage.ValidRating` | FN-shopping/src/page/ProductDetailPage/ProductDetailPage.js:185-186 | result lies in 0..5; equals an in-range rating; 5 above the range; 0 below it or for a non-number |
| `ProductDetailPage.FilledStars` | FN-shopping/src/page/ProductDetailPage/ProductDetailPage.js:190-192 | at most five, and equal to a received review's rating when it is in 0..5 |
| `ProductDetailPage.EmptyStars` | FN-shopping/src/page/ProductDetailPage/ProductDetailPage.js:193-195 | filled plus empty stars always total five |
| `ProductDetailPage.SubmittedItemShowsNoStars` | FN-shopping/src/page/ProductDetailPage/ProductDetailPage.js:185 | the page's locally added wrapper is drawn with no filled and five empty stars |
| `ProductDetailPage.SizeOptions` | FN-shopping/src/page/ProductDetailPage/ProductDetailPage.js:122-131 | one menu item per enumerated stock key, in key order, each enabled iff its quantity is positive |
| `ProductDetailPage.EachSizeOfferedOnce` | FN-shopping/src/page/ProductDetailPage/ProductDetailPage.js:122-131 | when the keys are the stock object's own keys, every stocked size is offered exactly once, enabled iff its quantity is positive, and nothing else is offered |
| `ProductDetailPage.ProductDetail.constructor` | FN-shopping/src/page/ProductDetailPage/ProductDetailPage.js:17-22 | no size, no size error, rating 0, empty text, modal hidden |
| `ProductDetailPage.ProductDetail.HandleModalClose` | FN-shopping/src/page/ProductDetailPage/ProductDetailPage.js:76-80 | modal hidden, rating 0, text cleared; size state unchanged |
| `ProductDetailPage.ProductDetail.OpenReviewModal` | FN-shopping/src/page/ProductDetailPage/ProductDetailPage.js:140 | modal shown; everything else unchanged |
| `ProductDetailPage.ProductDetail.SetReviewText` | FN-shopping/src/page/ProductDetailPage/ProductDetailPage.js:170 | text becomes the typed value; everything else unchanged |
| `ProductDetailPage.ProductDetail.ClickStar` | FN-shopping/src/page/ProductDetailPage/ProductDetailPage.js:153-159 | rating becomes i + 1, so it lies in 1..5, and star j of the input is then drawn filled iff j ≤ i; everything else unchanged |
| `ProductDetailPage.ProductDetail.HandleReviewSubmit` | FN-shopping/src/page/ProductDetailPage/ProductDetailPage.js:30-58 | rejected: one alert and no state change; no user: nothing happens; accepted: dispatch local `addReview` of `{productId: id, review: {productId: id, userId: user.id, rating, text}}`, then `fetchReviews(id)`, then a redirect iff the threshold holds, and the form is reset |
| `ProductDetailPage.ProductDetail.AddItemToCart` | FN-shopping/src/page/ProductDetailPage/ProductDetailPage.js:60-69 | empty size: set the size error and dispatch nothing; otherwise dispatch `addToCart({id, size})`, preceded by a login redirect when there is no user |
| `ProductDetailPage.ProductDetail.SelectSize` | FN-shopping/src/page/ProductDetailPage/ProductDetailPage.js:71-74 | size becomes the chosen value and the size error is cleared; the review form is unchanged |

## Left out

- Route binding (BN-shopping/routes/review.api.js) is Express plumbing. POST and GET share `/:productId` and DELETE uses `/:id`; the handlers take those parameters as arguments.
- Store and database failures other than validation are not modelled. This covers the 500 branches of the list and delete handlers, connection errors, and the cast error a malformed id would raise. Path ids are already store ids here.
- Mongoose type casting of request values is not modelled. Body fields arrive already typed: a string or absent, a number or absent.
- The raw text of a storage error is represented by the list of schema paths that failed.
- ObjectId generation and `Date.now` are a counter and a caller-supplied timestamp. Document serialization (`_id`, `__v`) is treated as a wire shape that carries `id`.
- ReviewSlice.RemoveUndefinedDropsSubmissions: received documents are assumed to carry `id`, and the lemma's "keeps every received document" holds only under that assumption. The controller sends documents with `res.json`, and Mongoose's default JSON form writes `_id` but not the `id` virtual. Without the assumption, `review.id` is undefined on every received document: `removeReview` with a real id removes nothing, and `removeReview(undefined)` removes every item.
- The `api` HTTP adapter is reduced to its outcome: the response it resolved with, or the thrown value's `response.data` and `message`. ReviewSlice.FetchReviewsRun: the way the toolkit serializes a thrown non-`Error` value into `action.error.message` is reduced to that message string.
- The toast display, `navigate`, `alert`, and the product and cart slices appear only as emitted actions or effects.
- Promise and thunk timing is concurrency and is left out. So is the ordering of overlapping in-flight requests. Each thunk's dispatches are a sequence.
- Console logging is left out.
- The mount effect of the detail page (`getProductDetail(id)` and `fetchReviews(id)` on mount, ProductDetailPage.js:25-28) belongs to the product slice and the component lifecycle, and is not modelled.
- `null` payloads of `removeReview` and `fetchReviews` are not modelled: an action payload `None` is `undefined`. With `null`, `removeReview` would keep the page's wrapper items (`undefined !== null`), and `fetchReviews` would request `/review/null`.
- `rating` is an integer. JavaScript number semantics and non-integer ratings are left out; for those, `Array(validRating)` would throw.
- JSX rendering is left out. That includes the spinner, `currencyFormat`, upper-casing of size labels, the `Array.isArray(reviews)` check and the "no reviews yet" text. Only the predicates and counts above are kept.
