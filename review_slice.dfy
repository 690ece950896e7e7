/**
 * The client's review slice (FN-shopping/src/features/review/reviewSlice.js): the state
 * `{ reviews, status, error }`, its reducer cases, and what each async thunk dispatches
 * for a given outcome of its HTTP call.
 */
module ReviewSlice {
  import opened Wrappers
  import opened ReviewSchema
  import opened Http

  datatype Status = Idle | Loading | Succeeded | Failed

  /** The review object the detail page builds before dispatching it. */
  datatype Submission = Submission(productId: string, userId: string, rating: int, text: string)

  /** An element of `state.reviews`. */
  datatype Item =
    /** A review document as the service sent it. */
    | Received(doc: Review)
    /** The `{ productId, review }` wrapper the detail page passes to `addReview`. */
    | Submitted(productId: string, submission: Submission)

  /** The item's `id` property; the page's wrapper object has none. */
  function ItemId(item: Item): Option<Id> {
    match item
    case Received(d) => Some(d.id)
    case Submitted(_, _) => None
  }

  /** A value stored in `state.error`: a string, or a response body object. */
  datatype ErrorValue = Text(text: string) | Data(body: Body)

  /** JavaScript truthiness of an optional error value: `None` (`undefined` or `null`) and `""` are falsy, objects are truthy. */
  predicate Truthy(v: Option<ErrorValue>) {
    match v
    case None => false
    case Some(Text(s)) => s != ""
    case Some(Data(_)) => true
  }

  /** What the slice and its thunks dispatch. */
  datatype Action =
    | AddReview(item: Item)
    /** `None` is an `undefined` payload. */
    | RemoveReview(reviewId: Option<Id>)
    /** `None` is an `undefined` product id. */
    | FetchPending(productId: Option<string>)
    | FetchFulfilled(fetched: seq<Item>)
    | FetchRejected(errorMessage: string)
    | CreatePending
    | CreateFulfilled(created: Item)
    | CreateRejected(reason: Option<ErrorValue>)
    | DeletePending
    /** `None` is an `undefined` message. */
    | DeleteFulfilled(result: Option<string>)
    | DeleteRejected(failure: ErrorValue)
    /** `showToastMessage(...)`, handled by another slice. */
    | ShowToast(message: string, kind: string)
    /** Dispatch of the `fetchReviews` thunk itself; the thunk middleware runs it. `None` is an `undefined` key. */
    | FetchReviews(productId: Option<string>)

  const CreateFailed := "리뷰 추가 실패"
  const ServerError := "서버 오류"
  const DeleteDone := "리뷰 삭제 완료"

  /**
   * `state.reviews.filter((review) => review.id !== reviewId)`. A `None` payload is
   * `undefined` only; a `null` payload is not modelled.
   */
  function WithoutItem(items: seq<Item>, reviewId: Option<Id>): seq<Item> {
    if items == [] then []
    else (if ItemId(items[0]) != reviewId then [items[0]] else []) + WithoutItem(items[1..], reviewId)
  }

  /** The filter keeps exactly the items whose id differs from `reviewId`. */
  lemma {:induction false} WithoutItemExact(items: seq<Item>, reviewId: Option<Id>)
    ensures forall x :: x in WithoutItem(items, reviewId) <==> x in items && ItemId(x) != reviewId
  {
    if items != [] {
      WithoutItemExact(items[1..], reviewId);
      assert items == [items[0]] + items[1..];
    }
  }

  /** The filter distributes over concatenation, so survivors keep their original order. */
  lemma {:induction false} WithoutItemAppend(a: seq<Item>, b: seq<Item>, reviewId: Option<Id>)
    ensures WithoutItem(a + b, reviewId) == WithoutItem(a, reviewId) + WithoutItem(b, reviewId)
  {
    if a == [] {
      assert a + b == b;
    } else {
      assert (a + b)[1..] == a[1..] + b;
      WithoutItemAppend(a[1..], b, reviewId);
    }
  }

  /** Removing an id twice is the same as removing it once. */
  lemma {:induction false} WithoutItemIdempotent(items: seq<Item>, reviewId: Option<Id>)
    ensures WithoutItem(WithoutItem(items, reviewId), reviewId) == WithoutItem(items, reviewId)
  {
    if items != [] {
      WithoutItemIdempotent(items[1..], reviewId);
      var head := if ItemId(items[0]) != reviewId then [items[0]] else [];
      WithoutItemAppend(head, WithoutItem(items[1..], reviewId), reviewId);
      if head != [] {
        assert head[1..] == [];
      }
    }
  }

  /** Removing the id of an item just appended removes it, and leaves the rest as removal alone would. */
  lemma WithoutAppendedItem(items: seq<Item>, x: Item)
    ensures WithoutItem(items + [x], ItemId(x)) == WithoutItem(items, ItemId(x))
  {
    WithoutItemAppend(items, [x], ItemId(x));
    assert [x][1..] == [];
  }

  /** `removeReview(undefined)` drops every wrapper the page added and keeps every received document. */
  lemma RemoveUndefinedDropsSubmissions(items: seq<Item>)
    ensures forall x :: x in WithoutItem(items, None) <==> x in items && x.Received?
  {
  }

  /** The slice's state, updated in place by the reducer cases. */
  class State {
    var reviews: seq<Item>
    var status: Status
    /** `None` is the `null` of `initialState`; the reducers never tell it from `undefined`. */
    var error: Option<ErrorValue>

    /** `initialState`. */
    constructor ()
      ensures reviews == [] && status == Idle && error == None
    {
      reviews := [];
      status := Idle;
      error := None;
    }

    /** `addReview`: push the payload. */
    method AddReview(item: Item)
      modifies this
      ensures reviews == old(reviews) + [item]
      ensures status == old(status) && error == old(error)
    {
      reviews := reviews + [item];
    }

    /** `removeReview`: keep the reviews whose id differs from the payload. */
    method RemoveReview(reviewId: Option<Id>)
      modifies this
      ensures reviews == WithoutItem(old(reviews), reviewId)
      ensures status == old(status) && error == old(error)
    {
      reviews := WithoutItem(reviews, reviewId);
    }

    /** `fetchReviews.pending`. */
    method FetchPending()
      modifies this
      ensures status == Loading
      ensures reviews == old(reviews) && error == old(error)
    {
      status := Loading;
    }

    /** `fetchReviews.fulfilled`: replace the list wholesale; `error` is kept. */
    method FetchFulfilled(fetched: seq<Item>)
      modifies this
      ensures status == Succeeded && reviews == fetched
      ensures error == old(error)
    {
      status := Succeeded;
      reviews := fetched;
    }

    /** `fetchReviews.rejected`. */
    method FetchRejected(errorMessage: string)
      modifies this
      ensures status == Failed && error == Some(Text(errorMessage))
      ensures reviews == old(reviews)
    {
      status := Failed;
      error := Some(Text(errorMessage));
    }

    /** `createReview.fulfilled`: push the server's document. */
    method CreateFulfilled(created: Item)
      modifies this
      ensures reviews == old(reviews) + [created]
      ensures status == old(status) && error == old(error)
    {
      reviews := reviews + [created];
    }

    /** `createReview.rejected`: `error` is the payload, or the fallback message when it is falsy. */
    method CreateRejected(reason: Option<ErrorValue>)
      modifies this
      ensures Truthy(reason) ==> error == reason
      ensures !Truthy(reason) ==> error == Some(Text(CreateFailed))
      ensures reviews == old(reviews) && status == old(status)
    {
      error := if Truthy(reason) then reason else Some(Text(CreateFailed));
    }

    /** The slice reducer: route an action to its case; actions without a case change nothing. */
    method Dispatch(a: Action)
      modifies this
      ensures a.AddReview? || a.CreateFulfilled? ==>
        reviews == old(reviews) + [if a.AddReview? then a.item else a.created]
        && status == old(status) && error == old(error)
      ensures a.RemoveReview? ==>
        reviews == WithoutItem(old(reviews), a.reviewId) && status == old(status) && error == old(error)
      ensures a.FetchPending? ==> status == Loading && reviews == old(reviews) && error == old(error)
      ensures a.FetchFulfilled? ==> status == Succeeded && reviews == a.fetched && error == old(error)
      ensures a.FetchRejected? ==>
        status == Failed && error == Some(Text(a.errorMessage)) && reviews == old(reviews)
      ensures a.CreateRejected? ==>
        error == (if Truthy(a.reason) then a.reason else Some(Text(CreateFailed)))
        && reviews == old(reviews) && status == old(status)
      ensures (a.CreatePending? || a.DeletePending? || a.DeleteFulfilled? || a.DeleteRejected?
               || a.ShowToast? || a.FetchReviews?) ==>
        reviews == old(reviews) && status == old(status) && error == old(error)
    {
      match a
      case AddReview(item) => AddReview(item);
      case RemoveReview(reviewId) => RemoveReview(reviewId);
      case FetchPending(_) => FetchPending();
      case FetchFulfilled(fetched) => FetchFulfilled(fetched);
      case FetchRejected(m) => FetchRejected(m);
      case CreateFulfilled(created) => CreateFulfilled(created);
      case CreateRejected(reason) => CreateRejected(reason);
      case _ =>
    }
  }

  /**
   * The outcome of an HTTP call made through the client's `api` adapter: a response it
   * resolved with, or the value it threw, seen through its `response.data` and `message`.
   */
  datatype ApiResult<T> =
    | Responded(status: int, data: T)
    /** `responseData` is `None` when the thrown value has no `response`, so `response?.data` is `undefined`. */
    | Threw(responseData: Option<Body>, message: string)

  /** The `productId` property of a response body object. */
  function ProductIdOf(b: Body): Option<string> {
    match b
    case Doc(r) => Some(r.productId)
    case _ => None
  }

  /** The `message` property of a response body object. */
  function MessageOf(b: Body): Option<string> {
    match b
    case Message(m) => Some(m)
    case ErrorReport(m, _) => Some(m)
    case _ => None
  }

  /**
   * How a template literal renders an optional value; `None` is `undefined` only
   * (`${undefined}` is "undefined"; a `null` value is not modelled).
   */
  function Interpolated(v: Option<string>): string {
    match v
    case Some(s) => s
    case None => "undefined"
  }

  /** The path `fetchReviews(productId)` requests. */
  function FetchPath(productId: Option<string>): string {
    "/review/" + Interpolated(productId)
  }

  /** The request path cannot tell an undefined key from a product named "undefined". */
  lemma FetchPathUndefinedCollides()
    ensures FetchPath(None) == FetchPath(Some("undefined"))
  {
  }

  /** Distinct defined product ids request distinct paths. */
  lemma FetchPathInjective(p: string, q: string)
    requires FetchPath(Some(p)) == FetchPath(Some(q))
    ensures p == q
  {
    assert p == FetchPath(Some(p))[8..];
    assert q == FetchPath(Some(q))[8..];
  }

  /** The actions `fetchReviews(productId)` dispatches: pending, then fulfilled or rejected. */
  function FetchReviewsRun(productId: Option<string>, result: ApiResult<seq<Review>>): (acts: seq<Action>)
    ensures |acts| == 2 && acts[0] == FetchPending(productId)
    ensures acts[1].FetchFulfilled? <==> result.Responded?
    ensures result.Responded? ==>
      |acts[1].fetched| == |result.data|
      && forall i :: 0 <= i < |result.data| ==> acts[1].fetched[i] == Received(result.data[i])
    ensures result.Threw? ==> acts[1] == FetchRejected(result.message)
  {
    match result
    case Responded(_, docs) => [FetchPending(productId), FetchFulfilled(seq(|docs|, i requires 0 <= i < |docs| => Received(docs[i])))]
    case Threw(_, m) => [FetchPending(productId), FetchRejected(m)]
  }

  /**
   * The actions `createReview` dispatches: fulfilled only on status 201; any other status
   * throws an error without a `response`, whose rejection value is the "server error" text.
   */
  function CreateReviewRun(result: ApiResult<Review>): (acts: seq<Action>)
    ensures |acts| == 2 && acts[0] == CreatePending
    ensures acts[1].CreateFulfilled? <==> result.Responded? && result.status == 201
    ensures acts[1].CreateFulfilled? ==> acts[1].created == Received(result.data)
    ensures acts[1].CreateRejected? ==> Truthy(acts[1].reason)
    ensures !(result.Responded? && result.status == 201) ==> acts[1].CreateRejected?
    ensures (result.Responded? && result.status != 201) || (result.Threw? && result.responseData.None?) ==>
      acts[1] == CreateRejected(Some(Text(ServerError)))
    ensures result.Threw? && result.responseData.Some? ==>
      acts[1] == CreateRejected(Some(Data(result.responseData.value)))
  {
    var settle := match result
      case Responded(status, r) =>
        if status != 201 then CreateRejected(Some(Text(ServerError))) else CreateFulfilled(Received(r))
      case Threw(Some(body), _) => CreateRejected(Some(Data(body)))
      case Threw(None, _) => CreateRejected(Some(Text(ServerError)));
    [CreatePending, settle]
  }

  /**
   * The actions `deleteReview` dispatches. On status 200: a success toast, then the
   * `fetchReviews` thunk keyed on the response body's `productId`, then fulfilled with its
   * `message`. Any other status throws `new Error(undefined)`, whose message is empty.
   */
  function DeleteReviewRun(result: ApiResult<Body>): (acts: seq<Action>)
    ensures 2 <= |acts| && acts[0] == DeletePending
    ensures result.Responded? && result.status == 200 ==>
      acts == [DeletePending, ShowToast(DeleteDone, "success"),
                FetchReviews(ProductIdOf(result.data)), DeleteFulfilled(MessageOf(result.data))]
    ensures !(result.Responded? && result.status == 200) ==>
      |acts| == 2 && acts[1].DeleteRejected?
    ensures result.Responded? && result.status != 200 ==> acts[1] == DeleteRejected(Text(""))
    ensures result.Threw? ==>
      acts[1] == DeleteRejected(match result.responseData
        case Some(b) => Data(b)
        case None => Text(result.message))
  {
    match result
    case Responded(status, b) =>
      if status != 200 then [DeletePending, DeleteRejected(Text(""))]
      else [DeletePending, ShowToast(DeleteDone, "success"), FetchReviews(ProductIdOf(b)), DeleteFulfilled(MessageOf(b))]
    case Threw(Some(b), _) => [DeletePending, DeleteRejected(Data(b))]
    case Threw(None, m) => [DeletePending, DeleteRejected(Text(m))]
  }

  /** Counts the `fetchReviews` thunk dispatches in a sequence of actions. */
  function CountFetches(acts: seq<Action>): nat {
    if acts == [] then 0 else (if acts[0].FetchReviews? then 1 else 0) + CountFetches(acts[1..])
  }

  /** Counts the toasts in a sequence of actions. */
  function CountToasts(acts: seq<Action>): nat {
    if acts == [] then 0 else (if acts[0].ShowToast? then 1 else 0) + CountToasts(acts[1..])
  }

  /**
   * A successful delete dispatches exactly one toast and then exactly one re-fetch;
   * a failed one dispatches neither.
   */
  lemma DeleteResyncOnlyOnSuccess(result: ApiResult<Body>)
    ensures var acts := DeleteReviewRun(result);
      if result.Responded? && result.status == 200 then
        CountToasts(acts) == 1 && CountFetches(acts) == 1 && acts[1].ShowToast? && acts[2].FetchReviews?
      else
        CountToasts(acts) == 0 && CountFetches(acts) == 0
  {
    var acts := DeleteReviewRun(result);
    if result.Responded? && result.status == 200 {
      assert acts[1..] == [acts[1], acts[2], acts[3]];
      assert acts[1..][1..] == [acts[2], acts[3]];
      assert acts[1..][1..][1..] == [acts[3]];
      assert acts[1..][1..][1..][1..] == [];
      assert CountToasts(acts[1..][1..][1..]) == 0 && CountFetches(acts[1..][1..][1..]) == 0;
      assert CountToasts(acts[1..][1..]) == 0 && CountFetches(acts[1..][1..]) == 1;
      assert CountToasts(acts[1..]) == 1 && CountFetches(acts[1..]) == 1;
    } else {
      assert acts[1..] == [acts[1]];
      assert acts[1..][1..] == [];
      assert CountToasts(acts[1..]) == 0 && CountFetches(acts[1..]) == 0;
    }
  }

  /**
   * Against the service's delete success body `{ message }`, the re-fetch is keyed on an
   * undefined productId, so it requests `/review/undefined`.
   */
  lemma DeleteResyncKeyUndefined(message: string)
    ensures var acts := DeleteReviewRun(Responded(200, Message(message)));
      acts[2] == FetchReviews(None) && FetchPath(acts[2].productId) == "/review/undefined"
  {
  }

  /** The "add failed" fallback is never reached from `createReview`: its rejection value is always truthy. */
  lemma CreateRejectionNeverFallsBack(result: ApiResult<Review>)
    ensures var settle := CreateReviewRun(result)[1];
      settle.CreateRejected? ==> Truthy(settle.reason) && settle.reason != Some(Text(CreateFailed))
  {
  }
}
