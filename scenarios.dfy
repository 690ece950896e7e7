/** End-to-end flows of the review service against a fresh collection, whose assertions the verifier proves. */
module Scenarios {
  import opened Wrappers
  import opened ReviewSchema
  import opened Http
  import opened DocumentStore
  import opened ReviewController

  /** Create, list, delete, list again, delete again. */
  method CreateListDeleteRun() {
    var store := new ReviewCollection();
    var created := AddReview(store, "p1", ReviewInput(Some("p1"), Some("u1"), Some(5), Some("great")), 1000);
    ValidIffRequiredPresent(ReviewInput(Some("p1"), Some("u1"), Some(5), Some("great")));
    assert created.status == 201;
    var r := created.body.review;
    assert r.productId == "p1" && r.text == "great" && r.date == 1000;
    assert store.docs == [r];

    var listed := GetReviewsByProduct(store, "p1");
    assert listed.status == 200 && listed.body.reviews == [r];

    var deleted := DeleteReview(store, r.id);
    assert deleted == Response(200, Message("리뷰 삭제 성공"));
    assert store.docs == [];

    var again := GetReviewsByProduct(store, "p1");
    assert again == Response(200, Docs([]));

    var missing := DeleteReview(store, r.id);
    assert missing.status == 404 && store.docs == [];
  }

  /** A create lacking its text answers 500 and leaves the collection empty. */
  method MissingTextRun() {
    var store := new ReviewCollection();
    var input := ReviewInput(Some("p1"), Some("u1"), Some(5), None);
    var resp := AddReview(store, "p1", input, 0);
    assert MissingPaths(input) == ["text"];
    assert resp == Response(500, ErrorReport("리뷰 저장 실패", ["text"]));
    var listed := GetReviewsByProduct(store, "p1");
    assert listed.body.reviews == [];
  }
}

/** End-to-end flows of the client slice against the review service, whose assertions the verifier proves. */
module ClientScenarios {
  import opened Wrappers
  import opened ReviewSchema
  import opened Http
  import opened DocumentStore
  import ReviewController
  import opened ReviewSlice

  /** A normal fetch goes idle, loading, succeeded and the list is exactly the server's documents. */
  method FetchRun() {
    var store := new ReviewCollection();
    var created := ReviewController.AddReview(store, "p1", ReviewInput(Some("p1"), Some("u1"), Some(4), Some("good")), 7);
    ValidIffRequiredPresent(ReviewInput(Some("p1"), Some("u1"), Some(4), Some("good")));
    var r := created.body.review;
    var listed := ReviewController.GetReviewsByProduct(store, "p1");
    assert listed.body.reviews == [r];

    var state := new State();
    assert state.status == Idle;
    var acts := FetchReviewsRun(Some("p1"), Responded(listed.status, listed.body.reviews));
    state.Dispatch(acts[0]);
    assert state.status == Loading;
    state.Dispatch(acts[1]);
    assert state.status == Succeeded && state.reviews == [Received(r)] && state.error == None;
  }

  /**
   * After a successful delete the follow-up fetch asks for product "undefined": with one
   * review of "p1" still stored, the client's list ends up empty.
   */
  method DeleteResyncRun(store: ReviewCollection, r1: Review, r2: Review)
    requires store.Valid() && store.docs == [r1, r2]
    requires r1.productId == "p1" && r2.productId == "p1"
    modifies store
  {
    assert r1.id != r2.id;
    assert [r1, r2][1..] == [r2] && [r2][1..] == [];
    assert WithoutId([r2], r1.id) == [r2] + WithoutId([], r1.id);
    assert WithoutId([r1, r2], r1.id) == [] + WithoutId([r2], r1.id);
    assert ForProduct([r2], "undefined") == [] + ForProduct([], "undefined");

    var state := new State();
    state.FetchFulfilled([Received(r1), Received(r2)]);

    assert IndexOfId([r1, r2], r1.id) == Some(0);
    var deleted := ReviewController.DeleteReview(store, r1.id);
    assert deleted == Response(200, Message(ReviewController.Deleted));
    assert store.docs == [r2];

    var acts := DeleteReviewRun(Responded(deleted.status, deleted.body));
    assert acts[2] == FetchReviews(None);
    var resync := ReviewController.GetReviewsByProduct(store, Interpolated(acts[2].productId));
    assert resync.body.reviews == [];
    var fetchActs := FetchReviewsRun(acts[2].productId, Responded(resync.status, resync.body.reviews));
    state.Dispatch(fetchActs[0]);
    state.Dispatch(fetchActs[1]);
    assert state.reviews == [] && state.status == Succeeded;
    assert ForProduct([r2], "p1") == [r2] + ForProduct([], "p1");
    assert ForProduct(store.docs, "p1") == [r2];
  }

  /** A failed delete dispatches only its rejection, which leaves the list unchanged. */
  method DeleteFailureRun(items: seq<Item>, message: string) {
    var state := new State();
    state.FetchFulfilled(items);
    var acts := DeleteReviewRun(Threw(Some(Message(ReviewController.NotFound)), message));
    assert acts == [DeletePending, DeleteRejected(Data(Message(ReviewController.NotFound)))];
    state.Dispatch(acts[0]);
    state.Dispatch(acts[1]);
    assert state.reviews == items;
  }
}
