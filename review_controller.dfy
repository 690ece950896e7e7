/**
 * The review request handlers (BN-shopping/controllers/reviewController.js), each over an
 * injected review collection and returning the status code and JSON body it sends.
 * Routes: POST and GET share `/:productId`, DELETE uses `/:id`.
 */
module ReviewController {
  import opened ReviewSchema
  import opened Http
  import opened DocumentStore

  const SaveFailed := "리뷰 저장 실패"
  const NotFound := "삭제할 리뷰를 찾을 수 없습니다."
  const Deleted := "리뷰 삭제 성공"

  /**
   * POST `/:productId`. The document is built from the body's productId, userId, rating and
   * text; the path parameter plays no part.
   */
  method AddReview(store: ReviewCollection, pathProductId: string, body: ReviewInput, now: Timestamp)
    returns (resp: Response)
    requires store.Valid()
    modifies store
    ensures store.Valid()
    ensures IsValid(body) ==>
      && resp.status == 201 && resp.body.Doc?
      && InputOf(resp.body.review) == body
      && resp.body.review.date == now
      && FindById(old(store.docs), resp.body.review.id).None?
      && store.docs == old(store.docs) + [resp.body.review]
    ensures !IsValid(body) ==>
      && resp == Response(500, ErrorReport(SaveFailed, MissingPaths(body)))
      && store.docs == old(store.docs)
  {
    var saved := store.Save(body, now);
    match saved
    case Some(r) =>
      resp := Response(201, Doc(r));
    case None =>
      resp := Response(500, ErrorReport(SaveFailed, MissingPaths(body)));
  }

  /** GET `/:productId`: 200 with the stored reviews of that product, in store order (possibly none). */
  method GetReviewsByProduct(store: ReviewCollection, productId: string) returns (resp: Response)
    ensures resp.status == 200 && resp.body.Docs?
    ensures resp.body.reviews == ForProduct(store.docs, productId)
    ensures forall d :: d in resp.body.reviews <==> d in store.docs && d.productId == productId
  {
    var found := store.Find(productId);
    resp := Response(200, Docs(found));
  }

  /** DELETE `/:id`: 404 when no document has that id, otherwise remove it and answer 200 `{ message }`. */
  method DeleteReview(store: ReviewCollection, id: Id) returns (resp: Response)
    requires store.Valid()
    modifies store
    ensures store.Valid()
    ensures FindById(old(store.docs), id).None? ==>
      resp == Response(404, Message(NotFound)) && store.docs == old(store.docs)
    ensures FindById(old(store.docs), id).Some? ==>
      && resp == Response(200, Message(Deleted))
      && store.docs == WithoutId(old(store.docs), id)
      && FindById(store.docs, id).None?
  {
    WithoutIdExact(store.docs, id);
    var deleted := store.FindByIdAndDelete(id);
    if deleted.None? {
      WithoutAbsentId(old(store.docs), id);
      return Response(404, Message(NotFound));
    }
    resp := Response(200, Message(Deleted));
  }

  /** After a delete of `id`, no document has that id, so a second delete answers 404. */
  lemma DeleteTwiceNotFound(docs: seq<Review>, id: Id)
    ensures FindById(WithoutId(docs, id), id).None?
  {
  }

  /**
   * A created review is listed under its productId; once deleted it no longer is,
   * and the other documents are exactly as before.
   */
  lemma CreateListDelete(docs: seq<Review>, d: Review)
    requires FindById(docs, d.id).None?
    ensures d in ForProduct(docs + [d], d.productId)
    ensures WithoutId(docs + [d], d.id) == docs
    ensures d !in ForProduct(WithoutId(docs + [d], d.id), d.productId)
  {
    ForProductExact(docs + [d], d.productId);
    WithoutFreshAppended(docs, d);
    ForProductExact(docs, d.productId);
  }

  /** A review created for one product is never listed under another. */
  lemma CreateNotListedElsewhere(docs: seq<Review>, d: Review, q: string)
    requires q != d.productId
    ensures ForProduct(docs + [d], q) == ForProduct(docs, q)
  {
    ForProductAppend(docs, [d], q);
    assert [d][1..] == [];
  }
}
