/**
 * The review collection behind `Review.save`, `Review.find` and `Review.findByIdAndDelete`:
 * an ordered sequence of documents with distinct, store-generated ids.
 */
module DocumentStore {
  import opened Wrappers
  import opened ReviewSchema

  /** No two stored documents share an id. */
  ghost predicate UniqueIds(docs: seq<Review>) {
    forall i, j :: 0 <= i < j < |docs| ==> docs[i].id != docs[j].id
  }

  /** `find({ productId: p })`: the documents whose productId equals `p`, in store order. */
  function ForProduct(docs: seq<Review>, p: string): seq<Review> {
    if docs == [] then []
    else (if docs[0].productId == p then [docs[0]] else []) + ForProduct(docs[1..], p)
  }

  /** The position of the document with id `id`, if any. */
  function IndexOfId(docs: seq<Review>, id: Id): (k: Option<nat>)
    ensures k.Some? ==> k.value < |docs| && docs[k.value].id == id
    ensures k.Some? ==> forall i :: 0 <= i < k.value ==> docs[i].id != id
    ensures k.None? <==> forall i :: 0 <= i < |docs| ==> docs[i].id != id
  {
    if docs == [] then None
    else if docs[0].id == id then Some(0)
    else match IndexOfId(docs[1..], id)
      case None => None
      case Some(k) => Some(k + 1)
  }

  /** `findById`: the document with id `id`, or `None`. */
  function FindById(docs: seq<Review>, id: Id): (r: Option<Review>)
    ensures r.Some? ==> r.value in docs && r.value.id == id
    ensures r.None? <==> forall d :: d in docs ==> d.id != id
  {
    match IndexOfId(docs, id)
    case None => None
    case Some(k) => Some(docs[k])
  }

  /** The documents left after deleting id `id`. */
  function WithoutId(docs: seq<Review>, id: Id): seq<Review> {
    if docs == [] then []
    else (if docs[0].id == id then [] else [docs[0]]) + WithoutId(docs[1..], id)
  }

  /** `ForProduct` keeps exactly the documents of product `p`. */
  lemma {:induction false} ForProductExact(docs: seq<Review>, p: string)
    ensures forall d :: d in ForProduct(docs, p) <==> d in docs && d.productId == p
  {
    if docs != [] {
      ForProductExact(docs[1..], p);
      assert docs == [docs[0]] + docs[1..];
    }
  }

  /** `ForProduct` distributes over concatenation, so it keeps store order. */
  lemma {:induction false} ForProductAppend(a: seq<Review>, b: seq<Review>, p: string)
    ensures ForProduct(a + b, p) == ForProduct(a, p) + ForProduct(b, p)
  {
    if a == [] {
      assert a + b == b;
    } else {
      assert (a + b)[1..] == a[1..] + b;
      ForProductAppend(a[1..], b, p);
    }
  }

  /** `WithoutId` keeps exactly the documents whose id differs from `id`. */
  lemma {:induction false} WithoutIdExact(docs: seq<Review>, id: Id)
    ensures forall d :: d in WithoutId(docs, id) <==> d in docs && d.id != id
  {
    if docs != [] {
      WithoutIdExact(docs[1..], id);
      assert docs == [docs[0]] + docs[1..];
    }
  }

  /** Deleting an absent id leaves the documents as they are. */
  lemma {:induction false} WithoutAbsentId(docs: seq<Review>, id: Id)
    requires FindById(docs, id).None?
    ensures WithoutId(docs, id) == docs
  {
    if docs != [] {
      assert docs[0] in docs;
      assert forall d :: d in docs[1..] ==> d in docs;
      WithoutAbsentId(docs[1..], id);
      assert docs == [docs[0]] + docs[1..];
    }
  }

  /** With distinct ids, deleting a present id cuts out exactly that one document. */
  lemma {:induction false} WithoutIdSplice(docs: seq<Review>, id: Id)
    requires UniqueIds(docs) && IndexOfId(docs, id).Some?
    ensures var k := IndexOfId(docs, id).value;
      WithoutId(docs, id) == docs[..k] + docs[k + 1..]
  {
    var k := IndexOfId(docs, id).value;
    if k == 0 {
      assert FindById(docs[1..], id).None? by {
        forall d | d in docs[1..] ensures d.id != id {
          var j :| 0 <= j < |docs[1..]| && docs[1..][j] == d;
          assert docs[j + 1] == d;
        }
      }
      WithoutAbsentId(docs[1..], id);
    } else {
      assert IndexOfId(docs[1..], id) == Some(k - 1);
      WithoutIdSplice(docs[1..], id);
      assert docs[..k] == [docs[0]] + docs[1..][..k - 1];
      assert docs[k + 1..] == docs[1..][k..];
    }
  }

  /** Deleting a document that was just appended with a fresh id restores the earlier documents. */
  lemma {:induction false} WithoutFreshAppended(docs: seq<Review>, d: Review)
    requires FindById(docs, d.id).None?
    ensures WithoutId(docs + [d], d.id) == docs
  {
    if docs == [] {
      assert [d][1..] == [];
    } else {
      assert (docs + [d])[1..] == docs[1..] + [d];
      assert docs[0] in docs;
      assert forall e :: e in docs[1..] ==> e in docs;
      WithoutFreshAppended(docs[1..], d);
      assert docs == [docs[0]] + docs[1..];
    }
  }

  /** Deleting keeps ids distinct and below any bound they were below. */
  lemma {:induction false} WithoutIdKeepsIds(docs: seq<Review>, id: Id, bound: Id)
    requires UniqueIds(docs) && forall i :: 0 <= i < |docs| ==> docs[i].id < bound
    ensures var rest := WithoutId(docs, id);
      UniqueIds(rest) && forall i :: 0 <= i < |rest| ==> rest[i].id < bound
  {
    if docs != [] {
      var tail := WithoutId(docs[1..], id);
      WithoutIdKeepsIds(docs[1..], id, bound);
      WithoutIdExact(docs[1..], id);
      var head := if docs[0].id == id then [] else [docs[0]];
      forall i | 0 <= i < |tail| ensures tail[i].id != docs[0].id && tail[i].id < bound {
        assert tail[i] in docs[1..];
        var j :| 0 <= j < |docs[1..]| && docs[1..][j] == tail[i];
        assert docs[j + 1] == tail[i];
      }
      assert WithoutId(docs, id) == head + tail;
    }
  }

  /** The review collection. `nextId` stands in for ObjectId generation: every stored id is below it. */
  class ReviewCollection {
    var docs: seq<Review>
    var nextId: Id

    ghost predicate Valid()
      reads this
    {
      UniqueIds(docs) && forall i :: 0 <= i < |docs| ==> docs[i].id < nextId
    }

    constructor ()
      ensures Valid() && docs == []
    {
      docs := [];
      nextId := 0;
    }

    /** `new Review(input).save()`: validate, then append with a fresh id and `date` defaulted to `now`. */
    method Save(input: ReviewInput, now: Timestamp) returns (saved: Option<Review>)
      requires Valid()
      modifies this
      ensures Valid()
      ensures saved.Some? <==> IsValid(input)
      ensures saved.Some? ==>
        && InputOf(saved.value) == input
        && saved.value.date == now
        && FindById(old(docs), saved.value.id).None?
        && docs == old(docs) + [saved.value]
      ensures saved.None? ==> docs == old(docs)
    {
      if !IsValid(input) {
        return None;
      }
      var r := Instantiate(input, nextId, now);
      assert FindById(docs, r.id).None? by {
        forall d | d in docs ensures d.id != r.id {
          var i :| 0 <= i < |docs| && docs[i] == d;
        }
      }
      docs := docs + [r];
      nextId := nextId + 1;
      saved := Some(r);
    }

    /** `Review.find({ productId })`. */
    method Find(productId: string) returns (found: seq<Review>)
      ensures found == ForProduct(docs, productId)
      ensures forall d :: d in found <==> d in docs && d.productId == productId
    {
      ForProductExact(docs, productId);
      found := ForProduct(docs, productId);
    }

    /** `Review.findByIdAndDelete(id)`: remove the document with that id and return it, or `None`. */
    method FindByIdAndDelete(id: Id) returns (deleted: Option<Review>)
      requires Valid()
      modifies this
      ensures Valid() && nextId == old(nextId)
      ensures deleted == FindById(old(docs), id)
      ensures docs == WithoutId(old(docs), id)
    {
      deleted := FindById(docs, id);
      var rest := WithoutId(docs, id);
      WithoutIdKeepsIds(docs, id, nextId);
      docs := rest;
    }
  }
}
