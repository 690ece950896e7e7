/**
 * The non-rendering logic of the product detail page
 * (FN-shopping/src/page/ProductDetailPage/ProductDetailPage.js): its component state, the
 * event handlers that update it, and the expressions that decide what the view shows.
 */
module ProductDetailPage {
  import opened Wrappers
  import opened ReviewSlice

  /** The logged-in user; only its `id` is read. */
  datatype User = User(id: string)

  /** What a handler does besides updating component state. */
  datatype Effect =
    | DispatchReview(action: Action)
    | DispatchAddToCart(productId: string, size: string)
    | Navigate(path: string)
    | Alert(message: string)

  const IncompleteReview := "별점과 리뷰를 모두 입력해 주세요."
  const RedirectPath := "/next-page"
  const LoginPath := "/login"
  const StarCount := 5
  const RedirectThreshold := 5

  /** The characters `String.prototype.trim` removes: ECMAScript white space and line terminators. */
  predicate IsTrimmable(c: char) {
    || c == '\t' || c == '\n' || c == '\U{000B}' || c == '\U{000C}' || c == '\r' || c == ' '
    || c == '\U{00A0}' || c == '\U{1680}' || ('\U{2000}' <= c <= '\U{200A}')
    || c == '\U{2028}' || c == '\U{2029}' || c == '\U{202F}' || c == '\U{205F}'
    || c == '\U{3000}' || c == '\U{FEFF}'
  }

  /** Every character of `s` is trimmable. */
  predicate Blank(s: string) {
    forall i :: 0 <= i < |s| ==> IsTrimmable(s[i])
  }

  function TrimStart(s: string): string {
    if s != [] && IsTrimmable(s[0]) then TrimStart(s[1..]) else s
  }

  function TrimEnd(s: string): string {
    if s != [] && IsTrimmable(s[|s| - 1]) then TrimEnd(s[..|s| - 1]) else s
  }

  /** `s.trim()`. */
  function Trim(s: string): string {
    TrimEnd(TrimStart(s))
  }

  lemma {:induction false} TrimStartEmptyIffBlank(s: string)
    ensures TrimStart(s) == "" <==> Blank(s)
    ensures TrimStart(s) != "" ==> !IsTrimmable(TrimStart(s)[0])
  {
    if s != [] && IsTrimmable(s[0]) {
      TrimStartEmptyIffBlank(s[1..]);
      assert Blank(s) <==> Blank(s[1..]) by {
        if Blank(s[1..]) {
          forall i | 0 <= i < |s| ensures IsTrimmable(s[i]) {
            if i > 0 { assert s[i] == s[1..][i - 1]; }
          }
        }
      }
    } else if s != [] {
      assert !IsTrimmable(s[0]);
    }
  }

  lemma {:induction false} TrimEndKeepsLeadingChar(s: string)
    requires s != [] && !IsTrimmable(s[0])
    ensures TrimEnd(s) != ""
  {
    if IsTrimmable(s[|s| - 1]) {
      assert |s| > 1;
      TrimEndKeepsLeadingChar(s[..|s| - 1]);
    }
  }

  /** `s.trim() === ""` exactly when every character of `s` is white space or a line terminator. */
  lemma TrimEmptyIffBlank(s: string)
    ensures Trim(s) == "" <==> Blank(s)
  {
    TrimStartEmptyIffBlank(s);
    if TrimStart(s) != "" {
      TrimEndKeepsLeadingChar(TrimStart(s));
    }
  }

  /** The submit guard: a star was chosen and the text is not blank once trimmed. */
  predicate SubmitAccepted(rating: int, reviewText: string) {
    !(rating == 0 || Trim(reviewText) == "")
  }

  /** The guard rejects exactly a zero rating or a text made only of white space. */
  lemma SubmitGuard(rating: int, reviewText: string)
    ensures SubmitAccepted(rating, reviewText) <==>
      rating != 0 && exists i :: 0 <= i < |reviewText| && !IsTrimmable(reviewText[i])
  {
    TrimEmptyIffBlank(reviewText);
  }

  /** `reviews ? reviews.length : 0`. */
  function ReviewCount(reviews: Option<seq<Item>>): nat {
    match reviews
    case None => 0
    case Some(rs) => |rs|
  }

  /** After a submit the page redirects when the pre-submit count plus one reaches five. */
  function ShouldRedirect(reviews: Option<seq<Item>>): (go: bool)
    ensures go <==> reviews.Some? && |reviews.value| >= RedirectThreshold - 1
  {
    ReviewCount(reviews) + 1 >= RedirectThreshold
  }

  /** `Math.min(Math.max(rating, 0), 5)`, where a non-number rating counts as 0. */
  function ValidRating(rating: Option<int>): (v: int)
    ensures 0 <= v <= StarCount
    ensures rating.Some? && 0 <= rating.value <= StarCount ==> v == rating.value
    ensures rating.Some? && rating.value > StarCount ==> v == StarCount
    ensures rating.None? || rating.value < 0 ==> v == 0
  {
    var r := rating.GetOr(0);
    var atLeastZero := if r > 0 then r else 0;
    if atLeastZero < 5 then atLeastZero else 5
  }

  /** The `rating` property of a listed item; the page's own wrapper object has none. */
  function ItemRating(item: Item): Option<int> {
    match item
    case Received(d) => Some(d.rating)
    case Submitted(_, _) => None
  }

  /** Filled stars drawn for a listed review. */
  function FilledStars(item: Item): (n: nat)
    ensures n <= StarCount
    ensures item.Received? && 0 <= item.doc.rating <= StarCount ==> n == item.doc.rating
  {
    ValidRating(ItemRating(item))
  }

  /** Empty stars drawn for a listed review. */
  function EmptyStars(item: Item): (n: nat)
    ensures FilledStars(item) + n == StarCount
  {
    StarCount - ValidRating(ItemRating(item))
  }

  /** A wrapper added through the local `addReview` reducer is drawn with no filled star. */
  lemma SubmittedItemShowsNoStars(productId: string, s: Submission)
    ensures FilledStars(Submitted(productId, s)) == 0
    ensures EmptyStars(Submitted(productId, s)) == StarCount
  {
  }

  /** Star `i` of the rating input is drawn filled when `i < rating`. */
  predicate InputStarFilled(i: nat, rating: int) {
    i < rating
  }

  /** One entry of the size menu: the key shown, and whether the item is enabled. */
  datatype SizeOption = SizeOption(size: string, enabled: bool)

  /** `Object.keys(stock)` enumerates each key of the stock object once, in the object's key order. */
  ghost predicate KeysOf(stock: map<string, int>, keys: seq<string>) {
    && (forall i, j :: 0 <= i < j < |keys| ==> keys[i] != keys[j])
    && (forall i :: 0 <= i < |keys| ==> keys[i] in stock)
    && (forall k :: k in stock ==> k in keys)
  }

  /** The size menu: one item per key, in key order, disabled when its quantity is not positive. */
  function SizeOptions(stock: map<string, int>, keys: seq<string>): (options: seq<SizeOption>)
    requires forall i :: 0 <= i < |keys| ==> keys[i] in stock
    ensures |options| == |keys|
    ensures forall i :: 0 <= i < |keys| ==>
      options[i].size == keys[i] && (options[i].enabled <==> stock[keys[i]] > 0)
  {
    if keys == [] then []
    else [SizeOption(keys[0], stock[keys[0]] > 0)] + SizeOptions(stock, keys[1..])
  }

  /** Some item of the menu shows `size` with the given enablement. */
  ghost predicate OfferedAs(options: seq<SizeOption>, size: string, enabled: bool) {
    exists i :: 0 <= i < |options| && options[i] == SizeOption(size, enabled)
  }

  /** Each stocked size appears in the menu with its enablement. */
  lemma {:induction false} SizeMenuCoversStock(stock: map<string, int>, keys: seq<string>, options: seq<SizeOption>)
    requires KeysOf(stock, keys) && options == SizeOptions(stock, keys)
    ensures forall k :: k in stock ==> OfferedAs(options, k, stock[k] > 0)
  {
    forall k | k in stock ensures OfferedAs(options, k, stock[k] > 0) {
      var i :| 0 <= i < |keys| && keys[i] == k;
      assert options[i] == SizeOption(k, stock[k] > 0);
    }
  }

  /** Every stocked size is offered exactly once, enabled iff its quantity is positive, and nothing else is offered. */
  lemma {:induction false} EachSizeOfferedOnce(stock: map<string, int>, keys: seq<string>)
    requires KeysOf(stock, keys)
    ensures forall k :: k in stock ==> OfferedAs(SizeOptions(stock, keys), k, stock[k] > 0)
    ensures forall i, j :: 0 <= i < j < |SizeOptions(stock, keys)| ==>
      SizeOptions(stock, keys)[i].size != SizeOptions(stock, keys)[j].size
    ensures forall i :: 0 <= i < |SizeOptions(stock, keys)| ==> SizeOptions(stock, keys)[i].size in stock
  {
    var options := SizeOptions(stock, keys);
    SizeMenuCoversStock(stock, keys, options);
    assert forall i :: 0 <= i < |options| ==> options[i].size == keys[i];
  }

  /** The component state of one product detail page; `id` is the route parameter. */
  class ProductDetail {
    const id: string
    var size: string
    var sizeError: bool
    var rating: int
    var reviewText: string
    var showReviewModal: bool

    constructor (id: string)
      ensures this.id == id
      ensures size == "" && !sizeError && rating == 0 && reviewText == "" && !showReviewModal
    {
      this.id := id;
      size := "";
      sizeError := false;
      rating := 0;
      reviewText := "";
      showReviewModal := false;
    }

    /** `handleModalClose`: hide the modal and clear the form. */
    method HandleModalClose()
      modifies this
      ensures !showReviewModal && rating == 0 && reviewText == ""
      ensures size == old(size) && sizeError == old(sizeError)
    {
      showReviewModal := false;
      rating := 0;
      reviewText := "";
    }

    /** The "write review" button. */
    method OpenReviewModal()
      modifies this
      ensures showReviewModal
      ensures size == old(size) && sizeError == old(sizeError)
      ensures rating == old(rating) && reviewText == old(reviewText)
    {
      showReviewModal := true;
    }

    /** The text area's `onChange`. */
    method SetReviewText(value: string)
      modifies this
      ensures reviewText == value
      ensures size == old(size) && sizeError == old(sizeError)
      ensures rating == old(rating) && showReviewModal == old(showReviewModal)
    {
      reviewText := value;
    }

    /** Clicking star `i` of the five. */
    method ClickStar(i: nat)
      requires i < StarCount
      modifies this
      ensures rating == i + 1 && 1 <= rating <= StarCount
      ensures forall j: nat :: InputStarFilled(j, rating) <==> j <= i
      ensures size == old(size) && sizeError == old(sizeError)
      ensures reviewText == old(reviewText) && showReviewModal == old(showReviewModal)
    {
      rating := i + 1;
    }

    /**
     * `handleReviewSubmit`, given the review list the page rendered with and the user.
     * A rejected submit only alerts. With no user, reading `user.id` throws before anything
     * is dispatched or reset. Otherwise the page dispatches the local `addReview` with the
     * wrapper `{ productId: id, review }`, then `fetchReviews(id)`, maybe redirects, and
     * clears the form.
     */
    method HandleReviewSubmit(reviews: Option<seq<Item>>, user: Option<User>) returns (effects: seq<Effect>)
      modifies this
      ensures !SubmitAccepted(old(rating), old(reviewText)) ==>
        effects == [Alert(IncompleteReview)] && unchanged(this)
      ensures SubmitAccepted(old(rating), old(reviewText)) && user.None? ==>
        effects == [] && unchanged(this)
      ensures SubmitAccepted(old(rating), old(reviewText)) && user.Some? ==>
        && |effects| >= 2
        && effects[0] == DispatchReview(AddReview(
             Submitted(id, Submission(id, user.value.id, old(rating), old(reviewText)))))
        && effects[1] == DispatchReview(FetchReviews(Some(id)))
        && effects[2..] == (if ShouldRedirect(reviews) then [Navigate(RedirectPath)] else [])
        && !showReviewModal && rating == 0 && reviewText == ""
        && size == old(size) && sizeError == old(sizeError)
    {
      if rating == 0 || Trim(reviewText) == "" {
        return [Alert(IncompleteReview)];
      }
      if user.None? {
        return [];
      }
      var review := Submission(id, user.value.id, rating, reviewText);
      effects := [DispatchReview(AddReview(Submitted(id, review))), DispatchReview(FetchReviews(Some(id)))];
      var reviewsLength := ReviewCount(reviews);
      if reviewsLength + 1 >= RedirectThreshold {
        effects := effects + [Navigate(RedirectPath)];
      }
      showReviewModal := false;
      rating := 0;
      reviewText := "";
    }

    /**
     * `addItemToCart`: with no size chosen, flag the error and stop. Otherwise dispatch
     * `addToCart`, after a redirect to the login page when there is no user (the handler
     * does not return after it).
     */
    method AddItemToCart(user: Option<User>) returns (effects: seq<Effect>)
      modifies this
      ensures old(size) == "" ==> effects == [] && sizeError
      ensures old(size) != "" ==>
        effects == (if user.None? then [Navigate(LoginPath)] else []) + [DispatchAddToCart(id, old(size))]
        && sizeError == old(sizeError)
      ensures size == old(size) && rating == old(rating)
      ensures reviewText == old(reviewText) && showReviewModal == old(showReviewModal)
    {
      if size == "" {
        sizeError := true;
        return [];
      }
      effects := [];
      if user.None? {
        effects := [Navigate(LoginPath)];
      }
      effects := effects + [DispatchAddToCart(id, size)];
    }

    /** `selectSize`: clear the size error and take the chosen size. */
    method SelectSize(value: string)
      modifies this
      ensures size == value && !sizeError
      ensures rating == old(rating) && reviewText == old(reviewText)
      ensures showReviewModal == old(showReviewModal)
    {
      if sizeError {
        sizeError := false;
      }
      size := value;
    }
  }
}
