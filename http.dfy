/** JSON response bodies and responses exchanged between the review service and its clients. */
module Http {
  import opened ReviewSchema

  datatype Body =
    /** One review document (`res.json(newReview)`). */
    | Doc(review: Review)
    /** An array of review documents (`res.json(reviews)`). */
    | Docs(reviews: seq<Review>)
    /** `{ message }` */
    | Message(message: string)
    /** `{ message, error }`; the store's error text is represented by the schema paths that failed. */
    | ErrorReport(message: string, failedPaths: seq<string>)

  datatype Response = Response(status: int, body: Body)
}
