/**
 * The shapes the adapters read from the search service's JSON replies. Every request
 * is a parameter of the model: the network call itself is not modelled.
 */
module Serp {
  import opened Wrappers

  /**
   * The outcome of one search request. `Failed` stands for everything the adapters
   * catch and answer with placeholder data: a missing API key, a status other than 200,
   * a transport error. `Found(xs)` is a reply whose result list is `xs`; a reply
   * without the list, or with an empty one, is `Found([])`.
   */
  datatype Search<T> = Failed | Found(results: seq<T>)

  /**
   * One entry of a maps search's `local_results`. A field absent from the reply is
   * `None`; a rating or review count the adapters copy as "N/A" stays `None`.
   */
  datatype LocalResult = LocalResult(
    title: Option<string>,
    rating: Option<real>,
    reviews: Option<int>,
    address: Option<string>,
    priceLevel: Option<string>,
    description: Option<string>)
}
