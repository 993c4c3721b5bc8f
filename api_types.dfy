/** The shapes of the remote API's resources and of what the fetch layer
    gets back from the network. Decoding JSON is not modelled: a page or a
    bulk response arrives already in one of the shapes below. */
module ApiTypes {

  datatype Option<T> = None | Some(value: T)

  /** An episode as the remote service returns it; `characters` holds the
      resource URLs of the characters that appear in it. */
  datatype Episode = Episode(
    id: int,
    code: string,
    name: string,
    airDate: string,
    characters: seq<string>)

  datatype Status = Alive | Dead | Unknown

  datatype Character = Character(
    id: int,
    name: string,
    status: Status,
    species: string,
    origin: string,
    image: string)

  /** Why a request rejects before its body is used: a non-2xx status, the
      timeout abort, a transport failure, or a body that is not JSON. */
  datatype FetchError = HttpError(status: int) | Timeout | NetworkFailure | InvalidJson

  /** The reply to one request for a page of a collection endpoint.
      `next` is None when `info` or `info.next` is missing or null.
      NoResults is a body without a `results` array. */
  datatype PageReply<T> =
    | Page(results: seq<T>, next: Option<string>)
    | NoResults
    | Failed(error: FetchError)

  /** The reply of the by-id-list endpoint: a JSON array, any other JSON
      value (the service sends a lone object when one id matches), or a
      rejected request. */
  datatype BulkReply =
    | Many(items: seq<Character>)
    | Single(item: Character)
    | BulkFailed(error: FetchError)

  /** How a promise settles. */
  datatype Outcome<T> = Resolved(value: T) | Rejected(error: FetchError)

  /** An asynchronous call: the URLs it requested, in order, and how it settled. */
  datatype Call<T> = Call(requests: seq<string>, outcome: Outcome<T>)

  /** The network, seen as a function from URL to reply. */
  type PageServer<T> = string -> PageReply<T>
  type BulkServer = string -> BulkReply
}
