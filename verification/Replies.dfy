/** What an API call answers. */
module Replies {
  // `Refused` is a conflict, kept apart from every other failure.
  datatype Reply<T> = Found(value: T) | NotFound | Refused | Failure(text: string)
}
