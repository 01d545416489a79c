/** The data shapes the client decodes from the server's JSON. Only the
    fields that the client logic reads are given structure. */
module TaxiiTypes {
  import opened Wrappers

  /** A `CCIndicator`. The client never looks inside an indicator; its
      fields are kept as one opaque list of name/value pairs. */
  datatype Indicator = Indicator(fields: seq<(string, string)>)

  /** A `CCEnvelope`: one page of results with its pagination metadata. */
  datatype Envelope = Envelope(more: Option<bool>, next: Option<string>, objects: seq<Indicator>)

  /** A `Collection` as listed under an API root. */
  datatype Collection = Collection(
    canRead: bool,
    canWrite: bool,
    id: string,
    mediaTypes: seq<string>,
    name: string,
    title: string)

  /** The `Collections` container. */
  datatype Collections = Collections(collections: seq<Collection>)

  /** The result of decoding a response body into a shape `T`: either the
      value or the decoder's message. */
  datatype Decoded<+T> = Parsed(value: T) | Malformed(message: string)

  /** The objects of all pages, concatenated in page order. */
  function Flatten(pages: seq<Envelope>): seq<Indicator>
  {
    if |pages| == 0 then [] else pages[0].objects + Flatten(pages[1..])
  }
}
