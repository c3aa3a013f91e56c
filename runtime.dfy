/** The byte-level collaborators of the hook handlers: raw JSON blobs and the
    scheme's decoder and encoder, which the model treats as given functions. */
module Runtime {
  import opened Wrappers
  import opened Kinds

  type byte = x: int | 0 <= x < 256

  /** A json.RawMessage: the undecoded bytes of one object. */
  type Bytes = seq<byte>

  /** runtime.Decoder.Decode: the decoded object and the kind it resolved, or an error. */
  type Decoder<O> = Bytes -> Result<(O, GVK)>

  /** runtime.Encode with the scheme's JSON serializer. */
  type Encoder<!O> = O -> Result<Bytes>
}
