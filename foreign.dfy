/**
 * The library code the engine calls but does not own, bundled as functions
 * the caller supplies: the YAML-or-JSON decoder, JSON encoding, SHA-256,
 * Go's text/template, the status-struct decoder and the rollout status
 * viewers of kubectl. Nothing is assumed about them beyond their types.
 */
module Foreign {
  import opened Wrappers
  import opened Objects
  import opened Hex

  /** The outcome of one `Decode` call on a manifest stream: a document (None for a null document) or an error. */
  datatype DecodeStep = Document(doc: Option<Unstructured>) | DecodeError(message: string)

  /** The three optional fields of a status block the engine looks at. */
  datatype StatusFields = StatusFields(
    readyReplicas: Option<int>,
    phase: Option<string>,
    loadBalancer: Option<map<string, Json>>)

  datatype Library = Library(
    // Successive Decode outcomes on a text; once the list is used up, Decode reports end of input.
    decode: string -> seq<DecodeStep>,
    // JSON encoding of a value.
    marshal: Json -> Result<seq<byte>, string>,
    // SHA-256 digest of a byte string.
    sha256: seq<byte> -> Digest,
    // Template parsing under a template name: Some(error) when the text does not parse.
    parse: (string, string) -> Option<string>,
    // Template execution of a parsed text against the flat config.
    execute: (string, string, map<string, string>) -> Result<string, string>,
    // Whether kubectl has a rollout status viewer for a group and kind.
    hasViewer: GroupKind -> bool,
    // That viewer's verdict: ready or not, or an error.
    viewerStatus: Unstructured -> Result<bool, string>,
    // Decoding a status block into the three fields.
    decodeStatus: Json -> Result<StatusFields, string>)
}
