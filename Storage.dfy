/**
 * The blob-store adapter: the URI an upload yields (`0g://<rootHash>` or the inline
 * `json://<base64>` fallback), what a download yields, and the shape of a parsed JSON value.
 * The JSON text is handled as its UTF-8 bytes; producing and parsing it are parameters.
 */
module Storage {
  import opened Wrappers
  import opened Text
  import opened Base64

  /** A value `JSON.parse` produced: `null`, a number/string/boolean, or an object (arrays included). */
  datatype JsonValue<T> = Null | Scalar | Object(fields: T)

  datatype UploadResult = UploadResult(rootHash: string, uri: string, txHash: Option<string>)

  /** What `indexer.upload` did: returned a result, returned an error, or threw. */
  datatype UploadOutcome = Uploaded(rootHash: string, txHash: string) | UploadError(message: string) | UploadThrew

  /** What `indexer.download` and the temp-file read did. */
  datatype DownloadOutcome = Downloaded(content: seq<byte>) | DownloadFailed

  const NativeScheme: string := "0g://"
  const InlineScheme: string := "json://"
  const LocalScheme: string := "local://"

  /** The inline fallback: the base64 of the JSON bytes, with their keccak-256 digest as root hash. */
  function InlineFallback(json: seq<byte>, keccak: seq<byte> -> string): (r: UploadResult)
    ensures StartsWith(r.uri, InlineScheme) && r.rootHash == keccak(json) && r.txHash.None?
  {
    UploadResult(keccak(json), InlineScheme + Encode(json), None)
  }

  /** The inline payload of a `json://` URI, decoded. */
  function InlinePayload(uri: string): (r: Option<seq<byte>>)
    requires StartsWith(uri, InlineScheme)
  {
    Decode(uri[|InlineScheme|..])
  }

  /**
   * `uploadJSON(data, signer)` once `JSON.stringify(data)` is given as `json`. Without the SDK
   * or without a signer, or when the upload fails in either way, the result is the inline
   * fallback; only a successful upload yields a `0g://` URI.
   */
  function UploadJSON(json: seq<byte>, sdkLoaded: bool, hasSigner: bool, outcome: UploadOutcome,
                      keccak: seq<byte> -> string): (r: UploadResult)
    ensures !(sdkLoaded && hasSigner && outcome.Uploaded?) ==>
              r.rootHash == keccak(json) && r.txHash.None? && StartsWith(r.uri, InlineScheme)
              && InlinePayload(r.uri) == Some(json)
    ensures sdkLoaded && hasSigner && outcome.Uploaded? ==>
              r.rootHash == outcome.rootHash && r.txHash == Some(outcome.txHash)
              && StartsWith(r.uri, NativeScheme) && r.uri[|NativeScheme|..] == outcome.rootHash
  {
    if !sdkLoaded || !hasSigner then InlineFallbackChecked(json, keccak)
    else match outcome
      case Uploaded(h, tx) => UploadResult(h, NativeScheme + h, Some(tx))
      case UploadError(_) => InlineFallbackChecked(json, keccak)
      case UploadThrew => InlineFallbackChecked(json, keccak)
  }

  /** The inline fallback, together with the fact that its payload decodes back to the JSON. */
  function InlineFallbackChecked(json: seq<byte>, keccak: seq<byte> -> string): (r: UploadResult)
    ensures r == InlineFallback(json, keccak) && InlinePayload(r.uri) == Some(json)
  {
    var r := InlineFallback(json, keccak);
    assert r.uri[|InlineScheme|..] == Encode(json);
    RoundTrip(json);
    r
  }

  /**
   * `downloadJSON(rootHash)`: `null` without the SDK, on any failure, and when the content is
   * not JSON; otherwise the parsed value.
   */
  function DownloadJSON<T>(sdkLoaded: bool, outcome: DownloadOutcome,
                           parse: seq<byte> -> Option<JsonValue<T>>): (r: JsonValue<T>)
    ensures !sdkLoaded || outcome.DownloadFailed? ==> r == Null
    ensures sdkLoaded && outcome.Downloaded? ==> r == parse(outcome.content).GetOr(Null)
  {
    if !sdkLoaded then Null
    else match outcome
      case DownloadFailed => Null
      case Downloaded(content) => parse(content).GetOr(Null)
  }

  /** The `0x` prefix a root hash gets before it is used as bytes32 (done in two places). */
  function With0x(h: string): (r: string)
    ensures StartsWith(r, "0x")
    ensures StartsWith(h, "0x") ==> r == h
    ensures !StartsWith(h, "0x") ==> r == "0x" + h
  {
    if StartsWith(h, "0x") then h else "0x" + h
  }

  /** Prefixing is idempotent: a hash never ends up with "0x0x" from this step. */
  lemma With0xIdempotent(h: string)
    ensures With0x(With0x(h)) == With0x(h)
  {
  }
}
