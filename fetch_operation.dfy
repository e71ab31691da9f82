/**
 * The wire-level fetch operation the command hands to the cluster, seen
 * only through its builder's setters, and the raw response the cluster
 * returns for it. Both belong to the client's core layer, outside this
 * model; the builder is a record whose fields start unset (`None`).
 */
module FetchOperation {
  import opened Wrappers
  import opened RiakTypes

  /** The state of a `FetchOperation.Builder`: what the built operation will send. */
  datatype Builder = Builder(
    bucket: Bytes,
    key: Bytes,
    bucketType: Option<Bytes>,
    r: Option<int32>,
    pr: Option<int32>,
    basicQuorum: Option<bool>,
    notFoundOk: Option<bool>,
    sloppyQuorum: Option<bool>,
    nVal: Option<int32>,
    timeout: Option<int32>,
    headOnly: Option<bool>,
    returnDeletedVClock: Option<bool>,
    ifNotModified: Option<Bytes>)
  {
    function WithBucketType(t: Option<Bytes>): Builder { this.(bucketType := t) }
    function WithR(n: int32): Builder { this.(r := Some(n)) }
    function WithPr(n: int32): Builder { this.(pr := Some(n)) }
    function WithBasicQuorum(b: bool): Builder { this.(basicQuorum := Some(b)) }
    function WithNotFoundOk(b: bool): Builder { this.(notFoundOk := Some(b)) }
    function WithSloppyQuorum(b: bool): Builder { this.(sloppyQuorum := Some(b)) }
    function WithNVal(n: int32): Builder { this.(nVal := Some(n)) }
    function WithTimeout(n: int32): Builder { this.(timeout := Some(n)) }
    function WithHeadOnly(b: bool): Builder { this.(headOnly := Some(b)) }
    function WithReturnDeletedVClock(b: bool): Builder { this.(returnDeletedVClock := Some(b)) }
    function WithIfNotModified(bytes: Bytes): Builder { this.(ifNotModified := Some(bytes)) }
  }

  /** `new FetchOperation.Builder(bucket, key)`: every optional field unset. */
  function NewBuilder(bucket: Bytes, key: Bytes): Builder {
    Builder(bucket, key, None, None, None, None, None, None, None, None, None, None, None)
  }

  /** `FetchOperation.Response`: what the cluster returns for a successful fetch. */
  datatype RawResponse = RawResponse(
    notFound: bool,
    // `isUnchanged()`; `unchanged` is reserved in Dafny
    unchangedFlag: bool,
    objectList: seq<RiakObject>,
    vClock: Option<VClock>)
}
