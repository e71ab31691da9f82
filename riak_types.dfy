/**
 * The value types the fetch command consumes from the rest of the client:
 * byte strings, record locations, quorum values, vector clocks and the wire
 * objects a fetch returns.
 */
module RiakTypes {
  import opened Wrappers

  /** A Java `byte`, kept as its unsigned value. */
  newtype byte = x: int | 0 <= x < 256

  /** The contents of a `ByteArrayWrapper`. */
  type Bytes = seq<byte>

  /** A Java `int`; option values and builder fields of type int/Integer are 32-bit. */
  newtype int32 = x: int | -0x8000_0000 <= x < 0x8000_0000

  /**
   * The address of a record: an optional bucket type, a bucket and a key.
   * A `Key` is a `Location`, so both are this one datatype.
   */
  datatype Location = Location(bucketType: Option<Bytes>, bucket: Bytes, key: Bytes)

  /** A quorum setting, represented by the integer it stands for on the wire. */
  datatype Quorum = Quorum(intValue: int32) {
    /** `Quorum.getIntValue`. */
    function GetIntValue(): int32 { intValue }
  }

  /** An opaque vector clock, represented by its bytes. */
  datatype VClock = VClock(bytes: Bytes) {
    /** `VClock.getBytes`. */
    function GetBytes(): Bytes { bytes }
  }

  /** A wire object returned by a fetch, before any domain conversion. */
  datatype RiakObject = RiakObject(value: Bytes)
}
