/**
 * The option registry of the fetch-by-key command: the typed keys it
 * recognises and the type of value each one carries.
 */
module FetchOptions {
  import opened RiakTypes

  /**
   * A `FetchOption` key. The ten named constructors are the options the
   * command translates; `Other` is any further option constant, which the
   * translation skips.
   */
  datatype FetchOption =
    | R | PR | BasicQuorum | NotFoundOk | SloppyQuorum
    | NVal | Timeout | Head | DeletedVClock | IfModified
    | Other(name: string)

  /** The value stored with an option, tagged by its Java type. */
  datatype OptionValue =
    | QuorumValue(quorum: Quorum)
    | BoolValue(flag: bool)
    | IntValue(number: int32)
    | VClockValue(clock: VClock)

  /** True for the options the command translates. */
  predicate Recognised(o: FetchOption) { !o.Other? }

  /**
   * The type parameter `U` of `FetchOption<U>`: the value type each option
   * accepts. An unrecognised option may carry any value.
   */
  predicate WellTyped(o: FetchOption, v: OptionValue) {
    match o
    case R | PR => v.QuorumValue?
    case BasicQuorum | NotFoundOk | SloppyQuorum | Head | DeletedVClock => v.BoolValue?
    case NVal | Timeout => v.IntValue?
    case IfModified => v.VClockValue?
    case Other(_) => true
  }

  /** An option map in which every value has the type its key demands. */
  predicate WellTypedMap(m: map<FetchOption, OptionValue>) {
    forall o :: o in m ==> WellTyped(o, m[o])
  }

  /** The entries of `m` whose key is recognised. */
  function RecognisedPart(m: map<FetchOption, OptionValue>): (r: map<FetchOption, OptionValue>)
    ensures WellTypedMap(m) ==> WellTypedMap(r)
  {
    map o | o in m && Recognised(o) :: m[o]
  }
}
