/**
 * The fetch-by-key command: a location, a converter and a mutable option
 * map; `Execute` translates them into a fetch operation, hands it to the
 * cluster and shapes the cluster's raw response into a `Response`.
 */
module FetchValueCommand {
  import opened Wrappers
  import opened RiakTypes
  import opened FetchOptions
  import opened FetchOperation

  type OptionMap = map<FetchOption, OptionValue>

  /** One entry of the option map, as its iteration yields it. */
  type Entry = (FetchOption, OptionValue)

  // ---------------------------------------------------------------------
  // A uniform view of the builder fields the options control
  // ---------------------------------------------------------------------

  /** A builder field's value, in the form the builder stores it. */
  datatype FieldValue = IntField(n: int32) | BoolField(b: bool) | BytesField(bytes: Bytes)

  function IntF(x: Option<int32>): Option<FieldValue> {
    if x.Some? then Some(IntField(x.value)) else None
  }

  function BoolF(x: Option<bool>): Option<FieldValue> {
    if x.Some? then Some(BoolField(x.value)) else None
  }

  function BytesF(x: Option<Bytes>): Option<FieldValue> {
    if x.Some? then Some(BytesField(x.value)) else None
  }

  /** The builder field option `o` controls; an unrecognised option controls none. */
  function Field(b: Builder, o: FetchOption): Option<FieldValue> {
    match o
    case R => IntF(b.r)
    case PR => IntF(b.pr)
    case BasicQuorum => BoolF(b.basicQuorum)
    case NotFoundOk => BoolF(b.notFoundOk)
    case SloppyQuorum => BoolF(b.sloppyQuorum)
    case NVal => IntF(b.nVal)
    case Timeout => IntF(b.timeout)
    case Head => BoolF(b.headOnly)
    case DeletedVClock => BoolF(b.returnDeletedVClock)
    case IfModified => BytesF(b.ifNotModified)
    case Other(_) => None
  }

  /**
   * What a recognised option writes into its field: a quorum is unwrapped
   * to its integer, a vector clock to its bytes, booleans and integers
   * are copied.
   */
  function Unwrap(o: FetchOption, v: OptionValue): FieldValue
    requires Recognised(o) && WellTyped(o, v)
  {
    match o
    case R | PR => IntField(v.quorum.GetIntValue())
    case NVal | Timeout => IntField(v.number)
    case IfModified => BytesField(v.clock.GetBytes())
    case BasicQuorum | NotFoundOk | SloppyQuorum | Head | DeletedVClock => BoolField(v.flag)
  }

  /** Two builders address the same record. */
  predicate SameTarget(b1: Builder, b2: Builder) {
    b1.bucket == b2.bucket && b1.key == b2.key && b1.bucketType == b2.bucketType
  }

  /** A builder is determined by its target and the fields the options control. */
  lemma FieldsDetermine(b1: Builder, b2: Builder)
    requires SameTarget(b1, b2)
    requires forall o :: Recognised(o) ==> Field(b1, o) == Field(b2, o)
    ensures b1 == b2
  {
    assert b1.r == b2.r by { assert Field(b1, R) == Field(b2, R); }
    assert b1.pr == b2.pr by { assert Field(b1, PR) == Field(b2, PR); }
    assert b1.basicQuorum == b2.basicQuorum by { assert Field(b1, BasicQuorum) == Field(b2, BasicQuorum); }
    assert b1.notFoundOk == b2.notFoundOk by { assert Field(b1, NotFoundOk) == Field(b2, NotFoundOk); }
    assert b1.sloppyQuorum == b2.sloppyQuorum by { assert Field(b1, SloppyQuorum) == Field(b2, SloppyQuorum); }
    assert b1.nVal == b2.nVal by { assert Field(b1, NVal) == Field(b2, NVal); }
    assert b1.timeout == b2.timeout by { assert Field(b1, Timeout) == Field(b2, Timeout); }
    assert b1.headOnly == b2.headOnly by { assert Field(b1, Head) == Field(b2, Head); }
    assert b1.returnDeletedVClock == b2.returnDeletedVClock by { assert Field(b1, DeletedVClock) == Field(b2, DeletedVClock); }
    assert b1.ifNotModified == b2.ifNotModified by { assert Field(b1, IfModified) == Field(b2, IfModified); }
  }

  // ---------------------------------------------------------------------
  // Translation of the options into a FetchOperation.Builder
  // ---------------------------------------------------------------------

  /** `new FetchOperation.Builder(bucket, key)` followed by `withBucketType(type)`. */
  function Initial(loc: Location): (r: Builder)
    ensures r.bucket == loc.bucket && r.key == loc.key && r.bucketType == loc.bucketType
    ensures forall o :: Field(r, o) == None
  {
    NewBuilder(loc.bucket, loc.key).WithBucketType(loc.bucketType)
  }

  /**
   * One iteration of the option loop: the if/else chain on the option
   * key. Each recognised option calls the one setter for its own field;
   * an unrecognised option falls through the chain.
   */
  function ApplyOption(b: Builder, o: FetchOption, v: OptionValue): (r: Builder)
    requires WellTyped(o, v)
    ensures SameTarget(r, b)
    ensures Recognised(o) ==> Field(r, o) == Some(Unwrap(o, v))
    ensures forall p :: p != o ==> Field(r, p) == Field(b, p)
    ensures !Recognised(o) ==> r == b
  {
    match o
    case R => b.WithR(v.quorum.GetIntValue())
    case DeletedVClock => b.WithReturnDeletedVClock(v.flag)
    case Timeout => b.WithTimeout(v.number)
    case Head => b.WithHeadOnly(v.flag)
    case BasicQuorum => b.WithBasicQuorum(v.flag)
    case IfModified => b.WithIfNotModified(v.clock.GetBytes())
    case NVal => b.WithNVal(v.number)
    case PR => b.WithPr(v.quorum.GetIntValue())
    case SloppyQuorum => b.WithSloppyQuorum(v.flag)
    case NotFoundOk => b.WithNotFoundOk(v.flag)
    case Other(_) => b
  }

  function QuorumOf(m: OptionMap, o: FetchOption): Option<int32>
    requires WellTypedMap(m) && (o == R || o == PR)
  {
    if o in m then Some(m[o].quorum.GetIntValue()) else None
  }

  function FlagOf(m: OptionMap, o: FetchOption): Option<bool>
    requires WellTypedMap(m)
    requires o == BasicQuorum || o == NotFoundOk || o == SloppyQuorum || o == Head || o == DeletedVClock
  {
    if o in m then Some(m[o].flag) else None
  }

  function NumberOf(m: OptionMap, o: FetchOption): Option<int32>
    requires WellTypedMap(m) && (o == NVal || o == Timeout)
  {
    if o in m then Some(m[o].number) else None
  }

  /** The field value option `o` is meant to produce from map `m`: set exactly when `o` is present and recognised. */
  function Expected(m: OptionMap, o: FetchOption): Option<FieldValue>
    requires WellTypedMap(m)
  {
    if o in m && Recognised(o) then Some(Unwrap(o, m[o])) else None
  }

  /**
   * The builder the translation is meant to produce from a location and
   * an option map, field by field: a field is set exactly when its
   * option is present, to that option's unwrapped value.
   */
  function Translate(loc: Location, m: OptionMap): (r: Builder)
    requires WellTypedMap(m)
    ensures r.bucket == loc.bucket && r.key == loc.key && r.bucketType == loc.bucketType
    ensures forall o :: Field(r, o) == Expected(m, o)
  {
    Initial(loc).(
      r := QuorumOf(m, R),
      pr := QuorumOf(m, PR),
      basicQuorum := FlagOf(m, BasicQuorum),
      notFoundOk := FlagOf(m, NotFoundOk),
      sloppyQuorum := FlagOf(m, SloppyQuorum),
      nVal := NumberOf(m, NVal),
      timeout := NumberOf(m, Timeout),
      headOnly := FlagOf(m, Head),
      returnDeletedVClock := FlagOf(m, DeletedVClock),
      ifNotModified := if IfModified in m then Some(m[IfModified].clock.GetBytes()) else None)
  }

  /** With no options, the translation is the builder as first constructed. */
  lemma TranslateEmpty(loc: Location)
    ensures Translate(loc, map[]) == Initial(loc)
  {
    var t := Translate(loc, map[]);
    forall o | Recognised(o) ensures Field(t, o) == Field(Initial(loc), o) {
      assert Field(t, o) == None;
    }
    FieldsDetermine(t, Initial(loc));
  }

  /**
   * Applying one option to the translation of `m` gives the translation
   * of `m` with that option set: the step the option loop takes agrees
   * with `withOption`'s map update, including when the key is already
   * present (the last value wins).
   */
  lemma ApplyIsUpdate(loc: Location, m: OptionMap, o: FetchOption, v: OptionValue)
    requires WellTypedMap(m) && WellTyped(o, v)
    ensures WellTypedMap(m[o := v])
    ensures ApplyOption(Translate(loc, m), o, v) == Translate(loc, m[o := v])
  {
    var m' := m[o := v];
    assert WellTypedMap(m') by {
      forall p | p in m' ensures WellTyped(p, m'[p]) {
        if p != o { assert m'[p] == m[p]; }
      }
    }
    var t := Translate(loc, m);
    var lhs := ApplyOption(t, o, v);
    var rhs := Translate(loc, m');
    forall p | Recognised(p) ensures Field(lhs, p) == Field(rhs, p) {
      if p == o {
        assert Field(rhs, p) == Expected(m', p);
      } else {
        assert Field(lhs, p) == Field(t, p) == Expected(m, p);
        assert Expected(m, p) == Expected(m', p);
        assert Field(rhs, p) == Expected(m', p);
      }
    }
    FieldsDetermine(lhs, rhs);
  }

  /** Options outside the registry have no effect on the translation. */
  lemma TranslateIgnoresUnrecognised(loc: Location, m: OptionMap)
    requires WellTypedMap(m)
    ensures WellTypedMap(RecognisedPart(m))
    ensures Translate(loc, m) == Translate(loc, RecognisedPart(m))
  {
    var t1, t2 := Translate(loc, m), Translate(loc, RecognisedPart(m));
    forall p | Recognised(p) ensures Field(t1, p) == Field(t2, p) { }
    FieldsDetermine(t1, t2);
  }

  /**
   * The translation is lossless on recognised options: two well-typed
   * option maps translate to the same builder exactly when they agree on
   * every recognised option.
   */
  lemma TranslateLossless(loc: Location, m1: OptionMap, m2: OptionMap)
    requires WellTypedMap(m1) && WellTypedMap(m2)
    ensures Translate(loc, m1) == Translate(loc, m2) <==> RecognisedPart(m1) == RecognisedPart(m2)
  {
    var t1, t2 := Translate(loc, m1), Translate(loc, m2);
    var p1, p2 := RecognisedPart(m1), RecognisedPart(m2);
    if t1 == t2 {
      forall o | o in p1 ensures o in p2 && p1[o] == p2[o] {
        assert Field(t1, o) == Field(t2, o);
        UnwrapInjective(o, m1[o], m2[o]);
      }
      forall o | o in p2 ensures o in p1 {
        assert Field(t1, o) == Field(t2, o);
      }
      assert p1 == p2;
    } else if p1 == p2 {
      TranslateIgnoresUnrecognised(loc, m1);
      TranslateIgnoresUnrecognised(loc, m2);
    }
  }

  /**
   * Whatever `getIntValue` and `getBytes` compute, two well-typed maps
   * translate to the same builder exactly when they hold the same
   * recognised options and each of those unwraps to the same value.
   */
  lemma TranslateAgreement(loc: Location, m1: OptionMap, m2: OptionMap)
    requires WellTypedMap(m1) && WellTypedMap(m2)
    ensures Translate(loc, m1) == Translate(loc, m2) <==>
      forall o :: Recognised(o) ==>
        (o in m1 <==> o in m2) && (o in m1 ==> Unwrap(o, m1[o]) == Unwrap(o, m2[o]))
  {
    var t1, t2 := Translate(loc, m1), Translate(loc, m2);
    if t1 == t2 {
      forall o | Recognised(o)
        ensures (o in m1 <==> o in m2) && (o in m1 ==> Unwrap(o, m1[o]) == Unwrap(o, m2[o]))
      {
        assert Field(t1, o) == Field(t2, o);
      }
    } else if forall o :: Recognised(o) ==>
        (o in m1 <==> o in m2) && (o in m1 ==> Unwrap(o, m1[o]) == Unwrap(o, m2[o])) {
      forall o | Recognised(o) ensures Field(t1, o) == Field(t2, o) {
        assert Field(t1, o) == Expected(m1, o) && Field(t2, o) == Expected(m2, o);
      }
      FieldsDetermine(t1, t2);
    }
  }

  /** Distinct values of one recognised option write distinct field values. */
  lemma UnwrapInjective(o: FetchOption, v1: OptionValue, v2: OptionValue)
    requires Recognised(o) && WellTyped(o, v1) && WellTyped(o, v2)
    ensures Unwrap(o, v1) == Unwrap(o, v2) ==> v1 == v2
  {
  }

  // ---------------------------------------------------------------------
  // The loop, visiting the entries in a given order
  // ---------------------------------------------------------------------

  predicate EntriesWellTyped(es: seq<Entry>) {
    forall i :: 0 <= i < |es| ==> WellTyped(es[i].0, es[i].1)
  }

  /**
   * The option loop run over the entries in the order `es` lists them,
   * as `Execute` runs it over the order its ghost `order` records. The
   * target is kept, and a field whose option is not listed is untouched.
   */
  function ApplyAll(b: Builder, es: seq<Entry>): (r: Builder)
    requires EntriesWellTyped(es)
    ensures SameTarget(r, b)
    ensures forall o :: o !in KeysOf(es) ==> Field(r, o) == Field(b, o)
    decreases |es|
  {
    if es == [] then b
    else
      KeysOfCons(es);
      ApplyAll(ApplyOption(b, es[0].0, es[0].1), es[1..])
  }

  lemma KeysOfCons(es: seq<Entry>)
    requires es != []
    ensures EntriesWellTyped(es) ==> EntriesWellTyped(es[1..])
    ensures KeysOf(es) == {es[0].0} + KeysOf(es[1..])
  {
    assert forall i | 0 <= i < |es[1..]| :: es[1..][i] == es[i + 1];
    forall o | o in KeysOf(es) ensures o in {es[0].0} + KeysOf(es[1..]) {
      var i :| 0 <= i < |es| && es[i].0 == o;
      if i > 0 { assert es[1..][i - 1] == es[i]; }
    }
  }

  /** Running the loop over one more entry is one more step of the if/else chain. */
  lemma {:induction false} ApplyAllSnoc(b: Builder, es: seq<Entry>, e: Entry)
    requires EntriesWellTyped(es) && WellTyped(e.0, e.1)
    ensures EntriesWellTyped(es + [e])
    ensures ApplyAll(b, es + [e]) == ApplyOption(ApplyAll(b, es), e.0, e.1)
    decreases |es|
  {
    var es' := es + [e];
    assert forall i | 0 <= i < |es'| :: es'[i] == if i < |es| then es[i] else e;
    if es != [] {
      assert es'[1..] == es[1..] + [e];
      KeysOfCons(es);
      ApplyAllSnoc(ApplyOption(b, es[0].0, es[0].1), es[1..], e);
    } else {
      assert es'[1..] == [];
    }
  }

  /** The map obtained by putting the entries of `es` into `m` in order. */
  function PutAll(m: OptionMap, es: seq<Entry>): OptionMap
    decreases |es|
  {
    if es == [] then m else PutAll(m[es[0].0 := es[0].1], es[1..])
  }

  function KeysOf(es: seq<Entry>): set<FetchOption> {
    set i | 0 <= i < |es| :: es[i].0
  }

  /** `es` lists the entries of `m`: every listed pair is in `m`, and every key of `m` is listed. */
  predicate IsEnumeration(es: seq<Entry>, m: OptionMap) {
    && (forall i :: 0 <= i < |es| ==> es[i].0 in m && m[es[i].0] == es[i].1)
    && (forall o :: o in m ==> o in KeysOf(es))
  }

  /** Running the loop over `es` from the translation of `m` translates `m` with `es` put into it. */
  lemma {:induction false} ApplyAllTranslates(loc: Location, m: OptionMap, es: seq<Entry>)
    requires WellTypedMap(m) && EntriesWellTyped(es)
    ensures WellTypedMap(PutAll(m, es))
    ensures ApplyAll(Translate(loc, m), es) == Translate(loc, PutAll(m, es))
    decreases |es|
  {
    if es != [] {
      ApplyIsUpdate(loc, m, es[0].0, es[0].1);
      KeysOfCons(es);
      ApplyAllTranslates(loc, m[es[0].0 := es[0].1], es[1..]);
    }
  }

  /** Putting entries that all agree with `target` into a map that agrees with it keeps agreeing. */
  lemma {:induction false} PutAllAgrees(m: OptionMap, es: seq<Entry>, target: OptionMap)
    requires forall o :: o in m ==> o in target && m[o] == target[o]
    requires forall i :: 0 <= i < |es| ==> es[i].0 in target && target[es[i].0] == es[i].1
    ensures PutAll(m, es).Keys == m.Keys + KeysOf(es)
    ensures forall o :: o in PutAll(m, es) ==> PutAll(m, es)[o] == target[o]
    decreases |es|
  {
    if es != [] {
      var m' := m[es[0].0 := es[0].1];
      forall i | 0 <= i < |es[1..]|
        ensures es[1..][i].0 in target && target[es[1..][i].0] == es[1..][i].1
      {
        assert es[1..][i] == es[i + 1];
      }
      PutAllAgrees(m', es[1..], target);
      KeysOfCons(es);
    }
  }

  lemma KeysOfSnoc(es: seq<Entry>, e: Entry)
    ensures KeysOf(es + [e]) == KeysOf(es) + {e.0}
  {
    var es' := es + [e];
    assert es'[|es|] == e;
    forall o | o in KeysOf(es') ensures o in KeysOf(es) + {e.0} {
      var i :| 0 <= i < |es'| && es'[i].0 == o;
      if i < |es| { assert es'[i] == es[i]; }
    }
    forall o | o in KeysOf(es) ensures o in KeysOf(es') {
      var i :| 0 <= i < |es| && es[i].0 == o;
      assert es'[i] == es[i];
    }
  }

  /**
   * The translated builder does not depend on the order in which the
   * option map is visited: for every listing of its entries, whatever the
   * order and even with repeats, the loop yields the translation.
   */
  lemma TranslationOrderIndependent(loc: Location, m: OptionMap, es: seq<Entry>)
    requires WellTypedMap(m) && IsEnumeration(es, m)
    ensures EntriesWellTyped(es)
    ensures ApplyAll(Initial(loc), es) == Translate(loc, m)
  {
    PutAllAgrees(map[], es, m);
    assert PutAll(map[], es) == m;
    TranslateEmpty(loc);
    ApplyAllTranslates(loc, map[], es);
  }

  // ---------------------------------------------------------------------
  // Response shaping
  // ---------------------------------------------------------------------

  /**
   * `FetchValue.Response`: immutable; `value` and `vClock` are Java
   * references that may be null.
   */
  datatype Response<T> = Response(
    notFound: bool,
    // Java's field `unchanged`; that word is reserved in Dafny
    unchangedFlag: bool,
    value: Option<seq<T>>,
    vClock: Option<VClock>)
  {
    /** `isNotFound`: the flag the response was constructed with. */
    function IsNotFound(): bool { notFound }

    /** `isUnchanged`: the flag the response was constructed with. */
    function IsUnchanged(): bool { unchangedFlag }

    /** `getvClock`: the vector clock the response was constructed with, or null. */
    function GetVClock(): Option<VClock> { vClock }

    /** `hasvClock`: true exactly when `getvClock` is not null. */
    function HasVClock(): (r: bool)
      ensures r <==> GetVClock() != None
    {
      vClock.Some?
    }

    /** `getValue`: the value list the response was constructed with, or null. */
    function GetValue(): Option<seq<T>> { value }

    /** `hasValue`: true exactly when `getValue` is not null. */
    function HasValue(): (r: bool)
      ensures r <==> GetValue() != None
    {
      value.Some?
    }
  }

  /** The cause carried by a failed cluster operation. */
  type Cause = string

  /** The `ExecutionException` that `Future.get()` throws, wrapping the operation's cause. */
  datatype ExecutionError = ExecutionError(cause: Cause)

  /** The pass-through converter: a raw object is returned as it is. */
  function PassThrough(o: RiakObject): RiakObject { o }

  /** `Converters.convert`: every object of the list through the converter, in order. */
  function ConvertAll<T>(convert: RiakObject -> T, objects: seq<RiakObject>): (r: seq<T>)
    ensures |r| == |objects|
    ensures forall i :: 0 <= i < |objects| ==> r[i] == convert(objects[i])
  {
    if objects == [] then [] else [convert(objects[0])] + ConvertAll(convert, objects[1..])
  }

  /** With the pass-through converter the value list is the raw object list. */
  lemma PassThroughKeepsObjects(objects: seq<RiakObject>)
    ensures ConvertAll(PassThrough, objects) == objects
  {
  }

  /** The response built from a successful raw response. */
  function BuildResponse<T>(convert: RiakObject -> T, raw: RawResponse): (r: Response<T>)
    ensures r.IsNotFound() == raw.notFound && r.IsUnchanged() == raw.unchangedFlag
    ensures r.HasVClock() <==> raw.vClock.Some?
    ensures r.GetVClock() == raw.vClock
    ensures r.HasValue() && |r.GetValue().value| == |raw.objectList|
    ensures forall i :: 0 <= i < |raw.objectList| ==> r.GetValue().value[i] == convert(raw.objectList[i])
  {
    Response(raw.notFound, raw.unchangedFlag, Some(ConvertAll(convert, raw.objectList)), raw.vClock)
  }

  /** What `execute` returns once the cluster's future has completed. */
  function Complete<T>(convert: RiakObject -> T, outcome: Result<RawResponse, Cause>): (r: Result<Response<T>, ExecutionError>)
    ensures r.Failure? <==> outcome.Failure?
    ensures outcome.Failure? ==> r.error.cause == outcome.error
    ensures outcome.Success? ==> r.value == BuildResponse(convert, outcome.value)
  {
    match outcome
    case Success(raw) => Success(BuildResponse(convert, raw))
    case Failure(cause) => Failure(ExecutionError(cause))
  }

  // ---------------------------------------------------------------------
  // The command object
  // ---------------------------------------------------------------------

  class FetchValue<T> {
    const location: Location
    const converter: RiakObject -> T
    var options: OptionMap

    /** Every option holds a value of the type its key declares. */
    ghost predicate Valid()
      reads this
    {
      WellTypedMap(options)
    }

    /** `FetchValue(Location, Converter)`, and `FetchValue(Key, Converter)`: no options yet. */
    constructor (location: Location, converter: RiakObject -> T)
      ensures Valid()
      ensures this.location == location && this.converter == converter
      ensures options == map[]
    {
      this.location := location;
      this.converter := converter;
      options := map[];
    }

    /** `withOption`: puts the option into the map and returns this same command. */
    method WithOption(o: FetchOption, v: OptionValue) returns (self: FetchValue<T>)
      requires Valid() && WellTyped(o, v)
      modifies this
      ensures Valid()
      ensures self == this
      ensures options == old(options)[o := v]
    {
      options := options[o := v];
      self := this;
    }

    /**
     * `execute`: builds the operation from the location and the options,
     * visiting the options in an unspecified order, submits it to the
     * cluster and shapes the result.
     */
    method Execute(cluster: Builder -> Result<RawResponse, Cause>)
      returns (r: Result<Response<T>, ExecutionError>, ghost order: seq<Entry>)
      requires Valid()
      ensures IsEnumeration(order, options)
      ensures forall i, j :: 0 <= i < j < |order| ==> order[i].0 != order[j].0
      ensures EntriesWellTyped(order)
      ensures r == Complete(converter, cluster(ApplyAll(Initial(location), order)))
      ensures r == Complete(converter, cluster(Translate(location, options)))
    {
      var builder := Initial(location);
      var remaining := options.Keys;
      order := [];
      while remaining != {}
        invariant remaining <= options.Keys
        invariant forall i :: 0 <= i < |order| ==>
          order[i].0 in options && order[i].0 !in remaining && options[order[i].0] == order[i].1
        invariant forall i, j :: 0 <= i < j < |order| ==> order[i].0 != order[j].0
        invariant KeysOf(order) == options.Keys - remaining
        invariant EntriesWellTyped(order)
        invariant builder == ApplyAll(Initial(location), order)
        decreases remaining
      {
        var o :| o in remaining;
        ghost var e := (o, options[o]);
        ApplyAllSnoc(Initial(location), order, e);
        KeysOfSnoc(order, e);
        builder := ApplyOption(builder, o, options[o]);
        order := order + [e];
        remaining := remaining - {o};
      }
      TranslationOrderIndependent(location, options, order);
      r := Complete(converter, cluster(builder));
    }
  }

  /** `FetchValue(Key)`: a command whose converter passes raw objects through. */
  method NewPassThrough(key: Location) returns (c: FetchValue<RiakObject>)
    ensures fresh(c) && c.Valid()
    ensures c.location == key && c.options == map[]
    ensures forall o :: c.converter(o) == o
  {
    c := new FetchValue(key, PassThrough);
  }

  /**
   * A usage scenario: fetch bucket "b", key "k" with no bucket type and a
   * 500 ms timeout, against a cluster that answers exactly that request
   * with one object and a vector clock.
   */
  method TimeoutScenario<T>(convert: RiakObject -> T, obj: RiakObject, clock: VClock)
    returns (r: Result<Response<T>, ExecutionError>)
    ensures r == Success(Response(false, false, Some([convert(obj)]), Some(clock)))
  {
    var loc := Location(None, [98], [107]);
    var command := new FetchValue(loc, convert);
    var same := command.WithOption(Timeout, IntValue(500));
    var expected := NewBuilder([98], [107]).WithTimeout(500);
    var cluster := (req: Builder) =>
      if req == expected then Success(RawResponse(false, false, [obj], Some(clock)))
      else Failure("unexpected request");
    assert Translate(loc, command.options) == expected by {
      ApplyIsUpdate(loc, map[], Timeout, IntValue(500));
      TranslateEmpty(loc);
    }
    ghost var order: seq<Entry>;
    r, order := same.Execute(cluster);
    assert ConvertAll(convert, [obj]) == [convert(obj)];
  }
}
