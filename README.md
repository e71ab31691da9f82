# FetchValue: the fetch-by-key command of the Riak Java client

This project models `FetchValue`, the command that fetches a value from Riak
by its key. A command holds three things:

- a `Location`: an optional bucket type, a bucket and a key;
- a `Converter` from raw `RiakObject`s to the caller's domain type;
- a map from typed `FetchOption` keys to option values.

`withOption` puts an option into the map. `execute` does three things in order:

1. It builds a `FetchOperation.Builder` from the location.
2. It walks the option map and calls one builder setter for each of the ten
   recognised options. Any other option key is skipped.
3. It submits the operation to the cluster, runs every returned object
   through the converter, and returns an immutable `Response`.

Modules, one per file:

- `Wrappers` (wrappers.dfy): `Option` stands for a Java reference that may be null. `Result` stands for a value or a thrown exception.
- `RiakTypes` (riak_types.dfy): bytes, 32-bit `int32`, `Location`, `Quorum` (carries its integer value; `GetIntValue`), `VClock` (carries its bytes; `GetBytes`) and `RiakObject`.
- `FetchOptions` (fetch_option.dfy): the `FetchOption` registry. It has the ten recognised options plus `Other(name)` for any further option constant. It also has the typed `OptionValue` and `WellTyped`, which is the value type that `FetchOption<U>` fixes.
- `FetchOperation` (fetch_operation.dfy): the external operation builder as a record. Every optional field starts unset. Its `With…` setters each set one field. `RawResponse` is the cluster's `FetchOperation.Response`.
- `FetchValueCommand` (fetch_value.dfy): the core.
  - The class `FetchValue` has a `map` field that `WithOption` updates in place.
  - `Execute` runs a `while` loop over the map's keys. It picks each next key with `:|`, so the model fixes no iteration order, just as `HashMap` fixes none.
  - `Translate` is the per-field specification of the builder the loop must produce.
  - `ApplyAll` runs the loop in one explicit order, for the order-independence lemma.
  - The response is shaped by the functions `ConvertAll`, `BuildResponse` and `Complete`.

The cluster is a parameter of `Execute`: a function from the built operation
to either a raw response or a failure cause. So the contract of `Execute`
also pins down which operation is sent.

## Model

| member | source | states |
|---|---|---|
| `FetchValueCommand.FetchValue.constructor` | src/main/java/com/basho/riak/client/operations/FetchValue.java:43-60 | A new command keeps the given location and converter, and its option map is empty. |
| `FetchValueCommand.NewPassThrough` | src/main/java/com/basho/riak/client/operations/FetchValue.java:68-71 | The `Key`-only constructor gives a fresh command with an empty option map. Its converter, the `PassThroughConverter`, returns every object unchanged. |
| `FetchValueCommand.FetchValue.WithOption` | src/main/java/com/basho/riak/client/operations/FetchValue.java:82-86 | Afterwards the map is the old map with `o` set to `v`. A repeated key takes the last value, and every other entry is unchanged. The method returns the same command object, and the map stays well typed. |
| `FetchValueCommand.FetchValue.Execute` | src/main/java/com/basho/riak/client/operations/FetchValue.java:89-155 | The loop visits the options in an unspecified order, recorded as the ghost `order`. That order lists every entry of the map exactly once, and the builder is `ApplyAll` over it, which equals `Translate(location, options)`. The result is what the cluster returns for that operation, shaped by `Complete`. |
| `FetchValueCommand.ApplyOption` | src/main/java/com/basho/riak/client/operations/FetchValue.java:102-145 | One step of the if/else chain. A recognised option sets its own field to its unwrapped value: `R`/`PR` through `getIntValue`, `IF_MODIFIED` through `getBytes`, the rest copied. Every other field and the target stay unchanged. An unrecognised option leaves the builder as it was. |
| `FetchValueCommand.Initial` | src/main/java/com/basho/riak/client/operations/FetchValue.java:96-97 | The builder as first constructed targets the location's bucket, key and bucket type. Every option-controlled field is unset. |
| `FetchValueCommand.Translate` | src/main/java/com/basho/riak/client/operations/FetchValue.java:92-146 | The translated builder's bucket, key and bucket type are the location's. Each option's field holds that option's unwrapped value when the option is in the map. Otherwise the field stays at the builder's initial unset value. |
| `FetchValueCommand.TranslateEmpty` | src/main/java/com/basho/riak/client/operations/FetchValue.java:96-97 | With no options, the translation is exactly the builder built from bucket and key with the bucket type set. |
| `FetchValueCommand.ApplyIsUpdate` | src/main/java/com/basho/riak/client/operations/FetchValue.java:99-146 | Applying option `o` with value `v` to the translation of `m` equals the translation of `m[o := v]`. So one loop step agrees with `withOption`'s last-write-wins map update. |
| `FetchValueCommand.TranslateIgnoresUnrecognised` | src/main/java/com/basho/riak/client/operations/FetchValue.java:104-145 | Dropping every unrecognised key from the map does not change the translation. The chain has no final else. |
| `FetchValueCommand.TranslateAgreement` | src/main/java/com/basho/riak/client/operations/FetchValue.java:104-143 | Two well-typed maps translate to the same builder exactly when they hold the same recognised options and each one unwraps to the same field value. This holds whatever `getIntValue` and `getBytes` compute. |
| `FetchValueCommand.TranslateLossless` | src/main/java/com/basho/riak/client/operations/FetchValue.java:104-143 | Two well-typed maps translate to the same builder exactly when they agree on every recognised option. The forwarding is lossless in both directions. |
| `FetchValueCommand.UnwrapInjective` | src/main/java/com/basho/riak/client/operations/FetchValue.java:104-143 | Two values of one recognised option that unwrap to the same field value are equal. |
| `FetchValueCommand.ApplyAll` | src/main/java/com/basho/riak/client/operations/FetchValue.java:99-146 | The option loop run over the entries in one given order keeps the target, and leaves every field whose option is not listed as it was. |
| `FetchValueCommand.ApplyAllSnoc` | src/main/java/com/basho/riak/client/operations/FetchValue.java:99-146 | Running the loop over one more entry is one more step of the if/else chain after the loop over the earlier entries. |
| `FetchValueCommand.ApplyAllTranslates` | src/main/java/com/basho/riak/client/operations/FetchValue.java:99-146 | Running the loop over any entry list, starting from the translation of `m`, gives the translation of `m` with those entries put in order. |
| `FetchValueCommand.TranslationOrderIndependent` | src/main/java/com/basho/riak/client/operations/FetchValue.java:99-146 | Take any listing of the map's entries, in any order and even with repeats. The loop over it, started from the initial builder, yields `Translate`. |
| `FetchValueCommand.ConvertAll` | src/main/java/com/basho/riak/client/operations/FetchValue.java:151 | The converted list has the raw list's length, and element i is `convert(objects[i])`. Order is kept. |
| `FetchValueCommand.PassThroughKeepsObjects` | src/main/java/com/basho/riak/client/operations/FetchValue.java:70 | With the pass-through converter, the value list is the raw object list itself. |
| `FetchValueCommand.BuildResponse` | src/main/java/com/basho/riak/client/operations/FetchValue.java:151-206 | The response is built from the raw response. Its `isNotFound()`, `isUnchanged()` and `getvClock()` are the raw response's values. `hasvClock()` is true exactly when the vclock is present, and `hasValue()` is true. Its value list has element i equal to `convert(obj_i)`. |
| `FetchValueCommand.Response.HasVClock` | src/main/java/com/basho/riak/client/operations/FetchValue.java:188-191 | True exactly when the vclock is present, that is, when `getvClock` is not null. It is a pure read of an immutable field. |
| `FetchValueCommand.Response.HasValue` | src/main/java/com/basho/riak/client/operations/FetchValue.java:198-201 | True exactly when the value list is present, that is, when `getValue` is not null. It is a pure read of an immutable field. |
| `FetchValueCommand.Complete` | src/main/java/com/basho/riak/client/operations/FetchValue.java:150-153 | A failed future becomes an `ExecutionError` carrying the original cause. A completed one becomes `BuildResponse` of the raw response. |
| `FetchValueCommand.TimeoutScenario` | src/main/java/com/basho/riak/client/operations/FetchValue.java:43-153 | A command for bucket "b", key "k", no bucket type and `TIMEOUT` 500 sends exactly the operation that sets the timeout and nothing else. Given one object and a vclock back, it returns `notFound` false, `unchanged` false, `[convert(obj)]` and that vclock. |

## Left out

- `FetchSearchIndex` (src/main/java/com/basho/riak/client/operations/FetchSearchIndex.java) is a thin wrapper that passes an index name to its operation and returns or rethrows the future's outcome. It is not part of this model.
- `cluster.execute(operation).get()`: the asynchronous submission and the blocking wait are not modelled. The cluster is a function from the built operation to a raw response or a failure cause. `InterruptedException` and cancellation are not modelled.
- `FetchOperation.Builder.build()` and the wire operation are not modelled. The builder is a record whose fields start unset, and `build()` is taken to send exactly those fields. `withBucketType` is taken to store the location's bucket type as given, absent included.
- `Quorum.getIntValue` and `VClock.getBytes` are field reads: a quorum is represented by its integer and a vector clock by its bytes. The named quorum constants are not modelled.
- The converter is a total function. A converter that throws, and `Converters.convert` failing, are not modelled.
- Java's unchecked casts of option values are not modelled: a mistyped or null value raises `ClassCastException` or `NullPointerException`. `WellTyped` stands for the type parameter of `FetchOption<U>` and is required by `WithOption`.
- NewPassThrough: fixes the command's type parameter to `RiakObject`. Java's `FetchValue(Key)` casts the pass-through converter to `Converter<T>` unchecked, so a command of any `T` compiles and fails with `ClassCastException` only when its values are read. That case is not modelled.
- `Key` is modelled as `Location`, so the `FetchValue(Key, Converter)` constructor is the same member as `FetchValue(Location, Converter)`. The bucket and key of a location are never null in the model.
- A null `location` or null converter is not modelled. Java's constructor accepts either. With a null location, `execute` fails with `NullPointerException` at `location.getType()`, and with a null converter the conversion fails. In the model both are always present.
- Validation: `FetchValue.java` performs no validation of its location before building the operation, and the model follows the code. It has no validation error path.
- Concurrency: the usage rule that the option map is not mutated while an `execute` runs is not modelled.
- `Response.value` may be null in Java. The model can represent that, but a response built by `execute` always carries a list.
