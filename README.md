# Micro-Manager summary metadata, modelled in Dafny

Micro-Manager attaches one summary-metadata record to each dataset: the
metadata shared by every image of one acquisition (file name and prefix, user,
profile, application and metadata versions, computer, directory, comments,
channel names, Z step, wait interval, custom intervals, intended dimensions,
start date, stage positions and user data). The record is immutable. It is
made with a `SummaryMetadataBuilder`, whose setters each set one property and
return the builder, and whose `build()` freezes the current values. An
existing record's `copy()` gives a new builder that holds its values, which is
how a record is "modified": copy, set, build again.

The model is one module, `Data`, in `summary_metadata.dfy`:

- `SummaryMetadata` is a datatype with seventeen `Option` fields. Its
  destructors are the getters; `None` is Java's `null`. The three Java
  arrays are sequences whose elements are themselves `Option`s, because Java
  arrays may contain `null`.
- `Field` names the seventeen properties and `Value` holds a property's value
  whatever its type. `Get(f)` is the getter for `f`. `With(f, v)` is the record
  with one property replaced. Both let the frame properties ("a setter changes
  only its own field") be stated once for all seventeen properties.
- `Setting` and `Apply` describe a fluent chain `b.x(..).y(..)...` as a sequence
  of setter calls applied in order. `RunChain` performs such a chain on a
  builder and is proved to leave it holding `Apply` of its previous values.
  The chain lemmas say which call decides
  each property.
- `SummaryMetadataBuilder` is a class with seventeen mutable fields. Its
  constructor is the fresh builder, with every field absent. Each setter has
  `modifies this` and returns `this`. `Build()` is a function that reads the
  builder and snapshots its fields into a record. It has no contract of its
  own: the constructor's, the setters' and `Copy`'s contracts say what it
  returns in each state.
- `Copy` is a method of the record. It chains all seventeen setters on a
  fresh builder.
- `SetAfterBuild`, `EditCopy` and `ExampleAcquisition` are client methods.
  They use only the contracts above to state snapshot semantics,
  independence of copies, and a worked example.

A sequence-valued property comes back from set, build and get as an equal
sequence, with the same length and the same elements in the same order. This
follows from the equalities in the setters' and `With`'s contracts.

## Model

| member | source | states |
|---|---|---|
| `Data.SummaryMetadata.Get` | mmstudio/src/org/micromanager/data/SummaryMetadata.java:80-183 | each of the seventeen getters returns a value of that property's declared type |
| `Data.SummaryMetadata.With` | mmstudio/src/org/micromanager/data/SummaryMetadata.java:28-31 | setting property f to v makes f's getter return exactly v and leaves the other sixteen getters unchanged |
| `Data.Empty` | mmstudio/src/org/micromanager/data/SummaryMetadata.java:8-10 | the record of a builder on which no setter was called reports every one of the seventeen properties as null |
| `Data.GettersDetermineRecord` | mmstudio/src/org/micromanager/data/SummaryMetadata.java:80-183 | two records whose seventeen getters agree are equal, so the getters observe the whole record |
| `Data.LastWriteWins` | mmstudio/src/org/micromanager/data/SummaryMetadata.java:28-63 | setting the same property twice leaves the second value and nothing of the first |
| `Data.DistinctSettersCommute` | mmstudio/src/org/micromanager/data/SummaryMetadata.java:28-63 | setters of two different properties give the same record in either order |
| `Data.ChainReflectsLastSetting` | mmstudio/src/org/micromanager/data/SummaryMetadata.java:31-63 | in a chain of setter calls, a value set by a call that no later call for the same property overrides is what the getter returns |
| `Data.ChainLeavesOthers` | mmstudio/src/org/micromanager/data/SummaryMetadata.java:31-63 | a property that no call of a chain sets keeps the value it had before the chain |
| `Data.SummaryMetadataBuilder.Build` | mmstudio/src/org/micromanager/data/SummaryMetadata.java:20-26 | returns a value holding the builder's seventeen current fields; the constructor, the setters and `Copy` fix its value in each state, and being a value it cannot be changed by later setter calls |
| `Data.Apply` | mmstudio/src/org/micromanager/data/SummaryMetadata.java:28-63 | the values a builder holds after a fluent chain of setter calls, applied from first to last; its meaning is given by `ChainReflectsLastSetting` and `ChainLeavesOthers` |
| `Data.RunChain` | mmstudio/src/org/micromanager/data/SummaryMetadata.java:31-63 | running a chain of setter calls on a builder returns that builder, leaves it holding `Apply` of its previous values, and every value set by a call that no later call for the same property overrides is what `build()` reports |
| `Data.SummaryMetadataBuilder.constructor` | mmstudio/src/org/micromanager/data/SummaryMetadata.java:8-14 | a new builder holds the all-null record Empty() |
| `Data.SummaryMetadataBuilder.SetFileName` | mmstudio/src/org/micromanager/data/SummaryMetadata.java:31 | returns the same builder; afterwards the builder's `fileName` is the argument (possibly null) and every other field is as before |
| `Data.SummaryMetadataBuilder.SetPrefix` | mmstudio/src/org/micromanager/data/SummaryMetadata.java:33 | returns the same builder; afterwards the builder's `prefix` is the argument (possibly null) and every other field is as before |
| `Data.SummaryMetadataBuilder.SetUserName` | mmstudio/src/org/micromanager/data/SummaryMetadata.java:35 | returns the same builder; afterwards the builder's `userName` is the argument (possibly null) and every other field is as before |
| `Data.SummaryMetadataBuilder.SetProfileName` | mmstudio/src/org/micromanager/data/SummaryMetadata.java:37 | returns the same builder; afterwards the builder's `profileName` is the argument (possibly null) and every other field is as before |
| `Data.SummaryMetadataBuilder.SetMicroManagerVersion` | mmstudio/src/org/micromanager/data/SummaryMetadata.java:39 | returns the same builder; afterwards the builder's `microManagerVersion` is the argument (possibly null) and every other field is as before |
| `Data.SummaryMetadataBuilder.SetMetadataVersion` | mmstudio/src/org/micromanager/data/SummaryMetadata.java:41 | returns the same builder; afterwards the builder's `metadataVersion` is the argument (possibly null) and every other field is as before |
| `Data.SummaryMetadataBuilder.SetComputerName` | mmstudio/src/org/micromanager/data/SummaryMetadata.java:43 | returns the same builder; afterwards the builder's `computerName` is the argument (possibly null) and every other field is as before |
| `Data.SummaryMetadataBuilder.SetDirectory` | mmstudio/src/org/micromanager/data/SummaryMetadata.java:45 | returns the same builder; afterwards the builder's `directory` is the argument (possibly null) and every other field is as before |
| `Data.SummaryMetadataBuilder.SetComments` | mmstudio/src/org/micromanager/data/SummaryMetadata.java:47 | returns the same builder; afterwards the builder's `comments` is the argument (possibly null) and every other field is as before |
| `Data.SummaryMetadataBuilder.SetChannelNames` | mmstudio/src/org/micromanager/data/SummaryMetadata.java:49 | returns the same builder; afterwards the builder's `channelNames` is the argument (possibly null) and every other field is as before |
| `Data.SummaryMetadataBuilder.SetZStepUm` | mmstudio/src/org/micromanager/data/SummaryMetadata.java:51 | returns the same builder; afterwards the builder's `zStepUm` is the argument (possibly null) and every other field is as before |
| `Data.SummaryMetadataBuilder.SetWaitInterval` | mmstudio/src/org/micromanager/data/SummaryMetadata.java:53 | returns the same builder; afterwards the builder's `waitInterval` is the argument (possibly null) and every other field is as before |
| `Data.SummaryMetadataBuilder.SetCustomIntervalsMs` | mmstudio/src/org/micromanager/data/SummaryMetadata.java:55 | returns the same builder; afterwards the builder's `customIntervalsMs` is the argument (possibly null) and every other field is as before |
| `Data.SummaryMetadataBuilder.SetIntendedDimensions` | mmstudio/src/org/micromanager/data/SummaryMetadata.java:57 | returns the same builder; afterwards the builder's `intendedDimensions` is the argument (possibly null) and every other field is as before |
| `Data.SummaryMetadataBuilder.SetStartDate` | mmstudio/src/org/micromanager/data/SummaryMetadata.java:59 | returns the same builder; afterwards the builder's `startDate` is the argument (possibly null) and every other field is as before |
| `Data.SummaryMetadataBuilder.SetStagePositions` | mmstudio/src/org/micromanager/data/SummaryMetadata.java:61 | returns the same builder; afterwards the builder's `stagePositions` is the argument (possibly null) and every other field is as before |
| `Data.SummaryMetadataBuilder.SetUserData` | mmstudio/src/org/micromanager/data/SummaryMetadata.java:63 | returns the same builder; afterwards the builder's `userData` is the argument (possibly null) and every other field is as before |
| `Data.SummaryMetadataBuilder.Assign` | mmstudio/src/org/micromanager/data/SummaryMetadata.java:28-63 | calling the setter of any property f with v returns the same builder and moves its snapshot from m to m.With(f, v), tying all seventeen setters to With |
| `Data.SummaryMetadata.Copy` | mmstudio/src/org/micromanager/data/SummaryMetadata.java:66-72 | copy() returns a new (fresh) builder whose build() equals the record it was called on, field for field, nulls included |
| `Data.SetAfterBuild` | mmstudio/src/org/micromanager/data/SummaryMetadata.java:20-26 | a record returned by build() is unchanged by a later setter call on the same builder, while the builder moves on to the updated values |
| `Data.EditCopy` | mmstudio/src/org/micromanager/data/SummaryMetadata.java:66-72 | editing one property through a copy gives the record with exactly that property replaced, and a second copy of the same record still builds the original |
| `Data.ExampleAcquisition` | mmstudio/src/org/micromanager/data/SummaryMetadata.java:8-72 | a record built with a file name, a Z step and two channel names returns those, reports every other property as null, and a copy with comments set differs from it only in the comments |

## Left out

- `Coords`, `MultiStagePosition` and `PropertyMap` are opaque types. Their internals are not part of this model.
- `Double` values (`zStepUm`, `waitInterval`, the elements of `customIntervalsMs`) are opaque stored values. The record does no arithmetic on them and validates nothing.
- `DataManager.getSummaryMetadataBuilder()` is not part of this model. The fresh builder it returns is the constructor `SummaryMetadataBuilder()`, with every field absent.
- Setters take and getters return sequences, not Java arrays. The model therefore cannot express a caller changing an array after passing it to a setter (lines 49, 55, 61), or writing into an array returned by `getChannelNames`, `getCustomIntervalsMs` or `getStagePositions` (lines 137, 156, 176). The interface says neither whether the builder copies the arrays it is given nor whether the getters hand out copies.
- The Java type is an interface meant for one implementation supplied by the application. The model is that single concrete implementation.
- Use of a builder after `build()`: the model lets the builder stay usable. The record already built is unaffected (`SetAfterBuild`).
- Object identity of records is not modelled. Records are values, so "a distinct instance" has no meaning for them. The builder that `copy()` returns is proved fresh.
- Thread safety, persistence and serialisation are outside this interface.
- Strings are Dafny `string`s, which hold Unicode scalar values. A Java `String` holds UTF-16 code units and may contain unpaired surrogates; such a value has no counterpart in the model. No behaviour of the record depends on the characters it stores.
