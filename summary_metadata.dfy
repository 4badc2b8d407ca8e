/**
 Summary metadata of a Micro-Manager dataset: the metadata that applies to
 every image of one acquisition. It is an immutable record, produced by a
 mutable builder (`SummaryMetadataBuilder.Build`), and an existing record
 yields a fresh builder holding its values (`SummaryMetadata.Copy`).

 Java's `null` is `None`: every field, and every element of the three
 array-valued fields, may be absent. Java arrays are stored as sequences, so
 a record can share no mutable storage with a builder or with a caller.
 */
module Data {

  datatype Option<+T> = None | Some(value: T)

  /** A boxed `java.lang.Double`; the record only stores and returns it. */
  type Double
  /** The planned extent along each acquisition axis (`Coords`). */
  type Coords
  /** One planned stage position (`MultiStagePosition`). */
  type MultiStagePosition
  /** General-purpose user key/value annotations (`PropertyMap`). */
  type PropertyMap

  /** Names the seventeen properties of the record, one per getter. */
  datatype Field =
    | FileName | Prefix | UserName | ProfileName | MicroManagerVersion
    | MetadataVersion | ComputerName | Directory | Comments | ChannelNames
    | ZStepUm | WaitInterval | CustomIntervalsMs | IntendedDimensions
    | StartDate | StagePositions | UserData

  /** The value of one property, whatever its Java type. */
  datatype Value =
    | Text(text: Option<string>)
    | Texts(texts: Option<seq<Option<string>>>)
    | Number(number: Option<Double>)
    | Numbers(numbers: Option<seq<Option<Double>>>)
    | Extents(extents: Option<Coords>)
    | Positions(positions: Option<seq<Option<MultiStagePosition>>>)
    | Properties(properties: Option<PropertyMap>)

  /** The value is Java's `null`. */
  predicate Absent(v: Value) {
    match v
    case Text(x) => x.None?
    case Texts(x) => x.None?
    case Number(x) => x.None?
    case Numbers(x) => x.None?
    case Extents(x) => x.None?
    case Positions(x) => x.None?
    case Properties(x) => x.None?
  }

  /** `v` has the Java type of property `f` (the setter's parameter type). */
  predicate Fits(f: Field, v: Value) {
    match f
    case ChannelNames => v.Texts?
    case ZStepUm | WaitInterval => v.Number?
    case CustomIntervalsMs => v.Numbers?
    case IntendedDimensions => v.Extents?
    case StagePositions => v.Positions?
    case UserData => v.Properties?
    case _ => v.Text?
  }

  /**
   The immutable record. Each destructor is the getter of the same name
   (`fileName` is `getFileName()`, and so on).
   */
  datatype SummaryMetadata = SummaryMetadata(
    fileName: Option<string>,
    prefix: Option<string>,
    userName: Option<string>,
    profileName: Option<string>,
    microManagerVersion: Option<string>,
    metadataVersion: Option<string>,
    computerName: Option<string>,
    directory: Option<string>,
    comments: Option<string>,
    channelNames: Option<seq<Option<string>>>,
    zStepUm: Option<Double>,
    waitInterval: Option<Double>,
    customIntervalsMs: Option<seq<Option<Double>>>,
    intendedDimensions: Option<Coords>,
    startDate: Option<string>,
    stagePositions: Option<seq<Option<MultiStagePosition>>>,
    userData: Option<PropertyMap>)
  {
    /** The getter for property `f`. */
    function Get(f: Field): (v: Value)
      ensures Fits(f, v)
    {
      match f
      case FileName => Text(fileName)
      case Prefix => Text(prefix)
      case UserName => Text(userName)
      case ProfileName => Text(profileName)
      case MicroManagerVersion => Text(microManagerVersion)
      case MetadataVersion => Text(metadataVersion)
      case ComputerName => Text(computerName)
      case Directory => Text(directory)
      case Comments => Text(comments)
      case ChannelNames => Texts(channelNames)
      case ZStepUm => Number(zStepUm)
      case WaitInterval => Number(waitInterval)
      case CustomIntervalsMs => Numbers(customIntervalsMs)
      case IntendedDimensions => Extents(intendedDimensions)
      case StartDate => Text(startDate)
      case StagePositions => Positions(stagePositions)
      case UserData => Properties(userData)
    }

    /**
     This record with property `f` replaced by `v`: what a builder holding
     this record's values holds after the setter for `f` is called with `v`.
     */
    function With(f: Field, v: Value): (r: SummaryMetadata)
      requires Fits(f, v)
      ensures r.Get(f) == v
      ensures forall g :: g != f ==> r.Get(g) == Get(g)
    {
      match f
      case FileName => this.(fileName := v.text)
      case Prefix => this.(prefix := v.text)
      case UserName => this.(userName := v.text)
      case ProfileName => this.(profileName := v.text)
      case MicroManagerVersion => this.(microManagerVersion := v.text)
      case MetadataVersion => this.(metadataVersion := v.text)
      case ComputerName => this.(computerName := v.text)
      case Directory => this.(directory := v.text)
      case Comments => this.(comments := v.text)
      case ChannelNames => this.(channelNames := v.texts)
      case ZStepUm => this.(zStepUm := v.number)
      case WaitInterval => this.(waitInterval := v.number)
      case CustomIntervalsMs => this.(customIntervalsMs := v.numbers)
      case IntendedDimensions => this.(intendedDimensions := v.extents)
      case StartDate => this.(startDate := v.text)
      case StagePositions => this.(stagePositions := v.positions)
      case UserData => this.(userData := v.properties)
    }

    /**
     `copy()`: a new builder whose values are this record's, built as a
     fresh builder with all seventeen setters chained on it.
     */
    method Copy() returns (b: SummaryMetadataBuilder)
      ensures fresh(b)
      ensures b.Build() == this
    {
      b := new SummaryMetadataBuilder();
      b := b.SetFileName(fileName);
      b := b.SetPrefix(prefix);
      b := b.SetUserName(userName);
      b := b.SetProfileName(profileName);
      b := b.SetMicroManagerVersion(microManagerVersion);
      b := b.SetMetadataVersion(metadataVersion);
      b := b.SetComputerName(computerName);
      b := b.SetDirectory(directory);
      b := b.SetComments(comments);
      b := b.SetChannelNames(channelNames);
      b := b.SetZStepUm(zStepUm);
      b := b.SetWaitInterval(waitInterval);
      b := b.SetCustomIntervalsMs(customIntervalsMs);
      b := b.SetIntendedDimensions(intendedDimensions);
      b := b.SetStartDate(startDate);
      b := b.SetStagePositions(stagePositions);
      b := b.SetUserData(userData);
    }
  }

  /** The record a builder yields when none of its setters was called. */
  function Empty(): (m: SummaryMetadata)
    ensures forall f :: Absent(m.Get(f))
  {
    SummaryMetadata(None, None, None, None, None, None, None, None, None,
                    None, None, None, None, None, None, None, None)
  }

  /** Two records whose seventeen getters agree are the same record. */
  lemma GettersDetermineRecord(m1: SummaryMetadata, m2: SummaryMetadata)
    requires forall f :: m1.Get(f) == m2.Get(f)
    ensures m1 == m2
  {
    assert m1.Get(FileName) == m2.Get(FileName);
    assert m1.Get(Prefix) == m2.Get(Prefix);
    assert m1.Get(UserName) == m2.Get(UserName);
    assert m1.Get(ProfileName) == m2.Get(ProfileName);
    assert m1.Get(MicroManagerVersion) == m2.Get(MicroManagerVersion);
    assert m1.Get(MetadataVersion) == m2.Get(MetadataVersion);
    assert m1.Get(ComputerName) == m2.Get(ComputerName);
    assert m1.Get(Directory) == m2.Get(Directory);
    assert m1.Get(Comments) == m2.Get(Comments);
    assert m1.Get(ChannelNames) == m2.Get(ChannelNames);
    assert m1.Get(ZStepUm) == m2.Get(ZStepUm);
    assert m1.Get(WaitInterval) == m2.Get(WaitInterval);
    assert m1.Get(CustomIntervalsMs) == m2.Get(CustomIntervalsMs);
    assert m1.Get(IntendedDimensions) == m2.Get(IntendedDimensions);
    assert m1.Get(StartDate) == m2.Get(StartDate);
    assert m1.Get(StagePositions) == m2.Get(StagePositions);
    assert m1.Get(UserData) == m2.Get(UserData);
  }

  /** Setting a property twice: the second value wins. */
  lemma LastWriteWins(m: SummaryMetadata, f: Field, v1: Value, v2: Value)
    requires Fits(f, v1) && Fits(f, v2)
    ensures m.With(f, v1).With(f, v2) == m.With(f, v2)
  {
  }

  /** Setters of different properties may be called in either order. */
  lemma DistinctSettersCommute(m: SummaryMetadata, f: Field, v: Value, g: Field, w: Value)
    requires Fits(f, v) && Fits(g, w) && f != g
    ensures m.With(f, v).With(g, w) == m.With(g, w).With(f, v)
  {
  }

  /** One call of a setter in a fluent chain: the property and its argument. */
  datatype Setting = Setting(field: Field, value: Value)

  predicate WellTyped(chain: seq<Setting>) {
    forall i :: 0 <= i < |chain| ==> Fits(chain[i].field, chain[i].value)
  }

  /**
   The values a builder holding `m` holds after the chained calls
   `chain[0]`, ..., `chain[|chain| - 1]`, in that order.
   */
  function Apply(m: SummaryMetadata, chain: seq<Setting>): SummaryMetadata
    requires WellTyped(chain)
  {
    if chain == [] then m
    else
      var last := chain[|chain| - 1];
      Apply(m, chain[..|chain| - 1]).With(last.field, last.value)
  }

  /**
   In a chain of setter calls, the last call for a property decides its
   value: every value set by a call that no later call overrides is read
   back by the getter.
   */
  lemma {:induction false} ChainReflectsLastSetting(m: SummaryMetadata, chain: seq<Setting>, i: nat)
    requires WellTyped(chain)
    requires i < |chain|
    requires forall j :: i < j < |chain| ==> chain[j].field != chain[i].field
    ensures Apply(m, chain).Get(chain[i].field) == chain[i].value
  {
    if i < |chain| - 1 {
      var front := chain[..|chain| - 1];
      assert front[i] == chain[i];
      ChainReflectsLastSetting(m, front, i);
    }
  }

  /** A property that no call in the chain sets keeps its previous value. */
  lemma {:induction false} ChainLeavesOthers(m: SummaryMetadata, chain: seq<Setting>, f: Field)
    requires WellTyped(chain)
    requires forall j :: 0 <= j < |chain| ==> chain[j].field != f
    ensures Apply(m, chain).Get(f) == m.Get(f)
  {
    if chain != [] {
      ChainLeavesOthers(m, chain[..|chain| - 1], f);
    }
  }

  /**
   The mutable builder. Its seventeen fields start out absent; each setter
   replaces one of them and returns the builder itself, so that calls can be
   chained; `Build` snapshots them into a record.
   */
  class SummaryMetadataBuilder {
    var fileName: Option<string>
    var prefix: Option<string>
    var userName: Option<string>
    var profileName: Option<string>
    var microManagerVersion: Option<string>
    var metadataVersion: Option<string>
    var computerName: Option<string>
    var directory: Option<string>
    var comments: Option<string>
    var channelNames: Option<seq<Option<string>>>
    var zStepUm: Option<Double>
    var waitInterval: Option<Double>
    var customIntervalsMs: Option<seq<Option<Double>>>
    var intendedDimensions: Option<Coords>
    var startDate: Option<string>
    var stagePositions: Option<seq<Option<MultiStagePosition>>>
    var userData: Option<PropertyMap>

    /** A fresh builder: every field is absent. */
    constructor ()
      ensures Build() == Empty()
    {
      fileName, prefix, userName, profileName := None, None, None, None;
      microManagerVersion, metadataVersion, computerName := None, None, None;
      directory, comments, channelNames := None, None, None;
      zStepUm, waitInterval, customIntervalsMs := None, None, None;
      intendedDimensions, startDate, stagePositions, userData := None, None, None, None;
    }

    /**
     `build()`: the current values, frozen. The result is a value, so no
     later setter call on this builder can reach it.
     */
    function Build(): SummaryMetadata
      reads this
    {
      SummaryMetadata(fileName, prefix, userName, profileName,
                      microManagerVersion, metadataVersion, computerName,
                      directory, comments, channelNames, zStepUm, waitInterval,
                      customIntervalsMs, intendedDimensions, startDate,
                      stagePositions, userData)
    }

    method SetFileName(v: Option<string>) returns (r: SummaryMetadataBuilder)
      modifies this
      ensures r == this && Build() == old(Build()).(fileName := v)
    {
      fileName := v;
      r := this;
    }

    method SetPrefix(v: Option<string>) returns (r: SummaryMetadataBuilder)
      modifies this
      ensures r == this && Build() == old(Build()).(prefix := v)
    {
      prefix := v;
      r := this;
    }

    method SetUserName(v: Option<string>) returns (r: SummaryMetadataBuilder)
      modifies this
      ensures r == this && Build() == old(Build()).(userName := v)
    {
      userName := v;
      r := this;
    }

    method SetProfileName(v: Option<string>) returns (r: SummaryMetadataBuilder)
      modifies this
      ensures r == this && Build() == old(Build()).(profileName := v)
    {
      profileName := v;
      r := this;
    }

    method SetMicroManagerVersion(v: Option<string>) returns (r: SummaryMetadataBuilder)
      modifies this
      ensures r == this && Build() == old(Build()).(microManagerVersion := v)
    {
      microManagerVersion := v;
      r := this;
    }

    method SetMetadataVersion(v: Option<string>) returns (r: SummaryMetadataBuilder)
      modifies this
      ensures r == this && Build() == old(Build()).(metadataVersion := v)
    {
      metadataVersion := v;
      r := this;
    }

    method SetComputerName(v: Option<string>) returns (r: SummaryMetadataBuilder)
      modifies this
      ensures r == this && Build() == old(Build()).(computerName := v)
    {
      computerName := v;
      r := this;
    }

    method SetDirectory(v: Option<string>) returns (r: SummaryMetadataBuilder)
      modifies this
      ensures r == this && Build() == old(Build()).(directory := v)
    {
      directory := v;
      r := this;
    }

    method SetComments(v: Option<string>) returns (r: SummaryMetadataBuilder)
      modifies this
      ensures r == this && Build() == old(Build()).(comments := v)
    {
      comments := v;
      r := this;
    }

    method SetChannelNames(v: Option<seq<Option<string>>>) returns (r: SummaryMetadataBuilder)
      modifies this
      ensures r == this && Build() == old(Build()).(channelNames := v)
    {
      channelNames := v;
      r := this;
    }

    method SetZStepUm(v: Option<Double>) returns (r: SummaryMetadataBuilder)
      modifies this
      ensures r == this && Build() == old(Build()).(zStepUm := v)
    {
      zStepUm := v;
      r := this;
    }

    method SetWaitInterval(v: Option<Double>) returns (r: SummaryMetadataBuilder)
      modifies this
      ensures r == this && Build() == old(Build()).(waitInterval := v)
    {
      waitInterval := v;
      r := this;
    }

    method SetCustomIntervalsMs(v: Option<seq<Option<Double>>>) returns (r: SummaryMetadataBuilder)
      modifies this
      ensures r == this && Build() == old(Build()).(customIntervalsMs := v)
    {
      customIntervalsMs := v;
      r := this;
    }

    method SetIntendedDimensions(v: Option<Coords>) returns (r: SummaryMetadataBuilder)
      modifies this
      ensures r == this && Build() == old(Build()).(intendedDimensions := v)
    {
      intendedDimensions := v;
      r := this;
    }

    method SetStartDate(v: Option<string>) returns (r: SummaryMetadataBuilder)
      modifies this
      ensures r == this && Build() == old(Build()).(startDate := v)
    {
      startDate := v;
      r := this;
    }

    method SetStagePositions(v: Option<seq<Option<MultiStagePosition>>>) returns (r: SummaryMetadataBuilder)
      modifies this
      ensures r == this && Build() == old(Build()).(stagePositions := v)
    {
      stagePositions := v;
      r := this;
    }

    method SetUserData(v: Option<PropertyMap>) returns (r: SummaryMetadataBuilder)
      modifies this
      ensures r == this && Build() == old(Build()).(userData := v)
    {
      userData := v;
      r := this;
    }

    /** Calls the setter of property `f` with `v`. */
    method Assign(f: Field, v: Value) returns (r: SummaryMetadataBuilder)
      requires Fits(f, v)
      modifies this
      ensures r == this && Build() == old(Build()).With(f, v)
    {
      match f
      case FileName => r := SetFileName(v.text);
      case Prefix => r := SetPrefix(v.text);
      case UserName => r := SetUserName(v.text);
      case ProfileName => r := SetProfileName(v.text);
      case MicroManagerVersion => r := SetMicroManagerVersion(v.text);
      case MetadataVersion => r := SetMetadataVersion(v.text);
      case ComputerName => r := SetComputerName(v.text);
      case Directory => r := SetDirectory(v.text);
      case Comments => r := SetComments(v.text);
      case ChannelNames => r := SetChannelNames(v.texts);
      case ZStepUm => r := SetZStepUm(v.number);
      case WaitInterval => r := SetWaitInterval(v.number);
      case CustomIntervalsMs => r := SetCustomIntervalsMs(v.numbers);
      case IntendedDimensions => r := SetIntendedDimensions(v.extents);
      case StartDate => r := SetStartDate(v.text);
      case StagePositions => r := SetStagePositions(v.positions);
      case UserData => r := SetUserData(v.properties);
    }
  }

  /**
   Runs the fluent chain `b.x(..).y(..)...` given by `chain` on `b`: the
   builder ends up holding `Apply` of its previous values, so the last call
   for each property decides what `build()` reports for it.
   */
  method RunChain(b: SummaryMetadataBuilder, chain: seq<Setting>) returns (r: SummaryMetadataBuilder)
    requires WellTyped(chain)
    modifies b
    ensures r == b
    ensures b.Build() == Apply(old(b.Build()), chain)
    ensures forall i :: 0 <= i < |chain| && (forall j :: i < j < |chain| ==> chain[j].field != chain[i].field)
              ==> b.Build().Get(chain[i].field) == chain[i].value
  {
    ghost var start := b.Build();
    r := b;
    var i := 0;
    while i < |chain|
      invariant 0 <= i <= |chain|
      invariant r == b
      invariant b.Build() == Apply(start, chain[..i])
    {
      r := r.Assign(chain[i].field, chain[i].value);
      assert chain[..i + 1][..i] == chain[..i];
      i := i + 1;
    }
    assert chain[..|chain|] == chain;
    forall i | 0 <= i < |chain| && (forall j :: i < j < |chain| ==> chain[j].field != chain[i].field)
      ensures b.Build().Get(chain[i].field) == chain[i].value
    {
      ChainReflectsLastSetting(start, chain, i);
    }
  }

  /**
   A record already built is a snapshot: calling a setter on its builder
   afterwards leaves it as it was, and only the builder moves on.
   */
  method SetAfterBuild(b: SummaryMetadataBuilder, f: Field, v: Value) returns (built: SummaryMetadata)
    requires Fits(f, v)
    modifies b
    ensures built == old(b.Build())
    ensures b.Build() == built.With(f, v)
  {
    built := b.Build();
    var _ := b.Assign(f, v);
  }

  /**
   Editing one copy of a record through its builder changes neither the
   record nor a second copy of it: `edited` is the record with property `f`
   replaced, `sibling` is built from an untouched second copy.
   */
  method EditCopy(m: SummaryMetadata, f: Field, v: Value)
    returns (edited: SummaryMetadata, sibling: SummaryMetadata)
    requires Fits(f, v)
    ensures edited.Get(f) == v
    ensures forall g :: g != f ==> edited.Get(g) == m.Get(g)
    ensures sibling == m
  {
    var b1 := m.Copy();
    var b2 := m.Copy();
    var _ := b1.Assign(f, v);
    edited := b1.Build();
    sibling := b2.Build();
  }

  /**
   A record with file name "exp1.tif", a Z step and channels "DAPI" and
   "GFP", then a rebuilt copy of it whose comments are "retake".
   */
  method ExampleAcquisition(zStep: Double) returns (first: SummaryMetadata, retake: SummaryMetadata)
    ensures first.fileName == Some("exp1.tif")
    ensures first.zStepUm == Some(zStep)
    ensures first.channelNames == Some([Some("DAPI"), Some("GFP")])
    ensures forall f :: f != FileName && f != ZStepUm && f != ChannelNames ==> Absent(first.Get(f))
    ensures retake.comments == Some("retake") && first.comments == None
    ensures forall f :: f != Comments ==> retake.Get(f) == first.Get(f)
  {
    var b := new SummaryMetadataBuilder();
    b := b.SetFileName(Some("exp1.tif"));
    b := b.SetZStepUm(Some(zStep));
    b := b.SetChannelNames(Some([Some("DAPI"), Some("GFP")]));
    first := b.Build();
    var c := first.Copy();
    c := c.SetComments(Some("retake"));
    retake := c.Build();
  }
}
