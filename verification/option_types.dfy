/** The two options classes of the workshop and their field defaults.

    `TestOptions.Vat` is a C# `decimal`; it is modelled exactly as a `real`.
    `TestOptions.Callstack` is a get-only list that configure, post-configure
    and validate steps append trace entries to; it is never replaced. */
module OptionTypes {

  datatype Option<T> = None | Some(value: T)

  datatype TestOptions = TestOptions(
    region: string,
    url: string,
    vat: real,
    enabled: bool,
    callstack: seq<string>)

  datatype RegionOptions = RegionOptions(region: string)

  /** One field write of a `Configure(o => { o.X = ...; })` lambda. */
  datatype Assignment =
    | SetRegion(region: string)
    | SetUrl(url: string)
    | SetVat(vat: real)
    | SetEnabled(enabled: bool)

  /** `new TestOptions()`: the property initialisers run before any step. */
  function NewTestOptions(): (o: TestOptions)
    ensures o.region == "DefaultRegion"
    ensures o.url == "" && o.vat == 0.0 && !o.enabled
    ensures o.callstack == []
  {
    TestOptions("DefaultRegion", "", 0.0, false, [])
  }

  /** `new RegionOptions()`. */
  function NewRegionOptions(): (o: RegionOptions)
    ensures o.region == ""
  {
    RegionOptions("")
  }

  /** `after` is `before` with zero or more entries appended to its callstack:
      the list object is shared, so a step can only add to it. */
  ghost predicate Extends(before: TestOptions, after: TestOptions)
  {
    before.callstack <= after.callstack
  }

  /** Two instances agree on every field except the callstack. */
  ghost predicate SameFields(a: TestOptions, b: TestOptions)
  {
    a.region == b.region && a.url == b.url && a.vat == b.vat && a.enabled == b.enabled
  }

  function Assign(o: TestOptions, a: Assignment): (r: TestOptions)
    ensures r.callstack == o.callstack
    ensures a.SetRegion? ==> r == o.(region := a.region)
    ensures a.SetUrl? ==> r == o.(url := a.url)
    ensures a.SetVat? ==> r == o.(vat := a.vat)
    ensures a.SetEnabled? ==> r == o.(enabled := a.enabled)
  {
    match a
    case SetRegion(v) => o.(region := v)
    case SetUrl(v) => o.(url := v)
    case SetVat(v) => o.(vat := v)
    case SetEnabled(v) => o.(enabled := v)
  }

  /** The body of one `Configure` lambda: its writes in textual order. */
  function AssignAll(o: TestOptions, asg: seq<Assignment>): (r: TestOptions)
    ensures r.callstack == o.callstack
    decreases |asg|
  {
    if asg == [] then o else AssignAll(Assign(o, asg[0]), asg[1..])
  }

  /** The four fields a `Configure` lambda can write. */
  datatype Field = RegionField | UrlField | VatField | EnabledField

  predicate Writes(a: Assignment, f: Field)
  {
    match f
    case RegionField => a.SetRegion?
    case UrlField => a.SetUrl?
    case VatField => a.SetVat?
    case EnabledField => a.SetEnabled?
  }

  /** `x` and `y` hold the same value in field `f`. */
  predicate Agree(x: TestOptions, y: TestOptions, f: Field)
  {
    match f
    case RegionField => x.region == y.region
    case UrlField => x.url == y.url
    case VatField => x.vat == y.vat
    case EnabledField => x.enabled == y.enabled
  }

  /** No write in `asg` touches `f`. */
  predicate Untouched(asg: seq<Assignment>, f: Field)
  {
    forall i :: 0 <= i < |asg| ==> !Writes(asg[i], f)
  }

  /** `asg[i]` is the last write in `asg` to `f`. */
  predicate LastWriteAt(asg: seq<Assignment>, i: int, f: Field)
  {
    && 0 <= i < |asg|
    && Writes(asg[i], f)
    && forall j :: i < j < |asg| ==> !Writes(asg[j], f)
  }

  /** A lambda keeps every field it never writes, and leaves in every field
      it writes the value of its last write to that field. */
  lemma {:induction false} AssignAllFields(o: TestOptions, asg: seq<Assignment>)
    ensures forall f :: Untouched(asg, f) ==> Agree(AssignAll(o, asg), o, f)
    ensures forall i :: LastWriteAt(asg, i, RegionField) ==> AssignAll(o, asg).region == asg[i].region
    ensures forall i :: LastWriteAt(asg, i, UrlField) ==> AssignAll(o, asg).url == asg[i].url
    ensures forall i :: LastWriteAt(asg, i, VatField) ==> AssignAll(o, asg).vat == asg[i].vat
    ensures forall i :: LastWriteAt(asg, i, EnabledField) ==> AssignAll(o, asg).enabled == asg[i].enabled
    decreases |asg|
  {
    if asg != [] {
      var o1 := Assign(o, asg[0]);
      var tail := asg[1..];
      AssignAllFields(o1, tail);
      assert AssignAll(o, asg) == AssignAll(o1, tail);
      forall f | Untouched(asg, f)
        ensures Agree(AssignAll(o, asg), o, f)
      {
        assert !Writes(asg[0], f);
        assert Untouched(tail, f) by {
          forall k | 0 <= k < |tail| ensures !Writes(tail[k], f) {
            assert tail[k] == asg[k + 1];
          }
        }
      }
      forall f, i | LastWriteAt(asg, i, f)
        ensures if i == 0 then Untouched(tail, f) else LastWriteAt(tail, i - 1, f)
      {
        forall k | 0 <= k < |tail| && i <= k ensures !Writes(tail[k], f) || k == i - 1 {
          assert tail[k] == asg[k + 1];
        }
      }
    }
  }

  /** The RegionOptions pipeline used as a collaborator: the
      `Configure(o => o.Region = v)` steps registered for it, run in order on
      `new RegionOptions()`. The last registered value wins. */
  function ConfigureRegionOptions(o: RegionOptions, values: seq<string>): (r: RegionOptions)
    ensures values == [] ==> r == o
    ensures values != [] ==> r.region == values[|values| - 1]
    decreases |values|
  {
    if values == [] then o else ConfigureRegionOptions(RegionOptions(values[0]), values[1..])
  }
}
