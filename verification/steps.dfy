/** The individual steps a pipeline runs on a `TestOptions`: the configure
    lambdas the tests register, the helper classes `ConfigureWithoutName`,
    `ConfigureNamed`, `PostConfigureTestOptions`, `ValidateTestOptions` and
    `MultipleValidateTestOptions`, and bool validators.

    Collaborator services are plain values resolved by the caller. */
module Steps {
  import opened OptionTypes
  import opened Configuration

  /** What `MyService.GetRegion()` returns. */
  const MyServiceRegion := "MyServiceRegion"

  /** The collaborators a step may ask for: `MyService` (through its region)
      and the `IOptions<RegionOptions>` value. */
  datatype Collaborators = Collaborators(myService: string, regionOptions: RegionOptions)

  /** The mutation a configure or post-configure registration performs. */
  datatype Action =
    | BindSection(section: string)          // .Bind(configuration.GetSection(section))
    | AssignFields(assignments: seq<Assignment>)// .Configure(o => { o.X = ...; })
    | RegionFromMyService                   // .Configure<MyService>(...)
    | RegionFromRegionOptions               // .Configure<IOptions<RegionOptions>>(...)
    | RegionFromBoth                        // .Configure<IOptions<RegionOptions>, MyService>(...)
    | FillEmptyUrl(url: string)             // if (string.IsNullOrEmpty(o.Url)) o.Url = url
    | ConfigureWithoutNameStep              // class ConfigureWithoutName
    | ConfigureNamedStep                    // class ConfigureNamed (its named overload)
    | PostConfigureTestOptionsStep          // class PostConfigureTestOptions

  const ConfigureWithoutNameEntry := "ConfigureWithOutName_Configure"
  const ConfigureNamedPrefix := "ConfigureNamed_Configure_for_"
  const ConfigureNamedNamelessEntry := "ConfigureNamed_Configure"
  const PostConfigurePrefix := "PostConfigureTestOptions_PostConfigure_"

  /** `ConfigureWithoutName.Configure(options)`. */
  function ConfigureWithoutName(o: TestOptions): (r: TestOptions)
    ensures SameFields(o, r)
    ensures r.callstack == o.callstack + [ConfigureWithoutNameEntry]
  {
    o.(callstack := o.callstack + [ConfigureWithoutNameEntry])
  }

  /** `ConfigureNamed.Configure(name, options)`: the entry carries the name
      the pipeline runs for (the empty default name gives a bare prefix).
      Its nameless overload, which would append `ConfigureNamed_Configure`
      and throw, is never reached. */
  function ConfigureNamed(name: string, o: TestOptions): (r: TestOptions)
    ensures SameFields(o, r)
    ensures r.callstack == o.callstack + [ConfigureNamedPrefix + name]
  {
    o.(callstack := o.callstack + [ConfigureNamedPrefix + name])
  }

  /** `PostConfigureTestOptions.PostConfigure(name, options)`: a name-tagged
      trace entry, then Region overwritten by the collaborator's region. */
  function PostConfigureTestOptions(name: string, myService: string, o: TestOptions): (r: TestOptions)
    ensures r.callstack == o.callstack + [PostConfigurePrefix + name]
    ensures r.region == myService
    ensures r.url == o.url && r.vat == o.vat && r.enabled == o.enabled
  {
    o.(callstack := o.callstack + [PostConfigurePrefix + name], region := myService)
  }

  /** The trace entries an action leaves for the requested name: one for
      each helper class, none for a binder or a lambda. */
  function ActionTrace(action: Action, name: string): seq<string>
  {
    match action
    case ConfigureWithoutNameStep => [ConfigureWithoutNameEntry]
    case ConfigureNamedStep => [ConfigureNamedPrefix + name]
    case PostConfigureTestOptionsStep => [PostConfigurePrefix + name]
    case _ => []
  }

  /** Runs one configure or post-configure action for the requested name. */
  function Apply(config: Config, collab: Collaborators, action: Action, name: string, o: TestOptions): (r: TestOptions)
    ensures Extends(o, r)
    ensures r.callstack == o.callstack + ActionTrace(action, name)
    ensures (!action.ConfigureWithoutNameStep? && !action.ConfigureNamedStep?
             && !action.PostConfigureTestOptionsStep?) ==> r.callstack == o.callstack
    ensures action.BindSection? ==> r == Bind(config, action.section, o)
    ensures action.AssignFields? ==> r == AssignAll(o, action.assignments)
    ensures action.RegionFromMyService? ==> r == o.(region := collab.myService)
    ensures action.RegionFromRegionOptions? ==> r == o.(region := collab.regionOptions.region)
    ensures action.RegionFromBoth? ==>
              r == o.(region := collab.myService + "_" + collab.regionOptions.region)
    ensures action.FillEmptyUrl? && o.url == "" ==> r == o.(url := action.url)
    ensures action.FillEmptyUrl? && o.url != "" ==> r == o
    ensures action.ConfigureWithoutNameStep? ==> r == ConfigureWithoutName(o)
    ensures action.ConfigureNamedStep? ==> r == ConfigureNamed(name, o)
    ensures action.PostConfigureTestOptionsStep? ==> r == PostConfigureTestOptions(name, collab.myService, o)
  {
    match action
    case BindSection(section) => Bind(config, section, o)
    case AssignFields(asg) => AssignAll(o, asg)
    case RegionFromMyService => o.(region := collab.myService)
    case RegionFromRegionOptions => o.(region := collab.regionOptions.region)
    case RegionFromBoth => o.(region := collab.myService + "_" + collab.regionOptions.region)
    case FillEmptyUrl(url) => if o.url == "" then o.(url := url) else o
    case ConfigureWithoutNameStep => ConfigureWithoutName(o)
    case ConfigureNamedStep => ConfigureNamed(name, o)
    case PostConfigureTestOptionsStep => PostConfigureTestOptions(name, collab.myService, o)
  }

  // ---------------------------------------------------------------------------
  // Validators
  // ---------------------------------------------------------------------------

  /** The predicate of a `.Validate(o => ...)` bool validator. */
  datatype Condition =
    | UrlPresent   // returns !string.IsNullOrEmpty(o.Url)
    | AlwaysTrue   // returns true (the tests' counting validator)

  datatype Check =
    | BoolCheck(condition: Condition)
    | ValidateTestOptionsCheck
    | MultipleValidateTestOptionsCheck

  /** The result of running one validator: the instance (validators may
      append to its callstack) and the failures it reported. */
  datatype Validation = Validation(options: TestOptions, failures: seq<string>)

  /** The one fixed message a bool validator reports when it returns false. */
  const GenericFailure := "A validation error has occurred."

  const ValidateTestOptionsPrefix := "ValidateTestOptions_Validate_"
  const MultipleValidatePrefix := "MultipleValidateTestOptions_Validate_"

  /** `Missing <field> on TestOptions for name '<name>'`. */
  function MissingMessage(field: string, name: string): string
  {
    "Missing " + field + " on TestOptions for name '" + name + "'"
  }

  predicate Holds(c: Condition, o: TestOptions)
  {
    match c
    case UrlPresent => o.url != ""
    case AlwaysTrue => true
  }

  /** `ValidateTestOptions.Validate(name, options)`. */
  function ValidateTestOptions(name: string, o: TestOptions): (r: Validation)
    ensures SameFields(o, r.options)
    ensures r.options.callstack == o.callstack + [ValidateTestOptionsPrefix + name]
    ensures r.failures != [] <==> o.url == ""
    ensures r.failures != [] ==> r.failures == [MissingMessage("Url", name)]
  {
    var traced := o.(callstack := o.callstack + [ValidateTestOptionsPrefix + name]);
    if o.url == "" then Validation(traced, [MissingMessage("Url", name)])
    else Validation(traced, [])
  }

  /** `MultipleValidateTestOptions.Validate(name, options)`. */
  function MultipleValidateTestOptions(name: string, o: TestOptions): (r: Validation)
    ensures SameFields(o, r.options)
    ensures r.options.callstack == o.callstack + [MultipleValidatePrefix + name]
    ensures |r.failures| == (if o.url == "" then 1 else 0) + (if o.vat == 0.0 then 1 else 0)
    ensures r.failures == [] <==> o.url != "" && o.vat != 0.0
    ensures MissingMessage("Url", name) in r.failures <==> o.url == ""
    ensures MissingMessage("Vat", name) in r.failures <==> o.vat == 0.0
    ensures o.url == "" ==> r.failures[0] == MissingMessage("Url", name)
    ensures o.vat == 0.0 ==> r.failures[|r.failures| - 1] == MissingMessage("Vat", name)
  {
    var traced := o.(callstack := o.callstack + [MultipleValidatePrefix + name]);
    var urlFailures := if o.url == "" then [MissingMessage("Url", name)] else [];
    var vatFailures := if o.vat == 0.0 then [MissingMessage("Vat", name)] else [];
    MessagesDiffer(name);
    Validation(traced, urlFailures + vatFailures)
  }

  lemma MessagesDiffer(name: string)
    ensures MissingMessage("Url", name) != MissingMessage("Vat", name)
  {
    assert MissingMessage("Url", name)[8] == 'U';
    assert MissingMessage("Vat", name)[8] == 'V';
  }

  /** The trace entries a validator leaves for the requested name: one for
      each helper class, none for a bool validator. */
  function CheckTrace(check: Check, name: string): seq<string>
  {
    match check
    case BoolCheck(_) => []
    case ValidateTestOptionsCheck => [ValidateTestOptionsPrefix + name]
    case MultipleValidateTestOptionsCheck => [MultipleValidatePrefix + name]
  }

  /** Runs one validator for the requested name. */
  function Validate(check: Check, name: string, o: TestOptions): (r: Validation)
    ensures SameFields(o, r.options)
    ensures Extends(o, r.options)
    ensures r.options == o.(callstack := o.callstack + CheckTrace(check, name))
    ensures check.BoolCheck? ==> r.options == o
    ensures check.BoolCheck? ==> (r.failures == [] <==> Holds(check.condition, o))
    ensures check.BoolCheck? && r.failures != [] ==> r.failures == [GenericFailure]
    ensures check.ValidateTestOptionsCheck? ==> r == ValidateTestOptions(name, o)
    ensures check.MultipleValidateTestOptionsCheck? ==> r == MultipleValidateTestOptions(name, o)
  {
    match check
    case BoolCheck(c) => Validation(o, if Holds(c, o) then [] else [GenericFailure])
    case ValidateTestOptionsCheck => ValidateTestOptions(name, o)
    case MultipleValidateTestOptionsCheck => MultipleValidateTestOptions(name, o)
  }

  /** What a validator reports does not depend on the callstack, so earlier
      validators' trace entries cannot change later verdicts. */
  lemma FailuresIgnoreCallstack(check: Check, name: string, a: TestOptions, b: TestOptions)
    requires SameFields(a, b)
    ensures Validate(check, name, a).failures == Validate(check, name, b).failures
  {
  }

  /** The generic message satisfies the test's `*validation error*` pattern. */
  lemma GenericFailureMentionsValidationError()
    ensures GenericFailure[2..18] == "validation error"
  {
    var parts := ["A ", "validation error", " has occurred."];
    assert GenericFailure == parts[0] + parts[1] + parts[2];
    assert (parts[0] + parts[1] + parts[2])[2..18] == parts[1];
  }
}
