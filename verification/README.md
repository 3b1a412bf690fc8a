# OptionsWorkshop options pipeline in Dafny

OptionsWorkshop is a C# test suite. Scenario by scenario, it pins down how the
Microsoft.Extensions.Options stack builds, validates and caches a typed
`TestOptions` object from an in-memory configuration. This project models
that behaviour as pure functions over immutable values and proves what the
tests assert about it, plus the general laws behind those assertions.

The model has these parts:

- **Option types** (`option_types.dfy`):
  - `TestOptions` and `RegionOptions` with their field defaults;
  - the append-only `Callstack` trace;
  - the field writes of a `Configure` lambda.
- **Configuration** (`configuration.dfy`):
  - the flat store of colon-separated paths;
  - the eight-pair fixture every provider starts from;
  - raw `configuration[key] = value` writes;
  - `Bind` of a section;
  - raw `GetSection(..).Get<T>()`.
- **Steps** (`steps.dfy`):
  - the configure actions the tests register;
  - the five helper classes `ConfigureWithoutName`, `ConfigureNamed`, `PostConfigureTestOptions`, `ValidateTestOptions` and `MultipleValidateTestOptions`;
  - bool validators.
- **Factory** (`factory.dfy`), the registrations (`AddOptions(name).Bind/Configure/PostConfigure/Validate` and class registrations) and `IOptionsFactory.Create(name)`:
  - start from defaults;
  - run configure steps in registration order;
  - run post-configure steps;
  - run every validator and aggregate all failures;
  - return `Ok` or `Fail`.

  Which registrations apply depends on the requested name:
  - `AddOptions(n)` registrations apply only to `n`, and the default name is `""`;
  - a plain configurator class applies only to the default name;
  - a name-aware class applies to every name and receives it;
  - a class registered only under the named-only capability type is never seen.
- **Lifetime** (`lifetime.dfy`), one provider as a state record (`World`):
  - the singleton `IOptions<T>.Value`;
  - the per-scope `IOptionsSnapshot<T>`;
  - the `IOptionsMonitor<T>` cache keyed by the normalised name (`null` is `""`);
  - `CurrentValue`, raw writes, `IConfigurationRoot.Reload()` and `OnChange` listeners.

  Object identity is the number of the pipeline run that built an object. The
  run counter `runs` is what the tests observe through their counting
  validator (`validateCount`).
- **Scenarios** (`test_provider.dfy`, `fundamentals_tests.dfy`, `advanced_tests.dfy`, `quirks_tests.dfy`, `lifetime_tests.dfy`): each test of the suite is a lemma about the model with the test's registrations.

A configuration reload is modelled as follows. Each `Bind` registration
contributes one change source, for the name it is registered under, in
registration order. The sources are subscribed when the monitor is first
used (`Get`, `CurrentValue` or `OnChange`); a reload before that reaches
nobody. When a source fires:

1. it evicts that name from the monitor cache;
2. it recomputes the entry at once;
3. on success, it hands the new object to every listener; on failure the
   name stays evicted and no listener is called.

The tests exercise this with a single `Bind`, for the default name, and a
monitor used before the reload.

## Model

| member | source | states |
|---|---|---|
| OptionTypes.NewTestOptions | OptionsWorkshop/TestOptions.cs:3-11 | a new TestOptions has Region "DefaultRegion", empty Url, Vat 0, Enabled false and an empty Callstack |
| OptionTypes.NewRegionOptions | OptionsWorkshop/TestOptions.cs:13-16 | a new RegionOptions has an empty Region |
| OptionTypes.Assign | OptionsWorkshop/_01_Fundamentals.cs:42 | one field write of a Configure lambda changes exactly that field and never the Callstack |
| OptionTypes.AssignAll | OptionsWorkshop/_03_SophisticatedAndQuirks.cs:75-79 | a Configure lambda, however many field writes it makes, never touches the Callstack; what it leaves in each field is stated by AssignAllFields |
| OptionTypes.AssignAllFields | OptionsWorkshop/_03_SophisticatedAndQuirks.cs:75-79 | for each of Region, Url, Vat and Enabled, a lambda that never writes the field keeps it, and one that does leaves the value of its last write to that field |
| OptionTypes.ConfigureRegionOptions | OptionsWorkshop/_02_Advanced.cs:119-120 | running the RegionOptions configure steps leaves the last registered value, or the default when there are none |
| Configuration.Set | OptionsWorkshop/_04_Lifetime.cs:134-137 | a raw write stores the value under its key and keeps every other key and value |
| Configuration.Bind | OptionsWorkshop/_01_Fundamentals.cs:40-41 | each of Region, Url, Vat and Enabled takes the value stored under the section when one of the right kind is there, and keeps its prior value when its key is absent; the Callstack is never touched |
| Configuration.Get | OptionsWorkshop/_01_Fundamentals.cs:12-21 | the raw binder yields nothing exactly when no key lies under the section, and otherwise the section bound onto a new instance |
| Configuration.BindMissingSection | OptionsWorkshop/_01_Fundamentals.cs:90-104 | binding a section with no keys leaves the instance unchanged and is no error |
| Configuration.BindIdempotent | OptionsWorkshop/_01_Fundamentals.cs:40-41 | binding a section twice is the same as binding it once |
| Configuration.BindReadsOnlyItsSection | OptionsWorkshop/_02_Advanced.cs:15-19 | two stores that agree on the keys under a section bind it identically |
| Configuration.BindSeesRawSet | OptionsWorkshop/_04_Lifetime.cs:132-140 | after a raw write of a section's Region, Bind gives the written Region and all other fields as before |
| Steps.ConfigureWithoutName | OptionsWorkshop/_03_SophisticatedAndQuirks.cs:135-141 | appends "ConfigureWithOutName_Configure" and changes no field |
| Steps.ConfigureNamed | OptionsWorkshop/_03_SophisticatedAndQuirks.cs:151-154 | appends "ConfigureNamed_Configure_for_" followed by the requested name and changes no field |
| Steps.PostConfigureTestOptions | OptionsWorkshop/_03_SophisticatedAndQuirks.cs:157-171 | appends the name-tagged entry and overwrites Region with MyService's region; Url, Vat and Enabled are kept |
| Steps.Apply | OptionsWorkshop/_02_Advanced.cs:100-151 | Bind binds the section, a field assignment writes exactly its fields, the collaborator actions set Region from MyService, RegionOptions or both joined by "_", FillEmptyUrl fills only an empty Url, and each class step is that class; the Callstack gains exactly the class's entry (the nameless one, or the name-tagged one for the requested name) and nothing for the other actions |
| Steps.ValidateTestOptions | OptionsWorkshop/_03_SophisticatedAndQuirks.cs:173-187 | appends its entry; fails if and only if Url is empty, and then with exactly the one name-suffixed Url message |
| Steps.MultipleValidateTestOptions | OptionsWorkshop/_03_SophisticatedAndQuirks.cs:189-212 | appends its entry; reports one failure for an empty Url plus one for a zero Vat, so it succeeds iff Url is non-empty and Vat is non-zero; the Url message comes first, the Vat message last |
| Steps.MessagesDiffer | OptionsWorkshop/_03_SophisticatedAndQuirks.cs:198-203 | the Url and the Vat message for the same name are different strings |
| Steps.Validate | OptionsWorkshop/_02_Advanced.cs:82-90 | a validator never changes a field; the Callstack gains exactly the validator class's name-tagged entry, nothing for a bool check; a bool check fails, with the one generic message, exactly when its condition is false; a class check is that class |
| Steps.FailuresIgnoreCallstack | OptionsWorkshop/_03_SophisticatedAndQuirks.cs:175-212 | what a validator reports depends only on the fields, not on trace entries left earlier |
| Steps.GenericFailureMentionsValidationError | OptionsWorkshop/_02_Advanced.cs:97 | the message a failing bool validator reports contains "validation error" |
| Factory.AddOptions | OptionsWorkshop/_01_Fundamentals.cs:106-119 | a builder chain yields one registration per call, in call order, all under the builder's name |
| Factory.Register | OptionsWorkshop/_01_Fundamentals.cs:111-118 | one builder call is a registration for the builder's name only: Bind and Configure become configure steps (Bind of the given section), PostConfigure a post-configure step and Validate a bool validator, each carrying the call's action or condition |
| Factory.BuilderServesOnlyItsName | OptionsWorkshop/_03_SophisticatedAndQuirks.cs:74-87 | every registration of an `AddOptions(n)` chain applies to a requested name if and only if it is `n` |
| Factory.TargetsServing | OptionsWorkshop/_03_SophisticatedAndQuirks.cs:10-38 | a name-aware class applies to every name; a plain configurator class applies exactly to the default name; a registration for `n` applies exactly to `n`; for any other name only these two kinds can apply |
| Factory.RunSteps | OptionsWorkshop/_01_Fundamentals.cs:106-128 | running steps in registration order only extends the instance, and its Callstack gains exactly the entries of the applicable class steps, in order |
| Factory.RunStepsCons | OptionsWorkshop/_01_Fundamentals.cs:106-128 | running a list of steps is applying its first step when it applies to the name, then running the rest |
| Factory.Configured | OptionsWorkshop/_02_Advanced.cs:53-72 | the configured instance's Callstack is the configure-stage entries followed by the post-configure-stage entries |
| Factory.ConfiguredIsOneRun | OptionsWorkshop/_02_Advanced.cs:53-72 | configuring is running all configure steps and then all post-configure steps as one list, starting from a new instance |
| Factory.RunValidators | OptionsWorkshop/_03_SophisticatedAndQuirks.cs:59-63 | running validators in turn on the shared instance reports exactly the failures of every applicable validator judged on the configured fields; the instance comes out with its fields unchanged and its Callstack extended by exactly the applicable validator classes' entries, in order |
| Factory.Create | OptionsWorkshop/_03_SophisticatedAndQuirks.cs:42-64 | Ok exactly when no applicable validator fails on the configured instance; a Fail carries all failures; an Ok instance is the configured instance with exactly the applicable validator classes' entries appended to its Callstack |
| Factory.RunStepsAppend | OptionsWorkshop/_01_Fundamentals.cs:106-128 | running two lists of steps in turn is running their concatenation |
| Factory.LastRegionAssignmentWins | OptionsWorkshop/_01_Fundamentals.cs:53-87 | whatever ran before, an applicable Region assignment registered last decides Region |
| Factory.NoFailuresIff | OptionsWorkshop/_03_SophisticatedAndQuirks.cs:59-63 | the aggregated failures are empty iff every applicable validator reports none |
| Factory.AllFailuresAppend | OptionsWorkshop/_03_SophisticatedAndQuirks.cs:128-130 | failures of concatenated validator lists are the concatenation of their failures |
| Factory.ProjectionContents | OptionsWorkshop/_01_Fundamentals.cs:106-119 | the configure, post-configure and validator lists hold exactly the registrations of their kind, target and action kept |
| Factory.ProjectionsAppend | OptionsWorkshop/_01_Fundamentals.cs:109-119 | the configure, post-configure and validator lists of concatenated registrations are the concatenations |
| Factory.IgnoredRegistration | OptionsWorkshop/_03_SophisticatedAndQuirks.cs:26-38 | adding a registration that does not apply to a name, or one under the named-only capability type, never changes Create for that name |
| Factory.RunStepsSkip | OptionsWorkshop/_02_Advanced.cs:13-25 | a step that does not apply to the name leaves a run of steps unchanged |
| Factory.RunValidatorsAppendIgnored | OptionsWorkshop/_02_Advanced.cs:13-25 | a validator that does not apply to the name leaves the validation run unchanged |
| Factory.PostConfigureRunsLast | OptionsWorkshop/_02_Advanced.cs:53-72 | moving a post-configure registration behind later non-post-configure registrations does not change Create |
| Factory.NothingRegisteredGivesDefaults | OptionsWorkshop/_04_Lifetime.cs:19-42 | when no registration applies to a name, Create returns a default instance and never fails |
| Lifetime.Start | OptionsWorkshop/OptionsTests.cs:8-18 | a new provider holds the fixture and the given registrations, no cached object, no listener, no run, and no resolved monitor |
| Lifetime.NormalizeName | OptionsWorkshop/_04_Lifetime.cs:198-203 | a null name is the default name; any other name is itself |
| Lifetime.Materialize | OptionsWorkshop/_04_Lifetime.cs:109-157 | a pipeline run counts one run; it succeeds iff Create succeeds and then yields a new object with run number as identity |
| Lifetime.SingletonValue | OptionsWorkshop/_04_Lifetime.cs:44-78 | once set, the singleton is returned unchanged with no run; otherwise it is one pipeline run for the default name, cached only on success; registrations, collaborators, listeners and notifications are untouched |
| Lifetime.SnapshotGet | OptionsWorkshop/_04_Lifetime.cs:80-107 | a scope hit returns the scope's object with no run; a miss is one pipeline run for the normalised name, cached in that scope only; the store, the singleton, the monitor, registrations, collaborators, listeners and notifications are untouched |
| Lifetime.MonitorGet | OptionsWorkshop/_04_Lifetime.cs:182-208 | a cache hit under the normalised name returns that object with no run; a miss is one pipeline run for that name, cached on success; either way the monitor is resolved, and registrations, collaborators, listeners and notifications are untouched |
| Lifetime.CurrentValue | OptionsWorkshop/_04_Lifetime.cs:210-238 | CurrentValue is the monitor read of the default name |
| Lifetime.RawSet | OptionsWorkshop/_04_Lifetime.cs:240-272 | a raw write changes the store and nothing else: no eviction, no run, no notification |
| Lifetime.OnChange | OptionsWorkshop/_04_Lifetime.cs:395-396 | registering a listener adds one listener and resolves the monitor; nothing else changes |
| Lifetime.NotifyAll | OptionsWorkshop/_04_Lifetime.cs:396-413 | every registered listener, in registration order, receives the new object and its name |
| Lifetime.Refresh | OptionsWorkshop/_04_Lifetime.cs:297-299 | one change source firing is one run; on success the name holds the new object with the pipeline's options and exactly one notification per listener, in listener order, is appended; on failure the name is evicted and nothing is appended; other names, the store, the singleton and the listeners are kept |
| Lifetime.RefreshAll | OptionsWorkshop/_04_Lifetime.cs:403-408 | firing a list of change sources appends exactly the reference notifications for that list to those delivered so far |
| Lifetime.Reload | OptionsWorkshop/_04_Lifetime.cs:403-408 | before the monitor is resolved a reload changes nothing; after, it is one run per Bind source, each source whose pipeline succeeds holds a new object with its options that every listener received, each one that fails is evicted, other names are kept; the notifications become the earlier ones followed by exactly the reference notifications, listeners times succeeding sources many, each for a fired name that succeeded and carrying that pipeline's options |
| Lifetime.ChangeSources | OptionsWorkshop/_04_Lifetime.cs:278-288 | a name is a change source if and only if some registration binds a section for exactly that name |
| Lifetime.ChangeSourcesAppend | OptionsWorkshop/_01_Fundamentals.cs:106-119 | the change sources of concatenated registrations are the concatenation of their change sources |
| Lifetime.Succeeding | OptionsWorkshop/_04_Lifetime.cs:403-412 | a name is kept if and only if it is fired and its pipeline succeeds |
| Lifetime.ReloadNoticesCount | OptionsWorkshop/_04_Lifetime.cs:396-412 | firing a list hands out listeners times succeeding names many notifications |
| Lifetime.ReloadNoticesCarry | OptionsWorkshop/_04_Lifetime.cs:396-412 | every notification handed out is for a fired name whose pipeline succeeded, to a registered listener, carrying an object built by one of this reload's runs from exactly that pipeline's options |
| Lifetime.RefreshAllKeepsOthers | OptionsWorkshop/_04_Lifetime.cs:292-300 | firing a list of change sources keeps every earlier notification and the monitor entry of every name outside the list |
| Lifetime.RefreshAllEvictsFailures | OptionsWorkshop/_04_Lifetime.cs:292-300 | every fired name whose pipeline fails is left out of the monitor cache |
| Lifetime.RefreshAllRebuilds | OptionsWorkshop/_04_Lifetime.cs:398-412 | every fired name whose pipeline succeeds holds an object built by a run of this reload with the pipeline's options, and every listener was handed it |
| Lifetime.PerformValid | OptionsWorkshop/_04_Lifetime.cs:80-107 | every read, write, reload or subscription keeps every held object older than the next run, so each run builds a new object |
| Lifetime.ReplayValid | OptionsWorkshop/_04_Lifetime.cs:109-157 | the same holds over any sequence of operations |
| Lifetime.SingletonStable | OptionsWorkshop/_04_Lifetime.cs:44-78 | once read, the singleton is the same object after any sequence of reads, writes, reloads and subscriptions |
| Lifetime.RunsGrow | OptionsWorkshop/_04_Lifetime.cs:146-156 | the run count never decreases |
| Lifetime.MonitorEntryKeptWithoutReload | OptionsWorkshop/_04_Lifetime.cs:338-375 | without a reload, a monitor entry is never evicted or replaced |
| Lifetime.RawWritesAreSilent | OptionsWorkshop/_04_Lifetime.cs:240-272 | a sequence of raw writes changes nothing but the store |
| Lifetime.NullNameIsDefaultName | OptionsWorkshop/_04_Lifetime.cs:200-203 | monitor Get(null) and Get("") are the same read |
| Lifetime.ReloadRefreshesDefault | OptionsWorkshop/_04_Lifetime.cs:274-307 | with the monitor resolved and the default name as the only Bind source, a reload rebuilds the default entry from the current store as a new object and notifies every listener with it |
| TestProvider.CollaboratorsFor | OptionsWorkshop/_02_Advanced.cs:119-124 | the collaborators hold MyService's region and the RegionOptions value its registrations leave |
| TestProvider.ProvidersStartAlike | OptionsWorkshop/OptionsTests.cs:8-11 | every provider starts from the same fixture; providers differ only in their registrations |
| TestProvider.FixtureSections | OptionsWorkshop/OptionsTests.cs:36-43 | binding Options1 gives TheRegion, TheUrl, 0.19, false; binding Options2 gives TheRegion2, TheUrl2, 0.7, true |
| TestProvider.NoOptionsNoneSection | OptionsWorkshop/OptionsTests.cs:34-44 | no fixture key lies under OptionsNone |
| TestProvider.FixtureKeys | OptionsWorkshop/OptionsTests.cs:30-46 | the fixture holds eight keys, each under Options1 or Options2 |
| TestProvider.FirstSingletonRead | OptionsWorkshop/_04_Lifetime.cs:19-42 | the first singleton read of a new provider is run 0 of Create for the default name, or its failures |
| FundamentalsTests.RawGetOfMissingSection | OptionsWorkshop/_01_Fundamentals.cs:11-21 | raw Get of OptionsNone is null |
| FundamentalsTests.RawGetOfExistingSection | OptionsWorkshop/_01_Fundamentals.cs:23-33 | raw Get of Options1 has Region TheRegion |
| FundamentalsTests.RawGetIgnoresRegistrations | OptionsWorkshop/_01_Fundamentals.cs:35-51 | raw Get ignores a registered Configure (TheRegion) while the pipeline applies it (NewRegion) |
| FundamentalsTests.BindThenConfigureWins | OptionsWorkshop/_01_Fundamentals.cs:53-69 | Bind then Configure gives Region NewRegion and the bound Vat 0.19 |
| FundamentalsTests.ConfigureThenBindWins | OptionsWorkshop/_01_Fundamentals.cs:71-87 | Configure then Bind gives Region TheRegion and Vat 0.19 |
| FundamentalsTests.BindOfMissingSectionGivesDefaults | OptionsWorkshop/_01_Fundamentals.cs:89-104 | binding OptionsNone gives DefaultRegion and Vat 0 with no error |
| FundamentalsTests.SeparateRegistrationsCompose | OptionsWorkshop/_01_Fundamentals.cs:106-128 | three separate registrations all apply: TheRegion, NewUrl, 0.22 |
| AdvancedTests.NamedRegistrationsAreIsolated | OptionsWorkshop/_02_Advanced.cs:10-31 | Create("Name1") sees only the Options1 bind and Create("Name2") only the Options2 bind |
| AdvancedTests.PostConfigureFillsEmptyUrl | OptionsWorkshop/_02_Advanced.cs:33-51 | a post-configure step fills the empty Url with http://posturl |
| AdvancedTests.PostConfigureRunsAfterConfigure | OptionsWorkshop/_02_Advanced.cs:53-72 | a post-configure step registered first runs after the Configure, so Url stays http://configureurl |
| AdvancedTests.BoolValidatorFailsOnRead | OptionsWorkshop/_02_Advanced.cs:74-98 | building the provider caches nothing; reading Value fails with the generic validation error, caches nothing, and fails again on the next read |
| AdvancedTests.RegionFromService | OptionsWorkshop/_02_Advanced.cs:100-112 | a configure step with MyService sets Region MyServiceRegion |
| AdvancedTests.RegionFromOtherOptions | OptionsWorkshop/_02_Advanced.cs:114-130 | a configure step reading RegionOptions sets Region OtherRegion |
| AdvancedTests.RegionFromTwoCollaborators | OptionsWorkshop/_02_Advanced.cs:132-151 | a configure step with both collaborators sets Region MyServiceRegion_OtherRegion |
| QuirksTests.BaseProjections | OptionsWorkshop/_03_SophisticatedAndQuirks.cs:121-132 | the shared registrations contribute the Options1 bind, the post-configure class and the two validator classes, ahead of a scenario's own |
| QuirksTests.LaterStagesPass | OptionsWorkshop/_03_SophisticatedAndQuirks.cs:157-212 | on an instance with Url and non-zero Vat, the post-configure class sets MyServiceRegion and both validator classes pass, each leaving its entry |
| QuirksTests.CreateThroughClasses | OptionsWorkshop/_03_SophisticatedAndQuirks.cs:121-132 | with the shared registrations, a configured instance with Url and Vat comes out Ok with MyServiceRegion and the three later entries |
| QuirksTests.NameAwareClassRunsNamedOverload | OptionsWorkshop/_03_SophisticatedAndQuirks.cs:10-24 | both classes as plain configurators: the trace holds the plain entry and the bare named prefix, never the nameless overload's entry |
| QuirksTests.NamedOnlyRegistrationIsNeverSeen | OptionsWorkshop/_03_SophisticatedAndQuirks.cs:26-38 | under the named-only capability type the name-aware class is not invoked at all for the default name |
| QuirksTests.MissingNameConfigured | OptionsWorkshop/_03_SophisticatedAndQuirks.cs:121-132 | for a name nothing is registered under, the shared registrations configure only the post-configure class on a new instance |
| QuirksTests.FailuresAreAggregated | OptionsWorkshop/_03_SophisticatedAndQuirks.cs:42-64 | Create("NotExistingForMissingUrlAndVat") fails with the Url message twice and the Vat message once, in validator order |
| QuirksTests.ANameCreate | OptionsWorkshop/_03_SophisticatedAndQuirks.cs:66-88 | Create("AName") is Ok with MyServiceRegion, Url blah, Vat 1, and the trace of the named entry then the later entries |
| QuirksTests.NameAwareClassReceivesName | OptionsWorkshop/_03_SophisticatedAndQuirks.cs:66-88 | Create("AName") succeeds; its trace holds ConfigureNamed_Configure_for_AName and not the plain class's entry |
| QuirksTests.NamelessOverloadNeverCalled | OptionsWorkshop/_03_SophisticatedAndQuirks.cs:90-118 | the singleton read holds only the named overload's entry and stays the same object after monitor reads of AName and null |
| LifetimeTests.SingletonIsOneObject | OptionsWorkshop/_04_Lifetime.cs:19-42 | two singleton reads return one object with DefaultRegion, built in one run |
| LifetimeTests.SingletonIgnoresRawSet | OptionsWorkshop/_04_Lifetime.cs:44-78 | singleton reads before and after a raw write return one object with TheRegion while the store holds the write |
| LifetimeTests.SnapshotPerScope | OptionsWorkshop/_04_Lifetime.cs:80-107 | snapshots in two scopes are two objects, both TheRegion |
| LifetimeTests.SnapshotSeesRawSet | OptionsWorkshop/_04_Lifetime.cs:109-157 | three scopes give three objects, TheRegion then ChangedRegion twice, after exactly three runs |
| LifetimeTests.SnapshotNamed | OptionsWorkshop/_04_Lifetime.cs:159-180 | one scope serves Name1 with TheRegion and Name2 with TheRegion2 |
| LifetimeTests.MonitorNullIsEmpty | OptionsWorkshop/_04_Lifetime.cs:182-208 | Get(null) then Get("") return one object with TheRegion after one run |
| LifetimeTests.CurrentValueBuiltOnce | OptionsWorkshop/_04_Lifetime.cs:210-238 | CurrentValue twice then Get(null) return one object after one run |
| LifetimeTests.MonitorSharedAcrossScopes | OptionsWorkshop/_04_Lifetime.cs:338-375 | CurrentValue and Get(null) in two scopes return one object after one run |
| LifetimeTests.CurrentValueStaleAfterRawSet | OptionsWorkshop/_04_Lifetime.cs:240-272 | after a raw write without reload CurrentValue is the same object with TheRegion, after one run |
| LifetimeTests.ReloadAfterWrite | OptionsWorkshop/_04_Lifetime.cs:292-300 | a reload after the raw write rebuilds the default entry with ChangedRegion in one run and notifies every listener with it |
| LifetimeTests.ReloadBeforeMonitorIsInert | OptionsWorkshop/_04_Lifetime.cs:290-302 | in contrast to the cited test, which reads CurrentValue before reloading: a reload before the monitor is used changes nothing and costs no run, and the first CurrentValue afterwards reads the written store |
| LifetimeTests.CurrentValueUpdatesOnReload | OptionsWorkshop/_04_Lifetime.cs:274-307 | after a raw write and a reload CurrentValue is a new object with ChangedRegion, after two runs |
| LifetimeTests.FirstCurrentValue | OptionsWorkshop/_04_Lifetime.cs:226-235 | the first CurrentValue is a new object with TheRegion built by one run, cached under the default name |
| LifetimeTests.CurrentValueSameInScopes | OptionsWorkshop/_04_Lifetime.cs:310-335 | CurrentValue in two scopes of a Bind-only provider is the same object, with TheRegion, after one run |
| LifetimeTests.ListenerNotifiedOnReload | OptionsWorkshop/_04_Lifetime.cs:377-416 | the listener receives one notification, a new object with ChangedRegion, while the object read before keeps TheRegion; two runs |

## Left out

- The dependency-injection container, service lifetimes and scope disposal. A scope is modelled as a fresh snapshot cache and collaborators as plain values.
- `MyService` is not part of this model. Its `GetRegion()` is taken to return "MyServiceRegion", the value the tests expect of it.
- The string-to-decimal and string-to-bool coercion of the binder. Values are stored already typed, and Vat is an exact `real`.
- Case-insensitive configuration keys. Keys are compared exactly.
- Binding of indexed keys into `Callstack`. No fixture key targets it.
- Thread safety and the at-most-once computation of cached objects under concurrent reads.
- Exception isolation between `OnChange` listeners, and unsubscribing a listener.
- The formatting of the exception message that joins failures. A failure is a `Fail` carrying the failure list.
- `ConfigureNamed`'s nameless overload, which appends an entry and throws. The factory never calls it, so no step models it.
- The internals of the options and configuration libraries. Only the behaviour the tests assert is modelled.
- Reload: the change sources are the `Bind` registrations, each firing for the name it is registered under. A reload of a configuration file watched by other providers is not modelled.
- Lifetime.Reload: a pipeline failure while a change source fires is not raised to the caller of `Reload`; the name is left evicted and no listener is called, and the next read fails with the same failures. The exception the library would let escape from `Reload()` is not modelled.
- Lifetime.MonitorGet: the monitor is resolved by its first use rather than by the container handing it out; the tests always use it right after resolving it.
- `FlagAt`, `NumberAt`, `TextAt`: a stored value of the wrong kind leaves the field unchanged. The library would fail to convert it instead.
