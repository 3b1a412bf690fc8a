/** The sophisticated scenarios: dispatch of nameless and name-aware
    configurator classes, and aggregation of validation failures. */
module QuirksTests {
  import opened OptionTypes
  import opened Configuration
  import opened Steps
  import opened Factory
  import opened Lifetime
  import opened TestProvider

  /** The registrations every scenario here starts from: Bind(Options1) for
      the default name, the post-configure class and the two validator
      classes. */
  function BaseServices(): seq<Service>
  {
    AddOptions(DefaultName, [BindTo("Options1")])
    + [PostConfigureService(EveryName, PostConfigureTestOptionsStep),
       ValidateService(EveryName, ValidateTestOptionsCheck),
       ValidateService(EveryName, MultipleValidateTestOptionsCheck)]
  }

  /** The base registrations followed by the scenario's own. */
  function TestServices(extra: seq<Service>): seq<Service>
  {
    BaseServices() + extra
  }

  /** The validators of every scenario here, in registration order. */
  function ClassValidators(): seq<Validator>
  {
    [Validator(EveryName, ValidateTestOptionsCheck), Validator(EveryName, MultipleValidateTestOptionsCheck)]
  }

  lemma BaseProjections(extra: seq<Service>)
    ensures ConfigureSteps(TestServices(extra))
         == [Step(ForName(""), BindSection("Options1"))] + ConfigureSteps(extra)
    ensures PostConfigureSteps(TestServices(extra))
         == [Step(EveryName, PostConfigureTestOptionsStep)] + PostConfigureSteps(extra)
    ensures Validators(TestServices(extra)) == ClassValidators() + Validators(extra)
  {
    assert BaseServices()
        == [ConfigureService(ForName(""), BindSection("Options1")),
            PostConfigureService(EveryName, PostConfigureTestOptionsStep),
            ValidateService(EveryName, ValidateTestOptionsCheck),
            ValidateService(EveryName, MultipleValidateTestOptionsCheck)];
    assert ConfigureSteps([ConfigureService(ForName(""), BindSection("Options1")),
                           PostConfigureService(EveryName, PostConfigureTestOptionsStep),
                           ValidateService(EveryName, ValidateTestOptionsCheck),
                           ValidateService(EveryName, MultipleValidateTestOptionsCheck)])
        == [Step(ForName(""), BindSection("Options1"))];
    assert PostConfigureSteps([ConfigureService(ForName(""), BindSection("Options1")),
                               PostConfigureService(EveryName, PostConfigureTestOptionsStep),
                               ValidateService(EveryName, ValidateTestOptionsCheck),
                               ValidateService(EveryName, MultipleValidateTestOptionsCheck)])
        == [Step(EveryName, PostConfigureTestOptionsStep)];
    assert Validators([ConfigureService(ForName(""), BindSection("Options1")),
                       PostConfigureService(EveryName, PostConfigureTestOptionsStep),
                       ValidateService(EveryName, ValidateTestOptionsCheck),
                       ValidateService(EveryName, MultipleValidateTestOptionsCheck)])
        == ClassValidators();
    ProjectionsAppend(BaseServices(), extra);
  }

  /** The trace entries the post-configure and validator classes leave for `name`. */
  function LaterEntries(name: string): seq<string>
  {
    [PostConfigurePrefix + name, ValidateTestOptionsPrefix + name, MultipleValidatePrefix + name]
  }

  /** Post-configuring and validating an instance that has a Url and a
      non-zero Vat: both validators pass and each leaves its entry. */
  lemma LaterStagesPass(env: Env, name: string, o: TestOptions)
    requires env.collab.myService == MyServiceRegion
    requires o.url != "" && o.vat != 0.0
    ensures var p := RunSteps(env, [Step(EveryName, PostConfigureTestOptionsStep)], name, o);
            && p == o.(region := MyServiceRegion, callstack := o.callstack + [PostConfigurePrefix + name])
            && RunValidators(ClassValidators(), name, p)
               == Validation(p.(callstack := o.callstack + LaterEntries(name)), [])
  {
    var p := PostConfigureTestOptions(name, MyServiceRegion, o);
    assert RunSteps(env, [Step(EveryName, PostConfigureTestOptionsStep)], name, o)
        == RunSteps(env, [], name, p);
    var vs := ClassValidators();
    var v1 := ValidateTestOptions(name, p);
    var v2 := MultipleValidateTestOptions(name, v1.options);
    assert RunValidators(vs, name, p)
        == Validation(RunValidators(vs[1..], name, v1.options).options,
                      v1.failures + RunValidators(vs[1..], name, v1.options).failures);
    assert RunValidators(vs[1..], name, v1.options)
        == Validation(RunValidators([], name, v2.options).options,
                      v2.failures + RunValidators([], name, v2.options).failures);
    assert o.callstack + LaterEntries(name)
        == o.callstack + [PostConfigurePrefix + name] + [ValidateTestOptionsPrefix + name]
           + [MultipleValidatePrefix + name];
  }

  /** With the base registrations' later stages, a configured instance that
      has a Url and a non-zero Vat comes out with MyService's region and the
      three later trace entries. */
  lemma CreateThroughClasses(env: Env, services: seq<Service>, name: string, c: TestOptions)
    requires env.collab.myService == MyServiceRegion
    requires PostConfigureSteps(services) == [Step(EveryName, PostConfigureTestOptionsStep)]
    requires Validators(services) == ClassValidators()
    requires RunSteps(env, ConfigureSteps(services), name, NewTestOptions()) == c
    requires c.url != "" && c.vat != 0.0
    ensures Create(env, services, name)
         == Ok(c.(region := MyServiceRegion, callstack := c.callstack + LaterEntries(name)))
  {
    LaterStagesPass(env, name, c);
  }

  /** The scenario's instance after Bind(Options1). */
  const Bound1 := TestOptions("TheRegion", "TheUrl", 0.19, false, [])

  lemma BindOptions1(env: Env, name: string)
    requires env.config == Fixture()
    ensures Apply(env.config, env.collab, BindSection("Options1"), name, NewTestOptions()) == Bound1
  {
    FixtureSections();
  }

  /** Both configure classes registered as plain configurators. */
  function BothAsPlain(): seq<Service>
  {
    [ConfigureService(DefaultOnly, ConfigureWithoutNameStep), ConfigureService(EveryName, ConfigureNamedStep)]
  }

  lemma BothAsPlainProjections()
    ensures ConfigureSteps(TestServices(BothAsPlain()))
         == [Step(ForName(""), BindSection("Options1")),
             Step(DefaultOnly, ConfigureWithoutNameStep), Step(EveryName, ConfigureNamedStep)]
    ensures PostConfigureSteps(TestServices(BothAsPlain())) == [Step(EveryName, PostConfigureTestOptionsStep)]
    ensures Validators(TestServices(BothAsPlain())) == ClassValidators()
  {
    BaseProjections(BothAsPlain());
    assert ConfigureSteps([ConfigureService(DefaultOnly, ConfigureWithoutNameStep),
                           ConfigureService(EveryName, ConfigureNamedStep)])
        == [Step(DefaultOnly, ConfigureWithoutNameStep), Step(EveryName, ConfigureNamedStep)];
    assert PostConfigureSteps([ConfigureService(DefaultOnly, ConfigureWithoutNameStep),
                               ConfigureService(EveryName, ConfigureNamedStep)]) == [];
    assert Validators([ConfigureService(DefaultOnly, ConfigureWithoutNameStep),
                       ConfigureService(EveryName, ConfigureNamedStep)]) == [];
  }

  /** For the default name the plain class runs its nameless overload and
      the name-aware class its named overload with the empty name; the
      name-aware class's nameless overload never runs. */
  lemma NameAwareClassRunsNamedOverload()
    ensures var r := SingletonValue(Provider(TestServices(BothAsPlain()))).read;
            && r.Value?
            && r.instance.options.callstack
               == [ConfigureWithoutNameEntry, ConfigureNamedPrefix] + LaterEntries("")
            && ConfigureWithoutNameEntry in r.instance.options.callstack
            && ConfigureNamedPrefix in r.instance.options.callstack
            && ConfigureNamedNamelessEntry !in r.instance.options.callstack
  {
    var services := TestServices(BothAsPlain());
    var c := Bound1.(callstack := [ConfigureWithoutNameEntry, ConfigureNamedPrefix]);
    BothAsPlainProjections();
    BothAsPlainConfigured();
    CreateThroughClasses(ProviderEnv([]), services, "", c);
    FirstSingletonRead(services);
    DefaultTraceEntries();
  }

  lemma BothAsPlainConfigured()
    ensures RunSteps(ProviderEnv([]), ConfigureSteps(TestServices(BothAsPlain())), "", NewTestOptions())
         == Bound1.(callstack := [ConfigureWithoutNameEntry, ConfigureNamedPrefix])
  {
    var env := ProviderEnv([]);
    BothAsPlainProjections();
    var steps := ConfigureSteps(TestServices(BothAsPlain()));
    BindOptions1(env, "");
    var c := Bound1.(callstack := [ConfigureWithoutNameEntry, ConfigureNamedPrefix + ""]);
    assert RunSteps(env, steps, "", NewTestOptions()) == RunSteps(env, steps[1..], "", Bound1);
    assert RunSteps(env, steps[1..], "", Bound1)
        == RunSteps(env, steps[2..], "", Bound1.(callstack := [ConfigureWithoutNameEntry]));
    assert RunSteps(env, steps[2..], "", Bound1.(callstack := [ConfigureWithoutNameEntry])) == c;
    assert ConfigureNamedPrefix + "" == ConfigureNamedPrefix;
  }

  /** Which entries the default-name trace holds. */
  lemma DefaultTraceEntries()
    ensures var cs := [ConfigureWithoutNameEntry, ConfigureNamedPrefix] + LaterEntries("");
            && ConfigureWithoutNameEntry in cs
            && ConfigureNamedPrefix in cs
            && ConfigureNamedNamelessEntry !in cs
  {
    var cs := [ConfigureWithoutNameEntry, ConfigureNamedPrefix] + LaterEntries("");
    assert cs[0] == ConfigureWithoutNameEntry && cs[1] == ConfigureNamedPrefix;
    assert |ConfigureNamedNamelessEntry| == 24;
    assert |cs[2]| == 39 && |cs[3]| == 29 && |cs[4]| == 37;
  }

  /** The plain class, and the name-aware class registered only under the
      named-only capability type. */
  function NamedOnlyRegistration(): seq<Service>
  {
    [ConfigureService(DefaultOnly, ConfigureWithoutNameStep), NamedConfigureService(ConfigureNamedStep)]
  }

  lemma NamedOnlyProjections()
    ensures ConfigureSteps(TestServices(NamedOnlyRegistration()))
         == [Step(ForName(""), BindSection("Options1")), Step(DefaultOnly, ConfigureWithoutNameStep)]
    ensures PostConfigureSteps(TestServices(NamedOnlyRegistration()))
         == [Step(EveryName, PostConfigureTestOptionsStep)]
    ensures Validators(TestServices(NamedOnlyRegistration())) == ClassValidators()
  {
    BaseProjections(NamedOnlyRegistration());
    assert ConfigureSteps([ConfigureService(DefaultOnly, ConfigureWithoutNameStep),
                           NamedConfigureService(ConfigureNamedStep)])
        == [Step(DefaultOnly, ConfigureWithoutNameStep)];
    assert PostConfigureSteps([ConfigureService(DefaultOnly, ConfigureWithoutNameStep),
                               NamedConfigureService(ConfigureNamedStep)]) == [];
    assert Validators([ConfigureService(DefaultOnly, ConfigureWithoutNameStep),
                       NamedConfigureService(ConfigureNamedStep)]) == [];
  }

  /** Registered only under the named-only capability type, the name-aware
      class is not invoked for the default name. */
  lemma NamedOnlyRegistrationIsNeverSeen()
    ensures var r := SingletonValue(Provider(TestServices(NamedOnlyRegistration()))).read;
            && r.Value?
            && r.instance.options.callstack == [ConfigureWithoutNameEntry] + LaterEntries("")
  {
    var env := ProviderEnv([]);
    var services := TestServices(NamedOnlyRegistration());
    NamedOnlyProjections();
    var steps := ConfigureSteps(services);
    BindOptions1(env, "");
    var c := Bound1.(callstack := [ConfigureWithoutNameEntry]);
    assert RunSteps(env, steps, "", NewTestOptions()) == RunSteps(env, steps[1..], "", Bound1);
    assert RunSteps(env, steps[1..], "", Bound1) == c;
    CreateThroughClasses(env, services, "", c);
    FirstSingletonRead(services);
  }

  const MissingName := "NotExistingForMissingUrlAndVat"

  /** For a name nothing binds, Url stays empty and Vat zero; both validator
      classes run and every failure is reported: Url twice, Vat once. */
  lemma FailuresAreAggregated()
    ensures Create(ProviderEnv([]), TestServices([]), MissingName)
         == Fail([MissingMessage("Url", MissingName), MissingMessage("Url", MissingName),
                  MissingMessage("Vat", MissingName)])
  {
    var n := MissingName;
    var p := PostConfigureTestOptions(n, MyServiceRegion, NewTestOptions());
    BaseProjections([]);
    MissingNameConfigured();
    var vs := ClassValidators();
    assert AllFailures(vs, n, p)
        == ValidateTestOptions(n, p).failures + AllFailures(vs[1..], n, p);
    assert AllFailures(vs[1..], n, p) == MultipleValidateTestOptions(n, p).failures + AllFailures([], n, p);
  }

  /** Nothing binds the missing name: only the post-configure class runs. */
  lemma MissingNameConfigured()
    ensures Configured(ProviderEnv([]), TestServices([]), MissingName)
         == PostConfigureTestOptions(MissingName, MyServiceRegion, NewTestOptions())
  {
    var env := ProviderEnv([]);
    BaseProjections([]);
    var n := MissingName;
    var steps := [Step(ForName(""), BindSection("Options1"))];
    assert ConfigureSteps(TestServices([])) == steps;
    assert RunSteps(env, steps, n, NewTestOptions()) == NewTestOptions();
    var p := PostConfigureTestOptions(n, MyServiceRegion, NewTestOptions());
    assert RunSteps(env, [Step(EveryName, PostConfigureTestOptionsStep)], n, NewTestOptions()) == p;
  }

  /** The "AName" registration that supplies Url and Vat. */
  function ANameRegistration(): seq<Service>
  {
    AddOptions("AName", [ConfigureWith(AssignFields([SetUrl("blah"), SetVat(1.0)]))])
  }

  function NameAwareThenPlain(): seq<Service>
  {
    [ConfigureService(EveryName, ConfigureNamedStep), ConfigureService(DefaultOnly, ConfigureWithoutNameStep)]
    + ANameRegistration()
  }

  lemma NameAwareThenPlainProjections()
    ensures ConfigureSteps(TestServices(NameAwareThenPlain()))
         == [Step(ForName(""), BindSection("Options1")), Step(EveryName, ConfigureNamedStep),
             Step(DefaultOnly, ConfigureWithoutNameStep),
             Step(ForName("AName"), AssignFields([SetUrl("blah"), SetVat(1.0)]))]
    ensures PostConfigureSteps(TestServices(NameAwareThenPlain()))
         == [Step(EveryName, PostConfigureTestOptionsStep)]
    ensures Validators(TestServices(NameAwareThenPlain())) == ClassValidators()
  {
    assert NameAwareThenPlain()
        == [ConfigureService(EveryName, ConfigureNamedStep),
            ConfigureService(DefaultOnly, ConfigureWithoutNameStep),
            ConfigureService(ForName("AName"), AssignFields([SetUrl("blah"), SetVat(1.0)]))];
    BaseProjections(NameAwareThenPlain());
    assert ConfigureSteps([ConfigureService(EveryName, ConfigureNamedStep),
                           ConfigureService(DefaultOnly, ConfigureWithoutNameStep),
                           ConfigureService(ForName("AName"), AssignFields([SetUrl("blah"), SetVat(1.0)]))])
        == [Step(EveryName, ConfigureNamedStep), Step(DefaultOnly, ConfigureWithoutNameStep),
            Step(ForName("AName"), AssignFields([SetUrl("blah"), SetVat(1.0)]))];
    assert PostConfigureSteps([ConfigureService(EveryName, ConfigureNamedStep),
                               ConfigureService(DefaultOnly, ConfigureWithoutNameStep),
                               ConfigureService(ForName("AName"), AssignFields([SetUrl("blah"), SetVat(1.0)]))]) == [];
    assert Validators([ConfigureService(EveryName, ConfigureNamedStep),
                       ConfigureService(DefaultOnly, ConfigureWithoutNameStep),
                       ConfigureService(ForName("AName"), AssignFields([SetUrl("blah"), SetVat(1.0)]))]) == [];
  }

  /** Under the name "AName" the name-aware class receives that name, the
      plain class does not run, and the "AName" registration supplies Url
      and Vat so validation passes. */
  lemma NameAwareClassReceivesName()
    ensures var r := Create(ProviderEnv([]), TestServices(NameAwareThenPlain()), "AName");
            && r.Ok?
            && r.options.callstack == [ConfigureNamedPrefix + "AName"] + LaterEntries("AName")
            && ConfigureWithoutNameEntry !in r.options.callstack
  {
    ANameCreate();
    ANameTraceEntries();
  }

  /** The whole pipeline for "AName". */
  lemma ANameCreate()
    ensures Create(ProviderEnv([]), TestServices(NameAwareThenPlain()), "AName")
         == Ok(NewTestOptions().(region := MyServiceRegion, url := "blah", vat := 1.0,
                                 callstack := [ConfigureNamedPrefix + "AName"] + LaterEntries("AName")))
  {
    var o2 := NewTestOptions().(callstack := [ConfigureNamedPrefix + "AName"], url := "blah", vat := 1.0);
    NameAwareThenPlainProjections();
    BaseProjections(NameAwareThenPlain());
    ANameConfigureStage();
    CreateThroughClasses(ProviderEnv([]), TestServices(NameAwareThenPlain()), "AName", o2);
  }

  /** The configure stage for "AName": the name-aware entry, then the
      registration's Url and Vat; the Bind for the default name and the
      plain class are skipped. */
  lemma ANameConfigureStage()
    ensures RunSteps(ProviderEnv([]), ConfigureSteps(TestServices(NameAwareThenPlain())), "AName", NewTestOptions())
         == NewTestOptions().(callstack := [ConfigureNamedPrefix + "AName"], url := "blah", vat := 1.0)
  {
    var env := ProviderEnv([]);
    NameAwareThenPlainProjections();
    var s0 := Step(ForName(""), BindSection("Options1"));
    var s1 := Step(EveryName, ConfigureNamedStep);
    var s2 := Step(DefaultOnly, ConfigureWithoutNameStep);
    var s3 := Step(ForName("AName"), AssignFields([SetUrl("blah"), SetVat(1.0)]));
    var o0 := NewTestOptions();
    var o1 := o0.(callstack := [ConfigureNamedPrefix + "AName"]);
    var o2 := o1.(url := "blah", vat := 1.0);
    assert [s0, s1, s2, s3] == [s0] + [s1, s2, s3];
    assert [s1, s2, s3] == [s1] + [s2, s3];
    assert [s2, s3] == [s2] + [s3];
    assert [s3] == [s3] + [];
    RunStepsCons(env, s0, [s1, s2, s3], "AName", o0);
    RunStepsCons(env, s1, [s2, s3], "AName", o0);
    RunStepsCons(env, s2, [s3], "AName", o1);
    RunStepsCons(env, s3, [], "AName", o1);
    assert AssignAll(o1, [SetUrl("blah"), SetVat(1.0)]) == o2;
  }

  lemma ANameTraceEntries()
    ensures ConfigureWithoutNameEntry !in [ConfigureNamedPrefix + "AName"] + LaterEntries("AName")
  {
    var cs := [ConfigureNamedPrefix + "AName"] + LaterEntries("AName");
    assert |ConfigureWithoutNameEntry| == 30;
    assert |cs[0]| == 34 && |cs[1]| == 44 && |cs[2]| == 34 && |cs[3]| == 42;
  }

  /** Only the name-aware class, registered as a plain configurator, plus
      the "AName" registration. */
  function NameAwareOnly(): seq<Service>
  {
    [ConfigureService(EveryName, ConfigureNamedStep)] + ANameRegistration()
  }

  lemma NameAwareOnlyProjections()
    ensures ConfigureSteps(TestServices(NameAwareOnly()))
         == [Step(ForName(""), BindSection("Options1")), Step(EveryName, ConfigureNamedStep),
             Step(ForName("AName"), AssignFields([SetUrl("blah"), SetVat(1.0)]))]
    ensures PostConfigureSteps(TestServices(NameAwareOnly()))
         == [Step(EveryName, PostConfigureTestOptionsStep)]
    ensures Validators(TestServices(NameAwareOnly())) == ClassValidators()
  {
    assert NameAwareOnly()
        == [ConfigureService(EveryName, ConfigureNamedStep),
            ConfigureService(ForName("AName"), AssignFields([SetUrl("blah"), SetVat(1.0)]))];
    BaseProjections(NameAwareOnly());
    assert ConfigureSteps([ConfigureService(EveryName, ConfigureNamedStep),
                           ConfigureService(ForName("AName"), AssignFields([SetUrl("blah"), SetVat(1.0)]))])
        == [Step(EveryName, ConfigureNamedStep), Step(ForName("AName"), AssignFields([SetUrl("blah"), SetVat(1.0)]))];
    assert PostConfigureSteps([ConfigureService(EveryName, ConfigureNamedStep),
                               ConfigureService(ForName("AName"), AssignFields([SetUrl("blah"), SetVat(1.0)]))]) == [];
    assert Validators([ConfigureService(EveryName, ConfigureNamedStep),
                       ConfigureService(ForName("AName"), AssignFields([SetUrl("blah"), SetVat(1.0)]))]) == [];
  }

  lemma NameAwareOnlyConfigured()
    ensures RunSteps(ProviderEnv([]), ConfigureSteps(TestServices(NameAwareOnly())), "", NewTestOptions())
         == Bound1.(callstack := [ConfigureNamedPrefix])
  {
    var env := ProviderEnv([]);
    NameAwareOnlyProjections();
    var steps := ConfigureSteps(TestServices(NameAwareOnly()));
    BindOptions1(env, "");
    var c := Bound1.(callstack := [ConfigureNamedPrefix + ""]);
    assert RunSteps(env, steps, "", NewTestOptions()) == RunSteps(env, steps[1..], "", Bound1);
    assert RunSteps(env, steps[1..], "", Bound1) == RunSteps(env, steps[2..], "", c);
    assert RunSteps(env, steps[2..], "", c) == c;
    assert ConfigureNamedPrefix + "" == ConfigureNamedPrefix;
  }

  /** The nameless overload of the name-aware class is never called: the
      singleton read for the default name holds only the named overload's
      entry, and later factory and monitor reads for "AName" and for the
      null name leave that singleton as it is. */
  lemma NamelessOverloadNeverCalled()
    ensures var m := SingletonValue(Provider(TestServices(NameAwareOnly())));
            && m.read.Value?
            && m.read.instance.options.callstack == [ConfigureNamedPrefix] + LaterEntries("")
            && ConfigureWithoutNameEntry !in m.read.instance.options.callstack
            && ConfigureNamedNamelessEntry !in m.read.instance.options.callstack
            && ConfigureNamedPrefix in m.read.instance.options.callstack
            && Replay(m.world, [ReadMonitor(Some("AName")), ReadMonitor(None)]).singleton
               == Some(m.read.instance)
  {
    var services := TestServices(NameAwareOnly());
    NameAwareOnlyProjections();
    NameAwareOnlyConfigured();
    CreateThroughClasses(ProviderEnv([]), services, "", Bound1.(callstack := [ConfigureNamedPrefix]));
    FirstSingletonRead(services);
    NameAwareOnlyTraceEntries();
    var m := SingletonValue(Provider(services));
    SingletonStable(m.world, [ReadMonitor(Some("AName")), ReadMonitor(None)]);
  }

  lemma NameAwareOnlyTraceEntries()
    ensures var cs := [ConfigureNamedPrefix] + LaterEntries("");
            && ConfigureNamedPrefix in cs
            && ConfigureWithoutNameEntry !in cs
            && ConfigureNamedNamelessEntry !in cs
  {
    var cs := [ConfigureNamedPrefix] + LaterEntries("");
    assert cs[0] == ConfigureNamedPrefix;
    assert |ConfigureWithoutNameEntry| == 30 && |ConfigureNamedNamelessEntry| == 24;
    assert |cs[0]| == 29 && |cs[1]| == 39 && |cs[2]| == 29 && |cs[3]| == 37;
  }
}
