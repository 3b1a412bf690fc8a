/** The fundamentals scenarios: the raw binder versus the options
    pipeline, and how registration order decides precedence. */
module FundamentalsTests {
  import opened OptionTypes
  import opened Configuration
  import opened Steps
  import opened Factory
  import opened Lifetime
  import opened TestProvider

  /** Raw `Get<TestOptions>()` of a section with no keys is null. */
  lemma RawGetOfMissingSection()
    ensures Get(Fixture(), "OptionsNone") == None
  {
    NoOptionsNoneSection();
  }

  /** Raw `Get<TestOptions>()` of an existing section binds it. */
  lemma RawGetOfExistingSection()
    ensures Get(Fixture(), "Options1").Some?
    ensures Get(Fixture(), "Options1").value.region == "TheRegion"
  {
    PathIsUnder("Options1", "Region");
    FixtureSections();
    assert Path("Options1", "Region") in Fixture();
  }

  /** The registrations `Bind(Options1)` then `Configure(Region = NewRegion)`. */
  function BindThenConfigure(): seq<Service>
  {
    AddOptions(DefaultName, [BindTo("Options1"), ConfigureWith(AssignFields([SetRegion("NewRegion")]))])
  }

  function ConfigureThenBind(): seq<Service>
  {
    AddOptions(DefaultName, [ConfigureWith(AssignFields([SetRegion("NewRegion")])), BindTo("Options1")])
  }

  /** Raw `Get<TestOptions>()` bypasses the pipeline: with a Configure
      registered, the raw read still gives the bound Region while
      `IOptions<T>.Value` gives the configured one. */
  lemma RawGetIgnoresRegistrations()
    ensures Get(Provider(BindThenConfigure()).config, "Options1").Some?
    ensures Get(Provider(BindThenConfigure()).config, "Options1").value.region == "TheRegion"
    ensures SingletonValue(Provider(BindThenConfigure())).read.Value?
    ensures SingletonValue(Provider(BindThenConfigure())).read.instance.options.region == "NewRegion"
  {
    RawGetOfExistingSection();
    BindThenConfigureWins();
  }

  /** Bind, then Configure: Configure wins on Region, Vat keeps the bound value. */
  lemma BindThenConfigureWins()
    ensures var r := SingletonValue(Provider(BindThenConfigure())).read;
            r.Value? && r.instance.options.region == "NewRegion" && r.instance.options.vat == 0.19
  {
    FixtureSections();
  }

  /** Configure, then Bind: Bind wins. Registration order, not the kind of
      step, decides. */
  lemma ConfigureThenBindWins()
    ensures var r := SingletonValue(Provider(ConfigureThenBind())).read;
            r.Value? && r.instance.options.region == "TheRegion" && r.instance.options.vat == 0.19
  {
    FixtureSections();
  }

  /** Binding a missing section gives the defaults and no error. */
  lemma BindOfMissingSectionGivesDefaults()
    ensures var r := SingletonValue(Provider(AddOptions(DefaultName, [BindTo("OptionsNone")]))).read;
            r.Value? && r.instance.options == NewTestOptions()
  {
    NoOptionsNoneSection();
    BindMissingSection(Fixture(), "OptionsNone", NewTestOptions());
    var services := AddOptions(DefaultName, [BindTo("OptionsNone")]);
    assert services == [ConfigureService(ForName(""), BindSection("OptionsNone"))];
    var e := ProviderEnv([]);
    var step := Step(ForName(""), BindSection("OptionsNone"));
    assert ConfigureSteps(services) == [step] && PostConfigureSteps(services) == [];
    assert Apply(e.config, e.collab, step.action, "", NewTestOptions()) == NewTestOptions();
    assert RunSteps(e, [step], "", NewTestOptions()) == NewTestOptions();
  }

  /** Three separate `AddOptions<TestOptions>()` registrations all apply,
      each leaving the other fields alone. */
  lemma SeparateRegistrationsCompose()
    ensures var services := AddOptions(DefaultName, [BindTo("Options1")])
                          + AddOptions(DefaultName, [ConfigureWith(AssignFields([SetUrl("NewUrl")]))])
                          + AddOptions(DefaultName, [ConfigureWith(AssignFields([SetVat(0.22)]))]);
            var r := SingletonValue(Provider(services)).read;
            r.Value? && r.instance.options.region == "TheRegion"
            && r.instance.options.url == "NewUrl" && r.instance.options.vat == 0.22
  {
    FixtureSections();
    var services := AddOptions(DefaultName, [BindTo("Options1")])
                  + AddOptions(DefaultName, [ConfigureWith(AssignFields([SetUrl("NewUrl")]))])
                  + AddOptions(DefaultName, [ConfigureWith(AssignFields([SetVat(0.22)]))]);
    assert services == [ConfigureService(ForName(""), BindSection("Options1")),
                        ConfigureService(ForName(""), AssignFields([SetUrl("NewUrl")])),
                        ConfigureService(ForName(""), AssignFields([SetVat(0.22)]))];
    var steps := [Step(ForName(""), BindSection("Options1")),
                  Step(ForName(""), AssignFields([SetUrl("NewUrl")])),
                  Step(ForName(""), AssignFields([SetVat(0.22)]))];
    assert ConfigureSteps([ConfigureService(ForName(""), BindSection("Options1")),
                           ConfigureService(ForName(""), AssignFields([SetUrl("NewUrl")])),
                           ConfigureService(ForName(""), AssignFields([SetVat(0.22)]))]) == steps;
    assert PostConfigureSteps([ConfigureService(ForName(""), BindSection("Options1")),
                               ConfigureService(ForName(""), AssignFields([SetUrl("NewUrl")])),
                               ConfigureService(ForName(""), AssignFields([SetVat(0.22)]))]) == [];
    assert Validators([ConfigureService(ForName(""), BindSection("Options1")),
                       ConfigureService(ForName(""), AssignFields([SetUrl("NewUrl")])),
                       ConfigureService(ForName(""), AssignFields([SetVat(0.22)]))]) == [];
    var e := ProviderEnv([]);
    var bound := TestOptions("TheRegion", "TheUrl", 0.19, false, []);
    assert RunSteps(e, steps, "", NewTestOptions()) == RunSteps(e, steps[1..], "", bound);
    assert RunSteps(e, steps[1..], "", bound) == RunSteps(e, steps[2..], "", bound.(url := "NewUrl"));
    assert RunSteps(e, steps[2..], "", bound.(url := "NewUrl")) == bound.(url := "NewUrl", vat := 0.22);
  }
}
