/** The advanced scenarios: named registrations, post-configure steps,
    bool validators and configure steps with collaborators. */
module AdvancedTests {
  import opened OptionTypes
  import opened Configuration
  import opened Steps
  import opened Factory
  import opened Lifetime
  import opened TestProvider

  function NamedBinds(): seq<Service>
  {
    AddOptions("Name1", [BindTo("Options1")]) + AddOptions("Name2", [BindTo("Options2")])
  }

  /** `Create("Name1")` sees only the Options1 bind, `Create("Name2")` only
      the Options2 bind. */
  lemma NamedRegistrationsAreIsolated()
    ensures Create(ProviderEnv([]), NamedBinds(), "Name1")
         == Ok(TestOptions("TheRegion", "TheUrl", 0.19, false, []))
    ensures Create(ProviderEnv([]), NamedBinds(), "Name2")
         == Ok(TestOptions("TheRegion2", "TheUrl2", 0.7, true, []))
  {
    FixtureSections();
    var a := ConfigureService(ForName("Name1"), BindSection("Options1"));
    var b := ConfigureService(ForName("Name2"), BindSection("Options2"));
    assert NamedBinds() == [a] + [b] + [];
    assert NamedBinds() == [] + [a] + [b];
    IgnoredRegistration(ProviderEnv([]), [a], b, [], "Name1");
    IgnoredRegistration(ProviderEnv([]), [], a, [b], "Name2");
    assert [a] + [] == [a] && [] + [b] == [b];
    assert ConfigureSteps([ConfigureService(ForName("Name1"), BindSection("Options1"))])
        == [Step(ForName("Name1"), BindSection("Options1"))];
    assert ConfigureSteps([ConfigureService(ForName("Name2"), BindSection("Options2"))])
        == [Step(ForName("Name2"), BindSection("Options2"))];
  }

  /** A post-configure step fills the empty Url. */
  lemma PostConfigureFillsEmptyUrl()
    ensures var r := SingletonValue(Provider(
              AddOptions(DefaultName, [PostConfigureWith(FillEmptyUrl("http://posturl"))]))).read;
            r.Value? && r.instance.options.url == "http://posturl"
  {
    var services := [PostConfigureService(ForName(""), FillEmptyUrl("http://posturl"))];
    assert AddOptions(DefaultName, [PostConfigureWith(FillEmptyUrl("http://posturl"))]) == services;
    assert PostConfigureSteps([PostConfigureService(ForName(""), FillEmptyUrl("http://posturl"))])
        == [Step(ForName(""), FillEmptyUrl("http://posturl"))];
  }

  function PostConfigureThenConfigure(): seq<Service>
  {
    AddOptions(DefaultName, [PostConfigureWith(FillEmptyUrl("http://posturl")),
                             ConfigureWith(AssignFields([SetUrl("http://configureurl")]))])
  }

  /** A post-configure step registered first still runs after the configure
      step, so the configured Url stays. */
  lemma PostConfigureRunsAfterConfigure()
    ensures var r := SingletonValue(Provider(PostConfigureThenConfigure())).read;
            r.Value? && r.instance.options.url == "http://configureurl"
  {
    var p := PostConfigureService(ForName(""), FillEmptyUrl("http://posturl"));
    var c := ConfigureService(ForName(""), AssignFields([SetUrl("http://configureurl")]));
    assert PostConfigureThenConfigure() == [] + [p] + [c];
    PostConfigureRunsLast(ProviderEnv([]), [], p, [c], DefaultName);
    assert [] + [c] + [p] == [c, p];
    var e := ProviderEnv([]);
    assert ConfigureSteps([ConfigureService(ForName(""), AssignFields([SetUrl("http://configureurl")])),
                           PostConfigureService(ForName(""), FillEmptyUrl("http://posturl"))])
        == [Step(ForName(""), AssignFields([SetUrl("http://configureurl")]))];
    assert PostConfigureSteps([ConfigureService(ForName(""), AssignFields([SetUrl("http://configureurl")])),
                               PostConfigureService(ForName(""), FillEmptyUrl("http://posturl"))])
        == [Step(ForName(""), FillEmptyUrl("http://posturl"))];
  }

  function UrlValidated(): seq<Service>
  {
    AddOptions(DefaultName, [ValidateWith(UrlPresent)])
  }

  /** A bool validator that returns false: building the provider succeeds,
      every read of `Value` fails with the one generic message, and the
      failure is not cached. */
  lemma BoolValidatorFailsOnRead()
    ensures Provider(UrlValidated()).singleton.None?
    ensures var m := SingletonValue(Provider(UrlValidated()));
            && m.read == Failed([GenericFailure])
            && m.world.singleton.None?
            && SingletonValue(m.world).read == Failed([GenericFailure])
  {
    var v := ValidateService(ForName(""), BoolCheck(UrlPresent));
    assert UrlValidated() == [v];
    assert Validators([ValidateService(ForName(""), BoolCheck(UrlPresent))])
        == [Validator(ForName(""), BoolCheck(UrlPresent))];
    assert ConfigureSteps([ValidateService(ForName(""), BoolCheck(UrlPresent))]) == [];
    assert PostConfigureSteps([ValidateService(ForName(""), BoolCheck(UrlPresent))]) == [];
    GenericFailureMentionsValidationError();
  }

  /** A configure step with one collaborator, `MyService`. */
  lemma RegionFromService()
    ensures var r := SingletonValue(Provider(
              AddOptions(DefaultName, [ConfigureWith(RegionFromMyService)]))).read;
            r.Value? && r.instance.options.region == "MyServiceRegion"
  {
    assert AddOptions(DefaultName, [ConfigureWith(RegionFromMyService)])
        == [ConfigureService(ForName(""), RegionFromMyService)];
    assert ConfigureSteps([ConfigureService(ForName(""), RegionFromMyService)])
        == [Step(ForName(""), RegionFromMyService)];
  }

  /** A provider whose RegionOptions is configured to "OtherRegion" and whose
      TestOptions registrations are `services`. */
  function WithOtherRegion(services: seq<Service>): World
  {
    Start(CollaboratorsFor(["OtherRegion"]), services)
  }

  /** A configure step reading another options type. */
  lemma RegionFromOtherOptions()
    ensures var r := SingletonValue(WithOtherRegion(
              AddOptions(DefaultName, [ConfigureWith(RegionFromRegionOptions)]))).read;
            r.Value? && r.instance.options.region == "OtherRegion"
  {
    assert AddOptions(DefaultName, [ConfigureWith(RegionFromRegionOptions)])
        == [ConfigureService(ForName(""), RegionFromRegionOptions)];
    assert ConfigureSteps([ConfigureService(ForName(""), RegionFromRegionOptions)])
        == [Step(ForName(""), RegionFromRegionOptions)];
  }

  /** A configure step with two collaborators. */
  lemma RegionFromTwoCollaborators()
    ensures var r := SingletonValue(WithOtherRegion(
              AddOptions(DefaultName, [ConfigureWith(RegionFromBoth)]))).read;
            r.Value? && r.instance.options.region == "MyServiceRegion_OtherRegion"
  {
    assert AddOptions(DefaultName, [ConfigureWith(RegionFromBoth)])
        == [ConfigureService(ForName(""), RegionFromBoth)];
    assert ConfigureSteps([ConfigureService(ForName(""), RegionFromBoth)])
        == [Step(ForName(""), RegionFromBoth)];
  }
}
