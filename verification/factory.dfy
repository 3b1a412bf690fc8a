/** The options factory: `IOptionsFactory<TestOptions>.Create(name)`.

    The registered services are a flat list in registration order. `Create`
    builds a fresh instance with its field defaults, runs every applicable
    configure step in registration order, then every applicable
    post-configure step, then every applicable validator, collecting all
    failures, and returns either the instance or the failures. */
module Factory {
  import opened OptionTypes
  import opened Configuration
  import opened Steps

  /** The name `IOptions<T>.Value` and `CurrentValue` ask for. */
  const DefaultName := ""

  /** Which requested names a registration applies to. */
  datatype Target =
    | ForName(name: string)   // a step added through AddOptions<TestOptions>(name); "" for AddOptions<TestOptions>()
    | DefaultOnly             // a plain configurator class: only its nameless Configure exists
    | EveryName               // a name-aware class: runs for every name and receives it

  predicate Applies(t: Target, name: string)
  {
    match t
    case ForName(n) => n == name
    case DefaultOnly => name == DefaultName
    case EveryName => true
  }

  /** One service registration, keyed by the service type it is registered under. */
  datatype Service =
    | ConfigureService(target: Target, action: Action)      // IConfigureOptions<TestOptions>
    | NamedConfigureService(action: Action)                 // IConfigureNamedOptions<TestOptions> only
    | PostConfigureService(target: Target, action: Action)  // IPostConfigureOptions<TestOptions>
    | ValidateService(target: Target, check: Check)         // IValidateOptions<TestOptions>

  datatype Step = Step(target: Target, action: Action)
  datatype Validator = Validator(target: Target, check: Check)

  /** What a pipeline run reads besides the registrations: the configuration
      store as it is at that moment, and the collaborators. */
  datatype Env = Env(config: Config, collab: Collaborators)

  /** `Create` either returns the instance or throws an
      `OptionsValidationException` carrying every failure. */
  datatype Outcome = Ok(options: TestOptions) | Fail(failures: seq<string>)

  // ---------------------------------------------------------------------------
  // The option builder: AddOptions<TestOptions>(name).Bind(...).Configure(...)...
  // ---------------------------------------------------------------------------

  datatype BuilderCall =
    | BindTo(section: string)
    | ConfigureWith(action: Action)
    | PostConfigureWith(action: Action)
    | ValidateWith(condition: Condition)

  function Register(name: string, call: BuilderCall): (r: Service)
    ensures !r.NamedConfigureService? && r.target == ForName(name)
    ensures r.ConfigureService? <==> call.BindTo? || call.ConfigureWith?
    ensures r.PostConfigureService? <==> call.PostConfigureWith?
    ensures r.ValidateService? <==> call.ValidateWith?
    ensures call.BindTo? ==> r.action == BindSection(call.section)
    ensures call.ConfigureWith? || call.PostConfigureWith? ==> r.action == call.action
    ensures call.ValidateWith? ==> r.check == BoolCheck(call.condition)
  {
    match call
    case BindTo(section) => ConfigureService(ForName(name), BindSection(section))
    case ConfigureWith(a) => ConfigureService(ForName(name), a)
    case PostConfigureWith(a) => PostConfigureService(ForName(name), a)
    case ValidateWith(c) => ValidateService(ForName(name), BoolCheck(c))
  }

  /** `AddOptions<TestOptions>(name)` followed by `calls`: each call adds one
      registration, bound to `name`, in call order. */
  function AddOptions(name: string, calls: seq<BuilderCall>): (r: seq<Service>)
    ensures |r| == |calls|
    ensures forall i :: 0 <= i < |calls| ==> r[i] == Register(name, calls[i])
    decreases |calls|
  {
    if calls == [] then [] else [Register(name, calls[0])] + AddOptions(name, calls[1..])
  }

  /** Which registrations serve a requested name: a name-aware class serves
      every name, a plain class only the default name, and an `AddOptions(n)`
      registration only `n`; so a name other than the default is served by
      name-aware classes and its own registrations alone. */
  lemma TargetsServing(name: string)
    ensures Applies(EveryName, name)
    ensures Applies(DefaultOnly, name) <==> name == DefaultName
    ensures forall n :: Applies(ForName(n), name) <==> n == name
    ensures name != DefaultName ==>
              forall t :: Applies(t, name) ==> t == EveryName || t == ForName(name)
  {
  }

  /** Everything a builder registers serves exactly the builder's name. */
  lemma BuilderServesOnlyItsName(n: string, calls: seq<BuilderCall>, name: string)
    ensures forall s :: s in AddOptions(n, calls) ==>
              !s.NamedConfigureService? && (Applies(s.target, name) <==> name == n)
  {
  }

  // ---------------------------------------------------------------------------
  // What the factory resolves from the container
  // ---------------------------------------------------------------------------

  /** `IEnumerable<IConfigureOptions<TestOptions>>`: services registered
      under the named-only capability type are not among them. */
  function ConfigureSteps(services: seq<Service>): (r: seq<Step>)
    ensures |r| <= |services|
    decreases |services|
  {
    if services == [] then []
    else
      var rest := ConfigureSteps(services[1..]);
      match services[0]
      case ConfigureService(t, a) => [Step(t, a)] + rest
      case _ => rest
  }

  function PostConfigureSteps(services: seq<Service>): (r: seq<Step>)
    ensures |r| <= |services|
    decreases |services|
  {
    if services == [] then []
    else
      var rest := PostConfigureSteps(services[1..]);
      match services[0]
      case PostConfigureService(t, a) => [Step(t, a)] + rest
      case _ => rest
  }

  function Validators(services: seq<Service>): (r: seq<Validator>)
    ensures |r| <= |services|
    decreases |services|
  {
    if services == [] then []
    else
      var rest := Validators(services[1..]);
      match services[0]
      case ValidateService(t, c) => [Validator(t, c)] + rest
      case _ => rest
  }

  /** Each projection holds exactly the registrations of its service type:
      every entry comes from such a registration, and every such
      registration has its entry. */
  lemma {:induction false} ProjectionContents(services: seq<Service>)
    ensures forall i :: 0 <= i < |ConfigureSteps(services)| ==>
              ConfigureService(ConfigureSteps(services)[i].target, ConfigureSteps(services)[i].action) in services
    ensures forall i :: 0 <= i < |services| && services[i].ConfigureService? ==>
              Step(services[i].target, services[i].action) in ConfigureSteps(services)
    ensures forall i :: 0 <= i < |PostConfigureSteps(services)| ==>
              PostConfigureService(PostConfigureSteps(services)[i].target, PostConfigureSteps(services)[i].action) in services
    ensures forall i :: 0 <= i < |services| && services[i].PostConfigureService? ==>
              Step(services[i].target, services[i].action) in PostConfigureSteps(services)
    ensures forall i :: 0 <= i < |Validators(services)| ==>
              ValidateService(Validators(services)[i].target, Validators(services)[i].check) in services
    ensures forall i :: 0 <= i < |services| && services[i].ValidateService? ==>
              Validator(services[i].target, services[i].check) in Validators(services)
    decreases |services|
  {
    if services != [] {
      var rest := services[1..];
      ProjectionContents(rest);
      assert forall i :: 1 <= i < |services| ==> services[i] == rest[i - 1];
      assert forall s :: s in rest ==> s in services;
    }
  }

  // ---------------------------------------------------------------------------
  // The pipeline
  // ---------------------------------------------------------------------------

  /** Reference definition of the trace a list of steps leaves: the entries
      of every step that applies to `name`, in order. */
  function StepTrace(steps: seq<Step>, name: string): seq<string>
    decreases |steps|
  {
    if steps == [] then []
    else (if Applies(steps[0].target, name) then ActionTrace(steps[0].action, name) else [])
         + StepTrace(steps[1..], name)
  }

  /** Reference definition of the trace a list of validators leaves: the
      entries of every validator that applies to `name`, in order. */
  function ValidatorTrace(vs: seq<Validator>, name: string): seq<string>
    decreases |vs|
  {
    if vs == [] then []
    else (if Applies(vs[0].target, name) then CheckTrace(vs[0].check, name) else [])
         + ValidatorTrace(vs[1..], name)
  }

  /** Runs the steps that apply to `name`, in order, on `o`; a step that does
      not apply is skipped. */
  function RunSteps(env: Env, steps: seq<Step>, name: string, o: TestOptions): (r: TestOptions)
    ensures Extends(o, r)
    ensures r.callstack == o.callstack + StepTrace(steps, name)
    decreases |steps|
  {
    if steps == [] then o
    else
      var next := if Applies(steps[0].target, name)
                  then Apply(env.config, env.collab, steps[0].action, name, o)
                  else o;
      var head := if Applies(steps[0].target, name) then ActionTrace(steps[0].action, name) else [];
      assert next.callstack == o.callstack + head;
      assert StepTrace(steps, name) == head + StepTrace(steps[1..], name);
      assert o.callstack + head + StepTrace(steps[1..], name) == o.callstack + StepTrace(steps, name);
      RunSteps(env, steps[1..], name, next)
  }

  /** Runs every validator that applies to `name`, each on the instance the
      previous one left, and concatenates what they report. */
  function RunValidators(vs: seq<Validator>, name: string, o: TestOptions): (r: Validation)
    ensures SameFields(o, r.options)
    ensures Extends(o, r.options)
    ensures r.failures == AllFailures(vs, name, o)
    ensures r.options == o.(callstack := o.callstack + ValidatorTrace(vs, name))
    decreases |vs|
  {
    if vs == [] then Validation(o, [])
    else
      var first := if Applies(vs[0].target, name) then Validate(vs[0].check, name, o)
                   else Validation(o, []);
      var head := if Applies(vs[0].target, name) then CheckTrace(vs[0].check, name) else [];
      assert first.options == o.(callstack := o.callstack + head);
      AllFailuresIgnoreCallstack(vs[1..], name, o, first.options);
      var rest := RunValidators(vs[1..], name, first.options);
      assert ValidatorTrace(vs, name) == head + ValidatorTrace(vs[1..], name);
      assert o.callstack + head + ValidatorTrace(vs[1..], name) == o.callstack + ValidatorTrace(vs, name);
      Validation(rest.options, first.failures + rest.failures)
  }

  /** Reference definition of the aggregated failures: every applicable
      validator judged on the same instance, reports concatenated in
      registration order. */
  function AllFailures(vs: seq<Validator>, name: string, o: TestOptions): seq<string>
    decreases |vs|
  {
    if vs == [] then []
    else
      (if Applies(vs[0].target, name) then Validate(vs[0].check, name, o).failures else [])
      + AllFailures(vs[1..], name, o)
  }

  lemma {:induction false} AllFailuresIgnoreCallstack(vs: seq<Validator>, name: string, a: TestOptions, b: TestOptions)
    requires SameFields(a, b)
    ensures AllFailures(vs, name, a) == AllFailures(vs, name, b)
    decreases |vs|
  {
    if vs != [] {
      Steps.FailuresIgnoreCallstack(vs[0].check, name, a, b);
      AllFailuresIgnoreCallstack(vs[1..], name, a, b);
    }
  }

  /** The instance after steps 1-3: defaults, configure steps, post-configure steps. */
  function Configured(env: Env, services: seq<Service>, name: string): (r: TestOptions)
    ensures r.callstack == StepTrace(ConfigureSteps(services), name) + StepTrace(PostConfigureSteps(services), name)
  {
    var configured := RunSteps(env, ConfigureSteps(services), name, NewTestOptions());
    RunSteps(env, PostConfigureSteps(services), name, configured)
  }

  /** The two stages are one run over the configure steps followed by the
      post-configure steps, wherever the registrations sit. */
  lemma ConfiguredIsOneRun(env: Env, services: seq<Service>, name: string)
    ensures Configured(env, services, name)
         == RunSteps(env, ConfigureSteps(services) + PostConfigureSteps(services), name, NewTestOptions())
  {
    RunStepsAppend(env, ConfigureSteps(services), PostConfigureSteps(services), name, NewTestOptions());
  }

  /** `IOptionsFactory<TestOptions>.Create(name)`. */
  function Create(env: Env, services: seq<Service>, name: string): (r: Outcome)
    ensures r.Ok? <==> AllFailures(Validators(services), name, Configured(env, services, name)) == []
    ensures r.Fail? ==> r.failures == AllFailures(Validators(services), name, Configured(env, services, name))
    ensures r.Ok? ==> SameFields(Configured(env, services, name), r.options)
                      && Extends(Configured(env, services, name), r.options)
    ensures r.Ok? ==> r.options == Configured(env, services, name).(callstack :=
                        Configured(env, services, name).callstack + ValidatorTrace(Validators(services), name))
  {
    var checked := RunValidators(Validators(services), name, Configured(env, services, name));
    if checked.failures == [] then Ok(checked.options) else Fail(checked.failures)
  }

  // ---------------------------------------------------------------------------
  // Properties of the pipeline
  // ---------------------------------------------------------------------------

  /** Running a first step and then the rest. */
  lemma RunStepsCons(env: Env, s: Step, rest: seq<Step>, name: string, o: TestOptions)
    ensures RunSteps(env, [s] + rest, name, o)
         == RunSteps(env, rest, name, if Applies(s.target, name)
                                      then Apply(env.config, env.collab, s.action, name, o) else o)
  {
    assert ([s] + rest)[0] == s && ([s] + rest)[1..] == rest;
  }

  /** Running two lists of steps is running their concatenation. */
  lemma {:induction false} RunStepsAppend(env: Env, xs: seq<Step>, ys: seq<Step>, name: string, o: TestOptions)
    ensures RunSteps(env, xs + ys, name, o) == RunSteps(env, ys, name, RunSteps(env, xs, name, o))
    decreases |xs|
  {
    if xs != [] {
      assert (xs + ys)[0] == xs[0];
      assert (xs + ys)[1..] == xs[1..] + ys;
      var next := if Applies(xs[0].target, name)
                  then Apply(env.config, env.collab, xs[0].action, name, o)
                  else o;
      RunStepsAppend(env, xs[1..], ys, name, next);
    } else {
      assert xs + ys == ys;
    }
  }

  /** Registration order decides precedence: whatever ran before, a Region
      assignment that applies and comes last is the Region that remains. */
  lemma {:induction false} LastRegionAssignmentWins(env: Env, xs: seq<Step>, t: Target, v: string, name: string, o: TestOptions)
    requires Applies(t, name)
    ensures RunSteps(env, xs + [Step(t, AssignFields([SetRegion(v)]))], name, o).region == v
  {
    var st := Step(t, AssignFields([SetRegion(v)]));
    RunStepsAppend(env, xs, [st], name, o);
    var m := RunSteps(env, xs, name, o);
    assert RunSteps(env, [st], name, m) == RunSteps(env, [], name, AssignAll(m, [SetRegion(v)]));
    AssignAllFields(m, [SetRegion(v)]);
    assert LastWriteAt([SetRegion(v)], 0, RegionField);
  }

  /** The aggregated failures are empty exactly when no applicable validator
      reports anything: there is no short-circuit, every validator is asked. */
  lemma {:induction false} NoFailuresIff(vs: seq<Validator>, name: string, o: TestOptions)
    ensures AllFailures(vs, name, o) == [] <==>
            forall i :: 0 <= i < |vs| && Applies(vs[i].target, name) ==>
                          Validate(vs[i].check, name, o).failures == []
    decreases |vs|
  {
    if vs != [] {
      NoFailuresIff(vs[1..], name, o);
      forall i | 1 <= i < |vs|
        ensures vs[i] == vs[1..][i - 1]
      {
      }
    }
  }

  /** Concatenating validator lists concatenates their failures. */
  lemma {:induction false} AllFailuresAppend(xs: seq<Validator>, ys: seq<Validator>, name: string, o: TestOptions)
    ensures AllFailures(xs + ys, name, o) == AllFailures(xs, name, o) + AllFailures(ys, name, o)
    decreases |xs|
  {
    if xs != [] {
      assert (xs + ys)[0] == xs[0];
      assert (xs + ys)[1..] == xs[1..] + ys;
      AllFailuresAppend(xs[1..], ys, name, o);
    } else {
      assert xs + ys == ys;
    }
  }

  lemma {:induction false} ProjectionsAppend(a: seq<Service>, b: seq<Service>)
    ensures ConfigureSteps(a + b) == ConfigureSteps(a) + ConfigureSteps(b)
    ensures PostConfigureSteps(a + b) == PostConfigureSteps(a) + PostConfigureSteps(b)
    ensures Validators(a + b) == Validators(a) + Validators(b)
    decreases |a|
  {
    if a != [] {
      assert (a + b)[0] == a[0];
      assert (a + b)[1..] == a[1..] + b;
      ProjectionsAppend(a[1..], b);
    } else {
      assert a + b == b;
    }
  }

  /** A registration that plays no part in a `Create(name)`: one registered
      only under the named-only capability type, or one whose target does not
      apply to `name`. */
  predicate Ignored(svc: Service, name: string)
  {
    match svc
    case ConfigureService(t, _) => !Applies(t, name)
    case NamedConfigureService(_) => true
    case PostConfigureService(t, _) => !Applies(t, name)
    case ValidateService(t, _) => !Applies(t, name)
  }

  /** Adding an ignored registration anywhere leaves every `Create(name)`
      outcome as it was. This is the isolation of named registrations, the
      restriction of plain configurator classes to the default name, and the
      invisibility of named-only registrations. */
  lemma {:induction false} IgnoredRegistration(env: Env, a: seq<Service>, svc: Service, b: seq<Service>, name: string)
    requires Ignored(svc, name)
    ensures Create(env, a + [svc] + b, name) == Create(env, a + b, name)
  {
    ProjectionsAppend(a + [svc], b);
    ProjectionsAppend(a, [svc]);
    ProjectionsAppend(a, b);
    match svc
    case ConfigureService(t, act) =>
      assert ConfigureSteps([svc]) == [Step(t, act)];
      assert PostConfigureSteps(a + [svc] + b) == PostConfigureSteps(a + b);
      assert Validators(a + [svc] + b) == Validators(a + b);
      RunStepsSkip(env, ConfigureSteps(a), Step(t, act), ConfigureSteps(b), name, NewTestOptions());
      assert Configured(env, a + [svc] + b, name) == Configured(env, a + b, name);
    case NamedConfigureService(_) =>
      assert ConfigureSteps([svc]) == [] && PostConfigureSteps([svc]) == [] && Validators([svc]) == [];
      assert ConfigureSteps(a + [svc] + b) == ConfigureSteps(a + b);
      assert PostConfigureSteps(a + [svc] + b) == PostConfigureSteps(a + b);
      assert Validators(a + [svc] + b) == Validators(a + b);
    case PostConfigureService(t, act) =>
      assert PostConfigureSteps([svc]) == [Step(t, act)];
      assert ConfigureSteps(a + [svc] + b) == ConfigureSteps(a + b);
      assert Validators(a + [svc] + b) == Validators(a + b);
      var o1 := RunSteps(env, ConfigureSteps(a + b), name, NewTestOptions());
      RunStepsSkip(env, PostConfigureSteps(a), Step(t, act), PostConfigureSteps(b), name, o1);
      assert Configured(env, a + [svc] + b, name) == Configured(env, a + b, name);
    case ValidateService(t, chk) =>
      assert Validators([svc]) == [Validator(t, chk)];
      assert ConfigureSteps(a + [svc] + b) == ConfigureSteps(a + b);
      assert PostConfigureSteps(a + [svc] + b) == PostConfigureSteps(a + b);
      assert Validators(a + [svc] + b) == Validators(a) + [Validator(t, chk)] + Validators(b);
      RunValidatorsAppendIgnored(Validators(a), Validator(t, chk), Validators(b), name, Configured(env, a + b, name));
  }

  /** A step that does not apply leaves a run of steps untouched. */
  lemma {:induction false} RunStepsSkip(env: Env, xs: seq<Step>, st: Step, ys: seq<Step>, name: string, o: TestOptions)
    requires !Applies(st.target, name)
    ensures RunSteps(env, xs + [st] + ys, name, o) == RunSteps(env, xs + ys, name, o)
  {
    RunStepsAppend(env, xs + [st], ys, name, o);
    RunStepsAppend(env, xs, [st], name, o);
    RunStepsAppend(env, xs, ys, name, o);
    var m := RunSteps(env, xs, name, o);
    assert RunSteps(env, [st], name, m) == RunSteps(env, [], name, m);
  }

  /** A validator that does not apply leaves the validation run untouched. */
  lemma {:induction false} RunValidatorsAppendIgnored(xs: seq<Validator>, v: Validator, ys: seq<Validator>, name: string, o: TestOptions)
    requires !Applies(v.target, name)
    ensures RunValidators(xs + [v] + ys, name, o) == RunValidators(xs + ys, name, o)
    decreases |xs|
  {
    if xs == [] {
      assert xs + [v] + ys == [v] + ys;
      assert ([v] + ys)[0] == v;
      assert ([v] + ys)[1..] == ys;
      var rest := RunValidators(ys, name, o);
      assert RunValidators([v] + ys, name, o) == Validation(rest.options, [] + rest.failures);
      assert [] + rest.failures == rest.failures;
      assert xs + ys == ys;
    } else {
      assert (xs + [v] + ys)[0] == xs[0] && (xs + ys)[0] == xs[0];
      assert (xs + [v] + ys)[1..] == xs[1..] + [v] + ys;
      assert (xs + ys)[1..] == xs[1..] + ys;
      var first := if Applies(xs[0].target, name) then Validate(xs[0].check, name, o)
                   else Validation(o, []);
      RunValidatorsAppendIgnored(xs[1..], v, ys, name, first.options);
    }
  }

  /** Post-configure steps run after all configure steps: moving a
      post-configure registration behind later configure (or validate)
      registrations changes nothing. */
  lemma {:induction false} PostConfigureRunsLast(env: Env, a: seq<Service>, p: Service, b: seq<Service>, name: string)
    requires p.PostConfigureService?
    requires PostConfigureSteps(b) == []
    ensures Create(env, a + [p] + b, name) == Create(env, a + b + [p], name)
  {
    ProjectionsAppend(a + [p], b);
    ProjectionsAppend(a, [p]);
    ProjectionsAppend(a + b, [p]);
    ProjectionsAppend(a, b);
    assert ConfigureSteps([p]) == [] && Validators([p]) == [];
    assert ConfigureSteps(a + [p] + b) == ConfigureSteps(a + b + [p]);
    assert PostConfigureSteps(a + [p] + b) == PostConfigureSteps(a + b + [p]);
    assert Validators(a + [p] + b) == Validators(a + b + [p]);
  }

  /** No registration for a name: `Create` returns a default-constructed
      instance and never fails. */
  lemma {:induction false} NothingRegisteredGivesDefaults(env: Env, services: seq<Service>, name: string)
    requires forall i :: 0 <= i < |services| ==> Ignored(services[i], name)
    ensures Create(env, services, name) == Ok(NewTestOptions())
    decreases |services|
  {
    if services != [] {
      var rest := services[1..];
      assert forall i :: 0 <= i < |rest| ==> Ignored(rest[i], name) by {
        forall i | 0 <= i < |rest| ensures Ignored(rest[i], name) {
          assert rest[i] == services[i + 1];
        }
      }
      NothingRegisteredGivesDefaults(env, rest, name);
      IgnoredRegistration(env, [], services[0], rest, name);
      assert [] + [services[0]] + rest == services;
      assert [] + rest == rest;
    }
  }
}
