/** The in-memory configuration every test starts from, and the binder that
    copies a section onto a `TestOptions`.

    The store is flat: colon-separated paths map to values. Values are kept
    already typed (text, decimal number, flag); the string coercion the real
    binder performs is not modelled. */
module Configuration {
  import opened OptionTypes

  datatype Value = Text(text: string) | Number(number: real) | Flag(flag: bool)

  type Config = map<string, Value>

  /** The path of `key` inside `section`. */
  function Path(section: string, key: string): string
  {
    section + ":" + key
  }

  /** `key` lies under `section`, i.e. starts with `section:`. */
  predicate IsUnder(key: string, section: string)
  {
    |section| < |key| && key[..|section| + 1] == section + ":"
  }

  /** `GetSection(section)` names a section that exists: some key lies under it. */
  predicate HasSection(c: Config, section: string)
  {
    exists k :: k in c && IsUnder(k, section)
  }

  /** A raw `configuration[key] = value` write. */
  function Set(c: Config, key: string, v: Value): (r: Config)
    ensures key in r && r[key] == v
    ensures forall k :: k in c && k != key ==> k in r && r[k] == c[k]
    ensures r.Keys == c.Keys + {key}
  {
    c[key := v]
  }

  /** The eight key/value pairs every provider starts from. */
  function Fixture(): Config
  {
    map[
      "Options1:Region" := Text("TheRegion"),
      "Options1:Url" := Text("TheUrl"),
      "Options1:Vat" := Number(0.19),
      "Options1:Enabled" := Flag(false),
      "Options2:Region" := Text("TheRegion2"),
      "Options2:Url" := Text("TheUrl2"),
      "Options2:Vat" := Number(0.7),
      "Options2:Enabled" := Flag(true)
    ]
  }

  function TextAt(c: Config, path: string, otherwise: string): string
  {
    if path in c && c[path].Text? then c[path].text else otherwise
  }

  function NumberAt(c: Config, path: string, otherwise: real): real
  {
    if path in c && c[path].Number? then c[path].number else otherwise
  }

  function FlagAt(c: Config, path: string, otherwise: bool): bool
  {
    if path in c && c[path].Flag? then c[path].flag else otherwise
  }

  /** `section.Bind(o)`: every field whose key is present under the section
      takes the configured value; every other field, and the callstack, keep
      their prior value. */
  function Bind(c: Config, section: string, o: TestOptions): (r: TestOptions)
    ensures r.callstack == o.callstack
    ensures Path(section, "Region") !in c ==> r.region == o.region
    ensures Path(section, "Url") !in c ==> r.url == o.url
    ensures Path(section, "Vat") !in c ==> r.vat == o.vat
    ensures Path(section, "Enabled") !in c ==> r.enabled == o.enabled
    ensures Path(section, "Region") in c && c[Path(section, "Region")].Text? ==>
              r.region == c[Path(section, "Region")].text
    ensures Path(section, "Url") in c && c[Path(section, "Url")].Text? ==>
              r.url == c[Path(section, "Url")].text
    ensures Path(section, "Vat") in c && c[Path(section, "Vat")].Number? ==>
              r.vat == c[Path(section, "Vat")].number
    ensures Path(section, "Enabled") in c && c[Path(section, "Enabled")].Flag? ==>
              r.enabled == c[Path(section, "Enabled")].flag
  {
    o.(region := TextAt(c, Path(section, "Region"), o.region),
       url := TextAt(c, Path(section, "Url"), o.url),
       vat := NumberAt(c, Path(section, "Vat"), o.vat),
       enabled := FlagAt(c, Path(section, "Enabled"), o.enabled))
  }

  /** Raw `GetSection(section).Get<TestOptions>()`: null for a section with no
      keys, otherwise the section bound onto a fresh instance. It consults
      nothing but the configuration, so no registered step reaches it. */
  function Get(c: Config, section: string): (r: Option<TestOptions>)
    ensures r.None? <==> !HasSection(c, section)
    ensures r.Some? ==> r.value == Bind(c, section, NewTestOptions())
  {
    if HasSection(c, section) then Some(Bind(c, section, NewTestOptions())) else None
  }

  lemma PathIsUnder(section: string, key: string)
    requires |key| > 0
    ensures IsUnder(Path(section, key), section)
  {
    assert Path(section, key)[..|section| + 1] == section + ":";
  }

  /** Binding a section that does not exist changes nothing and is no error. */
  lemma {:induction false} BindMissingSection(c: Config, section: string, o: TestOptions)
    requires !HasSection(c, section)
    ensures Bind(c, section, o) == o
  {
    PathIsUnder(section, "Region");
    PathIsUnder(section, "Url");
    PathIsUnder(section, "Vat");
    PathIsUnder(section, "Enabled");
  }

  /** Binding twice is binding once. */
  lemma BindIdempotent(c: Config, section: string, o: TestOptions)
    ensures Bind(c, section, Bind(c, section, o)) == Bind(c, section, o)
  {
  }

  /** Bind reads only the keys under its section: two stores that agree
      there bind identically. */
  lemma {:induction false} BindReadsOnlyItsSection(c: Config, d: Config, section: string, o: TestOptions)
    requires forall k :: IsUnder(k, section) ==> (k in c <==> k in d)
    requires forall k :: IsUnder(k, section) && k in c && k in d ==> c[k] == d[k]
    ensures Bind(c, section, o) == Bind(d, section, o)
  {
    PathIsUnder(section, "Region");
    PathIsUnder(section, "Url");
    PathIsUnder(section, "Vat");
    PathIsUnder(section, "Enabled");
  }

  /** A raw write of a section's Region is seen by the next Bind of that
      section, and only Region differs from binding the unchanged store. */
  lemma {:induction false} BindSeesRawSet(c: Config, section: string, v: string, o: TestOptions)
    ensures Bind(Set(c, Path(section, "Region"), Text(v)), section, o)
         == Bind(c, section, o).(region := v)
  {
    var d := Set(c, Path(section, "Region"), Text(v));
    assert Path(section, "Url") != Path(section, "Region") by {
      assert Path(section, "Url")[|section| + 1] == 'U';
    }
    assert Path(section, "Vat") != Path(section, "Region") by {
      assert Path(section, "Vat")[|section| + 1] == 'V';
    }
    assert Path(section, "Enabled") != Path(section, "Region") by {
      assert Path(section, "Enabled")[|section| + 1] == 'E';
    }
  }
}
