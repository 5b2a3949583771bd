/**
 * lib/config.js: the configuration read from the environment — every
 * required variable must be set, and the optional ones fall back to
 * defaults.
 */
module Config {
  import opened Js
  import opened Grouping
  import opened Objects

  /** The process environment: variable names to their values. */
  type Env = map<string, string>

  const RequiredFields: seq<string> :=
    ["JIRA_API_TOKEN", "JIRA_USERNAME", "BASE_URL", "TOGGL_API_KEY",
     "TOGGL_WORKSPACE", "DB_DATABASE", "DB_USERNAME", "DB_DIALECT"]

  const OptionalFields: seq<string> := ["DB_STORAGE", "DB_HOST", "DB_PASSWORD", "TIMEZONE", "DAY_START"]

  const OptionalDefaults: seq<Prop> :=
    [Prop("DB_STORAGE", Null), Prop("DB_PASSWORD", Null), Prop("DB_HOST", Str("localhost")),
     Prop("TIMEZONE", Str("UTC")), Prop("DAY_START", Null)]

  const MissingMessage := "Missing required config variables "

  /** `_.pick(process.env, fields)`: the fields that are set, in the order
      of `fields`. */
  function PickEnv(env: Env, fields: seq<string>): seq<Prop> {
    if fields == [] then []
    else
      var init := PickEnv(env, fields[..|fields| - 1]);
      var f := fields[|fields| - 1];
      if f in env then init + [Prop(f, Str(env[f]))] else init
  }

  /** A value `_.defaults` fills in: absent or `undefined`. */
  predicate Unset(v: Option<JsValue>) {
    v.None? || v == Some(Undefined)
  }

  /** `_.defaults(obj, source)`: each of `source`'s properties, in order,
      is copied onto `obj` where `obj`'s value is unset. */
  function Defaults(obj: seq<Prop>, source: seq<Prop>): seq<Prop>
    decreases |source|
  {
    if source == [] then obj
    else
      var p := source[0];
      Defaults(if Unset(Lookup(obj, p.name)) then Put(obj, p) else obj, source[1..])
  }

  /** `_.difference(a, b)`: the elements of `a` not in `b`, in `a`'s order. */
  function Difference(a: seq<string>, b: seq<string>): seq<string> {
    if a == [] then []
    else
      var init := Difference(a[..|a| - 1], b);
      if a[|a| - 1] in b then init else init + [a[|a| - 1]]
  }

  /** `fields`: the required variables that are set. */
  function RequiredValues(env: Env): seq<Prop> {
    PickEnv(env, RequiredFields)
  }

  /** `optional`: the optional variables that are set, then the defaults
      of those that are not. */
  function OptionalValues(env: Env): seq<Prop> {
    Defaults(PickEnv(env, OptionalFields), OptionalDefaults)
  }

  /** `missing`. */
  function MissingFields(env: Env): seq<string> {
    Difference(RequiredFields, Names(RequiredValues(env)))
  }

  /** Loading `lib/config.js` with environment `env`: the exported object
      `{...fields, ...optional}`, or the error it throws. */
  function LoadConfig(env: Env): Result<seq<Prop>> {
    var missing := MissingFields(env);
    if |missing| > 0 then Err(MissingMessage + Join(missing, ", "))
    else Ok(Assign(Assign([], RequiredValues(env)), OptionalValues(env)))
  }

  lemma {:induction false} PickEnvLookup(env: Env, fields: seq<string>, name: string)
    ensures Lookup(PickEnv(env, fields), name) == if name in fields && name in env then Some(Str(env[name])) else None
    ensures name in Names(PickEnv(env, fields)) <==> name in fields && name in env
    ensures NoDuplicates(fields) ==> NoDuplicates(Names(PickEnv(env, fields)))
    decreases |fields|
  {
    if fields != [] {
      var n := |fields| - 1;
      var f := fields[n];
      var init := PickEnv(env, fields[..n]);
      PickEnvLookup(env, fields[..n], name);
      PickEnvLookup(env, fields[..n], f);
      assert fields == fields[..n] + [f];
      if NoDuplicates(fields) {
        NoDuplicatesInit(fields);
      }
      if f in env {
        var p := Prop(f, Str(env[f]));
        LookupAppend(init, [p], name);
        assert Names(init + [p]) == Names(init) + [f];
        if NoDuplicates(fields) {
          NoDuplicatesSnoc(Names(init), f);
        }
      }
    }
  }

  /** Where `obj` has each name once and `source` too, a name looks up its
      value in `obj` unless that is unset, and then `source`'s value. */
  lemma {:induction false} DefaultsLookup(obj: seq<Prop>, source: seq<Prop>, name: string)
    requires NoDuplicates(Names(obj)) && NoDuplicates(Names(source))
    ensures Lookup(Defaults(obj, source), name)
         == if Unset(Lookup(obj, name)) && Lookup(source, name).Some? then Lookup(source, name) else Lookup(obj, name)
    decreases |source|
  {
    if source != [] {
      var p, rest := source[0], source[1..];
      assert source == [p] + rest;
      NamesCons(source);
      NoDuplicatesCons(p.name, Names(rest));
      var next := if Unset(Lookup(obj, p.name)) then Put(obj, p) else obj;
      PutLookup(obj, p, name);
      DefaultsLookup(next, rest, name);
      LookupFront(p, rest, name);
      if name == p.name {
        assert forall j :: 0 <= j < |rest| ==> Names(rest)[j] == rest[j].name;
        LookupMissing(rest, name);
      }
    }
  }

  lemma {:induction false} DifferenceMembers(a: seq<string>, b: seq<string>)
    ensures forall x :: x in Difference(a, b) <==> x in a && x !in b
    decreases |a|
  {
    if a != [] {
      var n := |a| - 1;
      DifferenceMembers(a[..n], b);
      assert a == a[..n] + [a[n]];
    }
  }

  /** Loading fails exactly when a required variable is not set, and the
      message lists exactly the variables that are not. */
  lemma LoadConfigFails(env: Env)
    ensures LoadConfig(env).Err? <==> exists f :: f in RequiredFields && f !in env
    ensures LoadConfig(env).Err? ==> LoadConfig(env).error == MissingMessage + Join(MissingFields(env), ", ")
    ensures forall f :: f in MissingFields(env) <==> f in RequiredFields && f !in env
  {
    var fields := RequiredValues(env);
    DifferenceMembers(RequiredFields, Names(fields));
    forall f ensures f in Names(fields) <==> f in RequiredFields && f in env {
      PickEnvLookup(env, RequiredFields, f);
    }
    if exists f :: f in RequiredFields && f !in env {
      var f :| f in RequiredFields && f !in env;
      assert f in MissingFields(env);
    }
    if MissingFields(env) != [] {
      assert MissingFields(env)[0] in MissingFields(env);
    }
  }

  /** An environment lacking two required variables. */
  const SampleEnv: Env := map["JIRA_API_TOKEN" := "t", "BASE_URL" := "b", "TOGGL_API_KEY" := "k",
                              "TOGGL_WORKSPACE" := "w", "DB_DATABASE" := "d", "DB_USERNAME" := "u"]

  const SampleSet := ["JIRA_API_TOKEN", "BASE_URL", "TOGGL_API_KEY", "TOGGL_WORKSPACE", "DB_DATABASE", "DB_USERNAME"]

  /** The required variables that are set, in the order of the list. */
  lemma SampleRequiredValues()
    ensures Names(RequiredValues(SampleEnv)) == SampleSet
  {
    var env, r := SampleEnv, RequiredFields;
    assert r[..1] == ["JIRA_API_TOKEN"] && r[..1][..0] == [];
    assert "JIRA_API_TOKEN" in env && env["JIRA_API_TOKEN"] == "t";
    assert PickEnv(env, r[..1][..0]) == [];
    var p := PickEnv(env, r[..1]);
    assert p == [Prop("JIRA_API_TOKEN", Str("t"))];
    assert r[..2][..1] == r[..1];
    assert PickEnv(env, r[..2]) == p;
    assert r[..3][..2] == r[..2];
    p := PickEnv(env, r[..3]);
    assert p == [Prop("JIRA_API_TOKEN", Str("t")), Prop("BASE_URL", Str("b"))];
    assert r[..4][..3] == r[..3];
    p := PickEnv(env, r[..4]);
    assert r[..5][..4] == r[..4];
    p := PickEnv(env, r[..5]);
    assert r[..6][..5] == r[..5];
    p := PickEnv(env, r[..6]);
    assert r[..7][..6] == r[..6];
    p := PickEnv(env, r[..7]);
    assert Names(p) == SampleSet;
    assert r[..8][..7] == r[..7] && r[..8] == r;
  }

  /** The required variables the sample lacks, in the order of the list. */
  lemma SampleMissing()
    ensures MissingFields(SampleEnv) == ["JIRA_USERNAME", "DB_DIALECT"]
  {
    SampleRequiredValues();
    var r, names := RequiredFields, SampleSet;
    assert r[..8] == r;
    assert Difference(r[..1], names) == [];
    assert Difference(r[..2], names) == ["JIRA_USERNAME"];
    assert r[..3][..2] == r[..2] && r[2] in names;
    assert Difference(r[..3], names) == ["JIRA_USERNAME"];
    assert r[..4][..3] == r[..3] && r[3] in names;
    assert Difference(r[..4], names) == ["JIRA_USERNAME"];
    assert r[..5][..4] == r[..4] && r[4] in names;
    assert Difference(r[..5], names) == ["JIRA_USERNAME"];
    assert r[..6][..5] == r[..5] && r[5] in names;
    assert Difference(r[..6], names) == ["JIRA_USERNAME"];
    assert r[..7][..6] == r[..6] && r[6] in names;
    assert Difference(r[..7], names) == ["JIRA_USERNAME"];
    assert r[..8][..7] == r[..7];
  }

  /** The missing variables are listed in the order of the required list. */
  lemma LoadConfigMissingExample()
    ensures LoadConfig(SampleEnv) == Err(MissingMessage + "JIRA_USERNAME, DB_DIALECT")
  {
    SampleMissing();
    var missing := MissingFields(SampleEnv);
    assert Join(missing, ", ") == "JIRA_USERNAME, DB_DIALECT" by {
      assert missing[1..] == ["DB_DIALECT"];
    }
  }

  /** No variable is both required and optional. */
  lemma FieldListsDisjoint(name: string)
    ensures name in RequiredFields ==> name !in OptionalFields
  {
  }

  /** Each optional variable is listed once and has exactly one default. */
  lemma OptionalListsAgree()
    ensures NoDuplicates(OptionalFields)
    ensures NoDuplicates(Names(OptionalDefaults))
    ensures forall n :: n in Names(OptionalDefaults) <==> n in OptionalFields
    ensures forall j :: 0 <= j < |OptionalDefaults| ==> OptionalDefaults[j].name == Names(OptionalDefaults)[j]
  {
    assert Names(OptionalDefaults) == ["DB_STORAGE", "DB_PASSWORD", "DB_HOST", "TIMEZONE", "DAY_START"];
  }

  /** The optional part holds each optional variable's value, or else its
      default, and nothing else. */
  lemma OptionalValuesLookup(env: Env, name: string)
    ensures Lookup(OptionalValues(env), name)
         == if name !in OptionalFields then None
            else if name in env then Some(Str(env[name]))
            else Lookup(OptionalDefaults, name)
  {
    var picked := PickEnv(env, OptionalFields);
    OptionalListsAgree();
    PickEnvLookup(env, OptionalFields, name);
    DefaultsLookup(picked, OptionalDefaults, name);
    if name !in OptionalFields {
      LookupMissing(OptionalDefaults, name);
    }
  }

  /** A loaded configuration holds every required variable with its value,
      every optional one with its value or else its default, and nothing
      else. */
  lemma LoadConfigValues(env: Env, name: string)
    requires forall f :: f in RequiredFields ==> f in env
    ensures LoadConfig(env).Ok?
    ensures name in RequiredFields ==> Lookup(LoadConfig(env).value, name) == Some(Str(env[name]))
    ensures name in OptionalFields ==>
      Lookup(LoadConfig(env).value, name) == if name in env then Some(Str(env[name])) else Lookup(OptionalDefaults, name)
    ensures name !in RequiredFields && name !in OptionalFields ==> Lookup(LoadConfig(env).value, name) == None
  {
    LoadConfigFails(env);
    var fields := RequiredValues(env);
    PickEnvLookup(env, RequiredFields, name);
    OptionalValuesLookup(env, name);
    FieldListsDisjoint(name);
    AssignLookup([], fields, name);
    AssignLookup(Assign([], fields), OptionalValues(env), name);
  }
}
