/** The jshint task of tasks/jshint.js: a reader whose filterRead accepts
    every file, and a processConfig that normalises JSHint options: it
    creates `globals` when it is missing and turns the deprecated `predef`
    list into `globals[name] = true` entries. The engine calls parseConfig,
    which jshint leaves at its default, so processConfig is never part of a
    run; it is modelled on its own. */
module JsHint {
  import opened Js
  import opened TaskEngine
  import TaskLaws

  // ---------------------------------------------------------------------
  // processConfig

  /** The property keys a list of values names, each converted with ToString. */
  function KeyNames(items: seq<Value>): set<string>
    decreases |items|
  {
    if items == [] then {} else KeyNames(items[..|items| - 1]) + {ToString(items[|items| - 1])}
  }

  /** A name is a key of the list exactly when some element converts to it. */
  lemma {:induction false} KeyNamesMembers(items: seq<Value>, k: string)
    ensures k in KeyNames(items) <==> exists i :: 0 <= i < |items| && ToString(items[i]) == k
    decreases |items|
  {
    if items != [] {
      var init := items[..|items| - 1];
      KeyNamesMembers(init, k);
      if k in KeyNames(init) {
        var i :| 0 <= i < |init| && ToString(init[i]) == k;
        assert items[i] == init[i];
      } else if exists i :: 0 <= i < |items| && ToString(items[i]) == k {
        var i :| 0 <= i < |items| && ToString(items[i]) == k;
        if i < |items| - 1 {
          assert init[i] == items[i];
        }
      }
    }
  }

  /** `globals` with `true` under every key the list names. */
  function Marked(globals: map<string, Value>, items: seq<Value>): map<string, Value> {
    globals + map k | k in KeyNames(items) :: Bool(true)
  }

  /** The names `options.predef` contributes: its elements' keys when it is
      a truthy array, none otherwise. */
  function PredefNames(options: map<string, Value>): set<string> {
    var predef := Prop(Obj(options), "predef");
    if Truthy(predef) && predef.Arr? then KeyNames(predef.items) else {}
  }

  function TypeName(v: Value): string {
    match v
    case Bool(_) => "boolean"
    case Num(_) => "number"
    case Str(_) => "string"
    case _ => "object"
  }

  /** The TypeError a strict-mode assignment of property `key` on a primitive throws. */
  function CannotCreate(key: string, target: Value): Value {
    TypeError("Cannot create property '" + key + "' on " + TypeName(target) + " '" + ToString(target) + "'")
  }

  /** Options the value model can follow: when predef names anything, globals
      is neither an array nor an Error, whose named properties are not part
      of the value model. */
  predicate Representable(options: map<string, Value>) {
    var predef := Prop(Obj(options), "predef");
    var globals := Prop(Obj(options), "globals");
    predef.Arr? && predef.items != [] ==> !globals.Arr? && !globals.Error?
  }

  /** What processConfig does to an options object. A truthy jshintrc fails
      on `Task.file`, which lib/task.js never defines; a falsy globals becomes
      {}; a truthy predef must be an array (it is walked with forEach), and
      each of its elements becomes a key of globals set to true, which fails
      on the first element when globals is a primitive. */
  function ProcessedOptions(options: map<string, Value>): Sync<map<string, Value>>
    requires Representable(options)
  {
    if Truthy(Prop(Obj(options), "jshintrc")) then Thrown(TypeError("Cannot read property 'readJSON' of undefined"))
    else
      var withGlobals := if Truthy(Prop(Obj(options), "globals")) then options else options["globals" := Obj(map[])];
      var globals := withGlobals["globals"];
      var predef := Prop(Obj(options), "predef");
      if !Truthy(predef) then Returned(withGlobals)
      else if !predef.Arr? then Thrown(TypeError("options.predef.forEach is not a function"))
      else if predef.items == [] then Returned(withGlobals)
      else if globals.Obj? then Returned(withGlobals["globals" := Obj(Marked(globals.props, predef.items))])
      else Thrown(CannotCreate(ToString(predef.items[0]), globals))
  }

  lemma MarkedStep(globals: map<string, Value>, items: seq<Value>, i: nat)
    requires i < |items|
    ensures Marked(globals, items[..i])[ToString(items[i]) := Bool(true)] == Marked(globals, items[..i + 1])
  {
    assert items[..i + 1][..i] == items[..i];
  }

  /** processConfig(config). Options that are missing fail on the first
      property read; otherwise the config comes back with the same files and
      its options processed. */
  method ProcessConfig(config: Config) returns (r: Sync<Config>)
    requires config.options.Some? ==> Representable(config.options.value)
    ensures config.options.None? ==> r == Thrown(TypeError("Cannot read property 'jshintrc' of undefined"))
    ensures config.options.Some? ==>
      var p := ProcessedOptions(config.options.value);
      && (r.Returned? <==> p.Returned?)
      && (r.Returned? ==> r.value == Config(config.files, Some(p.value)))
      && (r.Thrown? ==> r.reason == p.reason)
  {
    if config.options.None? {
      return Thrown(TypeError("Cannot read property 'jshintrc' of undefined"));
    }
    var options := config.options.value;
    if Truthy(Prop(Obj(options), "jshintrc")) {
      return Thrown(TypeError("Cannot read property 'readJSON' of undefined"));
    }
    if !Truthy(Prop(Obj(options), "globals")) {
      options := options["globals" := Obj(map[])];
    }
    var predef := Prop(Obj(options), "predef");
    assert predef == Prop(Obj(config.options.value), "predef");
    if Truthy(predef) {
      if !predef.Arr? {
        return Thrown(TypeError("options.predef.forEach is not a function"));
      }
      var items := predef.items;
      ghost var start := options;
      ghost var first := start["globals"];
      assert first.Obj? ==> Marked(first.props, items[..0]) == first.props;
      var i := 0;
      while i < |items|
        invariant 0 <= i <= |items|
        invariant first.Obj? ==> options == start["globals" := Obj(Marked(first.props, items[..i]))]
        invariant !first.Obj? ==> i == 0 && options == start
      {
        var globals := options["globals"];
        var key := ToString(items[i]);
        if !globals.Obj? {
          return Thrown(CannotCreate(key, globals));
        }
        MarkedStep(first.props, items, i);
        options := options["globals" := Obj(globals.props[key := Bool(true)])];
        i := i + 1;
      }
      assert items[..i] == items;
    }
    return Returned(Config(config.files, Some(options)));
  }

  /** The failure rules of processConfig's options handling: it fails exactly
      when jshintrc is truthy, when a truthy predef is not an array, or when
      a non-empty predef meets a globals that is a primitive; every failure
      is a TypeError. */
  lemma ProcessedFailures(options: map<string, Value>)
    requires Representable(options)
    ensures var g := Prop(Obj(options), "globals"); var predef := Prop(Obj(options), "predef");
      var p := ProcessedOptions(options);
      && (p.Thrown? <==>
            || Truthy(Prop(Obj(options), "jshintrc"))
            || (Truthy(predef) && !predef.Arr?)
            || (predef.Arr? && predef.items != [] && Truthy(g) && !g.Obj?))
      && (p.Thrown? ==> p.reason.Error? && p.reason.name == "TypeError")
  {
  }

  /** On success, processConfig changes only `globals`: every name predef
      lists maps to true, a falsy globals becomes an object holding exactly
      those names, a truthy globals object keeps its other entries, and a
      truthy primitive globals is kept when predef names nothing. */
  lemma ProcessedGlobals(options: map<string, Value>)
    requires Representable(options) && ProcessedOptions(options).Returned?
    ensures var o := ProcessedOptions(options).value;
      var g := Prop(Obj(options), "globals"); var g' := o["globals"]; var names := PredefNames(options);
      && o.Keys == options.Keys + {"globals"}
      && (forall k :: k in options && k != "globals" ==> o[k] == options[k])
      && Truthy(g')
      && (Truthy(g) && !g.Obj? ==> g' == g && names == {})
      && (!Truthy(g) || g.Obj? ==>
            && g'.Obj?
            && (forall k :: k in names ==> k in g'.props && g'.props[k] == Bool(true))
            && (forall k :: k in g'.props && k !in names ==> g.Obj? && k in g.props && g'.props[k] == g.props[k])
            && (g.Obj? ==> g.props.Keys <= g'.props.Keys))
  {
    var predef := Prop(Obj(options), "predef");
    if Truthy(predef) && predef.Arr? && predef.items != [] && Truthy(Prop(Obj(options), "globals")) {
      assert Prop(Obj(options), "globals").Obj?;
    }
  }

  /** Each element of a predef array names a global set to true. */
  lemma PredefElementsGlobal(options: map<string, Value>, i: nat)
    requires Representable(options) && ProcessedOptions(options).Returned?
    requires Prop(Obj(options), "predef").Arr? && i < |Prop(Obj(options), "predef").items|
    ensures var g' := ProcessedOptions(options).value["globals"]; var key := ToString(Prop(Obj(options), "predef").items[i]);
      g'.Obj? && key in g'.props && g'.props[key] == Bool(true)
  {
    var items := Prop(Obj(options), "predef").items;
    KeyNamesMembers(items, ToString(items[i]));
    ProcessedGlobals(options);
  }

  /** Processing options a second time changes nothing. */
  lemma ProcessedIdempotent(options: map<string, Value>)
    requires Representable(options) && ProcessedOptions(options).Returned?
    ensures var o := ProcessedOptions(options).value;
      Representable(o) && ProcessedOptions(o) == Returned(o)
  {
    var o := ProcessedOptions(options).value;
    var predef := Prop(Obj(options), "predef");
    assert Prop(Obj(o), "predef") == predef && Prop(Obj(o), "jshintrc") == Prop(Obj(options), "jshintrc");
    ProcessedGlobals(options);
    if Truthy(predef) && predef.Arr? && predef.items != [] {
      var g' := o["globals"];
      assert g'.Obj?;
      assert Marked(g'.props, predef.items) == g'.props;
      assert o["globals" := Obj(g'.props)] == o;
    }
  }

  // ---------------------------------------------------------------------
  // The task

  /** filterRead: every file passes as `true`, whatever its content. */
  function FilterRead(config: Config, input: Value, path: Path): (r: Completion)
    ensures r == Fulfilled(Bool(true))
  {
    Fulfilled(Bool(true))
  }

  /** The members tasks/jshint.js hands to Task.create. processConfig is a
      member too, but the engine never looks it up. The engine finds jshint's
      own filterRead and the defaults for every other hook. */
  function Fragment(): (m: Members)
    ensures TypeOf(m) == Str(FILEREADER) && "method" !in m
    ensures FilterReadOf(m) == FilterRead && ParseConfigOf(m) == DefaultParseConfig
    ensures SetupOf(m) == DoNothing && TeardownOf(m) == DoNothing
    ensures IterateFileOf(m) == VisitNothing && FilterWriteOf(m) == DefaultFilterWrite
  {
    map[
      "name" := Data(Str("jshint")),
      "description" := Data(Str("Validate files with JSHint.")),
      "type" := Data(Str(FILEREADER)),
      "filterRead" := Fn(FilterReadHook(FilterRead))]
  }

  /** jshint walks a file set without throwing exactly when every source
      exists, and then yields `true` once per source. */
  lemma ReaderEntries(store: map<Path, string>, config: Config, input: FileSpec)
    ensures var s := FileSetRun(Fragment(), store, config, input); var ps := Sources(input);
      && (s.thrown.None? <==> forall i :: 0 <= i < |ps| ==> ps[i] in store)
      && (s.thrown.None? ==> s.entries == seq(|ps|, i => Fulfilled(Bool(true))))
  {
    var m := Fragment();
    assert TypeOf(m) == Str(FILEREADER) && IterateFileOf(m) == VisitNothing && FilterReadOf(m) == FilterRead;
    var ps := Sources(input);
    TaskLaws.FileSetLaws(m, store, config, input);
    assert forall i :: 0 <= i < |ps| ==> (TaskLaws.SourceCompletes(m, store, config, ps[i]) <==> ps[i] in store);
  }

  /** jshint.run never writes and always resolves to undefined: a missing
      `files` or a missing source makes the method fail, which `exception`
      swallows, and otherwise teardown, the default, returns undefined. */
  lemma RunNeverWrites(store: map<Path, string>, config: Config)
    ensures var x := RunSpec(Fragment(), store, config);
      x.store == store && x.outcome == Resolved(Undefined)
  {
    var m := Fragment();
    assert ParseConfigOf(m) == DefaultParseConfig && SetupOf(m) == DoNothing && TeardownOf(m) == DoNothing;
    assert "method" !in m && TypeOf(m) == Str(FILEREADER);
    TaskLaws.RunCases(m, store, config);
    TaskLaws.MethodDispatch(m, store, config);
    TaskLaws.NonWriterNeverWrites(m, store, config);
  }

  /** The file test/jshint_test.js runs jshint on. */
  const Fixture: Path := "test/fixtures/test.js"

  /** The config of test/jshint_test.js: files is the array
      ['test/fixtures/test.js'], whose one key is "0". */
  const FixtureConfig: Config := Config(Some([FileGroup("0", One(Fixture))]), None)

  /** processFiles in that test: it announces the file set, visits, reads and
      filters the fixture and fulfils with [true]; with the fixture missing,
      readFile throws undefined and processFiles throws it too. */
  lemma FixtureProcessFiles(store: map<Path, string>)
    ensures var config := FixtureConfig; var pf := ProcessFilesRun(Fragment(), store, config);
      var head := [Event("processFiles", [ConfigArg(config)]),
                   Event("processFileSet", [ConfigArg(config), InputArg(One(Fixture))]),
                   Event("iterateFile", [ConfigArg(config), PathArg(Fixture)]),
                   Event("readFile", [ConfigArg(config), PathArg(Fixture)])];
      && (Fixture in store ==>
            && pf.outcome == Fulfilled(Arr([Bool(true)]))
            && pf.events == head + [Event("filterRead", [ConfigArg(config), ValueArg(Str(StripBom(store[Fixture]))), PathArg(Fixture)])])
      && (Fixture !in store ==> pf.outcome == Threw(Undefined) && pf.events == head)
      && pf.store == store
  {
    var config := FixtureConfig;
    var announced := Event("processFiles", [ConfigArg(config)]);
    var sets := [Event("processFileSet", [ConfigArg(config), InputArg(One(Fixture))]),
                 Event("iterateFile", [ConfigArg(config), PathArg(Fixture)]),
                 Event("readFile", [ConfigArg(config), PathArg(Fixture)])];
    assert [announced] + sets == [announced, sets[0], sets[1], sets[2]];
    FixtureFileSet(store);
    FixtureGroups(store);
    if Fixture in store {
      var fr := Event("filterRead", [ConfigArg(config), ValueArg(Str(StripBom(store[Fixture]))), PathArg(Fixture)]);
      AppendAssoc([announced], sets, [fr]);
      assert FirstRejection([Fulfilled(Bool(true))]).None? && Values([Fulfilled(Bool(true))]) == [Bool(true)];
    }
  }

  /** The one destination of the fixture config, processed as a list of one. */
  lemma FixtureGroups(store: map<Path, string>)
    ensures var config := FixtureConfig; var s := FileSetRun(Fragment(), store, config, One(Fixture));
      ProcessGroups(Fragment(), store, config, config.files.value) ==
        if s.thrown.Some? then GroupsRun(s.events, store, [], s.thrown)
        else GroupsRun(s.events, store, [Fulfilled(Bool(true))], None)
  {
    var m := Fragment();
    var config := FixtureConfig;
    var g := FileGroup("0", One(Fixture));
    assert TypeOf(m) == Str(FILEREADER);
    assert [g][..0] == [] && [g][..1] == [g];
    ProcessGroupsNext(m, store, config, [g], 0);
  }

  /** The walk over the fixture alone. */
  lemma FixtureFileSet(store: map<Path, string>)
    ensures var config := FixtureConfig; var s := FileSetRun(Fragment(), store, config, One(Fixture));
      var head := [Event("processFileSet", [ConfigArg(config), InputArg(One(Fixture))]),
                   Event("iterateFile", [ConfigArg(config), PathArg(Fixture)]),
                   Event("readFile", [ConfigArg(config), PathArg(Fixture)])];
      && (Fixture in store ==>
            && s == SetRun(head + [Event("filterRead", [ConfigArg(config), ValueArg(Str(StripBom(store[Fixture]))), PathArg(Fixture)])],
                           [Fulfilled(Bool(true))], None))
      && (Fixture !in store ==> s == SetRun(head, [], Some(Undefined)))
  {
    var m := Fragment();
    var config := FixtureConfig;
    assert TypeOf(m) == Str(FILEREADER) && IterateFileOf(m) == VisitNothing && FilterReadOf(m) == FilterRead;
    assert Sources(One(Fixture)) == [Fixture];
    assert [Fixture][..0] == [];
    var step := VisitSource(m, store, config, Fixture);
    assert VisitSources(m, store, config, [Fixture]) == SetRun([] + step.events, if step.result.Returned? then [] + [step.result.value] else [],
                       if step.result.Thrown? then Some(step.result.reason) else None);
  }
}
