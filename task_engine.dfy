/** The task engine of lib/task.js.

    A task is an object built by merging member fragments; its hooks
    (parseConfig, setup, method, iterateFile, filterRead, filterWrite,
    teardown) are either supplied by a fragment or fall back to the engine's
    defaults. `run` drives parseConfig, setup, method and teardown; the default
    method walks `config.files`, destination by destination, reading and
    filtering every source in declared order and, for writer tasks, combining
    the results with filterWrite and writing them to the destination.

    Every hook call goes through a wrapper that first emits an event with the
    hook's name and arguments on the emitter shared by all tasks. Files live
    in an abstract store from path to decoded text.

    The pure functions below (FileSetRun, ProcessFilesRun, MethodRun, RunSpec)
    say what one call does: the events it emits, the store it leaves and its
    outcome. The methods of class Task do the same work step by step and are
    proved against them; the lemmas state what the engine promises. */
module TaskEngine {
  import opened Js

  type Path = string

  /** The task types the default `method` accepts. */
  const FILEITERATOR: string := "fileIterator"
  const FILEREADER: string := "fileReader"
  const FILEWRITER: string := "fileWriter"

  /** U+FEFF, the byte-order mark `readFile` strips from decoded text. */
  const BOM: char := '\U{FEFF}'

  /** One destination's configured sources: an array of paths, or a single
      path that the engine treats as a one-element list. */
  datatype FileSpec = Many(paths: seq<Path>) | One(path: Path)

  function Sources(input: FileSpec): seq<Path> {
    match input
    case Many(ps) => ps
    case One(p) => [p]
  }

  /** One key of `config.files`: a destination and its sources. */
  datatype FileGroup = FileGroup(dest: Path, input: FileSpec)

  /** A task config: the entries of `files` in key order (None when `files`
      is missing or falsy) and the `options` object (None when missing). */
  datatype Config = Config(files: Option<seq<FileGroup>>, options: Option<map<string, Value>>)

  /** An argument carried by an event. */
  datatype Arg =
    | ConfigArg(config: Config)
    | PathArg(path: Path)
    | InputArg(input: FileSpec)
    | ValueArg(value: Value)
    | ValuesArg(values: seq<Value>)

  /** One emitted event: its name and its arguments. */
  datatype Event = Event(name: string, args: seq<Arg>)

  /** What a hook call gives back: a value (or a promise fulfilled with it),
      an exception thrown synchronously, or a promise rejected with a reason. */
  datatype Completion = Fulfilled(value: Value) | Threw(reason: Value) | Rejected(reason: Value)

  /** A call that either returns or throws. */
  datatype Sync<T> = Returned(value: T) | Thrown(reason: Value)

  /** A hook a fragment supplies, by the shape of its arguments. */
  datatype Hook =
    | ParseConfigHook(parse: Config -> Sync<Config>)
    | LifecycleHook(call: Config -> Completion)
    | IterateFileHook(visit: (Config, Path) -> Completion)
    | FilterReadHook(filter: (Config, Value, Path) -> Completion)
    | FilterWriteHook(combine: (Config, seq<Value>, Path) -> Completion)

  /** A member of a task object: a plain value or a hook. */
  datatype Member = Data(value: Value) | Fn(hook: Hook)

  type Members = map<string, Member>

  // ---------------------------------------------------------------------
  // Task.create and init

  /** `_.extend({}, f1, ..., fn)`: the fragments copied left to right into a
      fresh object, a later fragment's key replacing an earlier one's. */
  function ExtendAll(fragments: seq<Members>): Members
    decreases |fragments|
  {
    if fragments == [] then map[]
    else ExtendAll(fragments[..|fragments| - 1]) + fragments[|fragments| - 1]
  }

  /** The merged task has exactly the keys of its fragments, and each key
      holds the value of the last fragment that has it. */
  lemma {:induction false} ExtendAllLastWins(fragments: seq<Members>, key: string)
    ensures key in ExtendAll(fragments) <==> exists i :: 0 <= i < |fragments| && key in fragments[i]
    ensures forall i :: 0 <= i < |fragments| && key in fragments[i] &&
                        (forall j :: i < j < |fragments| ==> key !in fragments[j]) ==>
                          ExtendAll(fragments)[key] == fragments[i][key]
    decreases |fragments|
  {
    if fragments != [] {
      var n := |fragments|;
      var init := fragments[..n - 1];
      var last := fragments[n - 1];
      ExtendAllLastWins(init, key);
      assert ExtendAll(fragments) == ExtendAll(init) + last;
      assert forall i :: 0 <= i < n - 1 ==> init[i] == fragments[i];
      if key in last {
        forall i | 0 <= i < n && key in fragments[i] && (forall j :: i < j < n ==> key !in fragments[j])
          ensures ExtendAll(fragments)[key] == fragments[i][key]
        {
          assert i == n - 1;
        }
      } else {
        forall i | 0 <= i < n && key in fragments[i] && (forall j :: i < j < n ==> key !in fragments[j])
          ensures ExtendAll(fragments)[key] == fragments[i][key]
        {
          assert i < n - 1;
          assert forall j :: i < j < n - 1 ==> key !in init[j];
        }
        if key in ExtendAll(fragments) {
          var i :| 0 <= i < n - 1 && key in init[i];
          assert key in fragments[i];
        }
      }
    }
  }

  // ---------------------------------------------------------------------
  // Default hooks and hook lookup

  /** The default parseConfig: the config unchanged. */
  function DefaultParseConfig(config: Config): Sync<Config> {
    Returned(config)
  }

  /** The default setup and teardown: they do nothing and return undefined. */
  function DoNothing(config: Config): Completion {
    Fulfilled(Undefined)
  }

  /** The default iterateFile: does nothing and returns undefined. */
  function VisitNothing(config: Config, path: Path): Completion {
    Fulfilled(Undefined)
  }

  /** The default filterRead: the content unchanged. */
  function DefaultFilterRead(config: Config, input: Value, path: Path): Completion {
    Fulfilled(input)
  }

  /** The default filterWrite: the contents joined with the empty separator. */
  function DefaultFilterWrite(config: Config, input: seq<Value>, path: Path): Completion {
    Fulfilled(Str(JoinWith(input, "")))
  }

  /** Calling a member that is not a function of the expected shape. */
  function NotAFunction(name: string): Value {
    TypeError("this." + name + " is not a function")
  }

  /** `this.type`: the task's type, Undefined when it has none. */
  function TypeOf(m: Members): Value {
    if "type" in m && m["type"].Data? then m["type"].value else Undefined
  }

  predicate IsFileType(t: Value) {
    t == Str(FILEWRITER) || t == Str(FILEREADER) || t == Str(FILEITERATOR)
  }

  function ParseConfigOf(m: Members): Config -> Sync<Config> {
    if "parseConfig" !in m then DefaultParseConfig
    else match m["parseConfig"]
      case Fn(ParseConfigHook(f)) => f
      case _ => (c: Config) => Thrown(NotAFunction("parseConfig"))
  }

  function LifecycleOf(m: Members, name: string): Config -> Completion {
    if name !in m then DoNothing
    else match m[name]
      case Fn(LifecycleHook(f)) => f
      case _ => (c: Config) => Threw(NotAFunction(name))
  }

  function SetupOf(m: Members): Config -> Completion {
    LifecycleOf(m, "setup")
  }

  function TeardownOf(m: Members): Config -> Completion {
    LifecycleOf(m, "teardown")
  }

  function IterateFileOf(m: Members): (Config, Path) -> Completion {
    if "iterateFile" !in m then VisitNothing
    else match m["iterateFile"]
      case Fn(IterateFileHook(f)) => f
      case _ => (c: Config, p: Path) => Threw(NotAFunction("iterateFile"))
  }

  function FilterReadOf(m: Members): (Config, Value, Path) -> Completion {
    if "filterRead" !in m then DefaultFilterRead
    else match m["filterRead"]
      case Fn(FilterReadHook(f)) => f
      case _ => (c: Config, v: Value, p: Path) => Threw(NotAFunction("filterRead"))
  }

  function FilterWriteOf(m: Members): (Config, seq<Value>, Path) -> Completion {
    if "filterWrite" !in m then DefaultFilterWrite
    else match m["filterWrite"]
      case Fn(FilterWriteHook(f)) => f
      case _ => (c: Config, vs: seq<Value>, p: Path) => Threw(NotAFunction("filterWrite"))
  }

  // ---------------------------------------------------------------------
  // readFile and writeFile over the abstract store

  /** Removes one leading byte-order mark, and no more, from decoded text. */
  function StripBom(text: string): (r: string)
    ensures text == [BOM] + r || (r == text && (text == [] || text[0] != BOM))
  {
    if text != [] && text[0] == BOM then text[1..] else text
  }

  /** The default readFile: the stored text with its BOM stripped. A missing
      file throws what `exception` returns, which is undefined. */
  function ReadFile(store: map<Path, string>, path: Path): Sync<Value> {
    if path in store then Returned(Str(StripBom(store[path]))) else Thrown(Undefined)
  }

  // ---------------------------------------------------------------------
  // Specification of processFileSet

  /** The events one step emitted and what it gave back. */
  datatype Step = Step(events: seq<Event>, result: Sync<Completion>)

  /** processFileSet's callback for one source: iterateFile, then (unless the
      task is an iterator) readFile and filterRead. iterateFile's own result
      is ignored unless it throws. */
  function VisitSource(m: Members, store: map<Path, string>, config: Config, p: Path): Step {
    var visited := Event("iterateFile", [ConfigArg(config), PathArg(p)]);
    match IterateFileOf(m)(config, p)
    case Threw(r) => Step([visited], Thrown(r))
    case _ =>
      if TypeOf(m) == Str(FILEITERATOR) then Step([visited], Returned(Fulfilled(Bool(true))))
      else
        var read := Event("readFile", [ConfigArg(config), PathArg(p)]);
        match ReadFile(store, p)
        case Thrown(r) => Step([visited, read], Thrown(r))
        case Returned(content) =>
          var filtered := Event("filterRead", [ConfigArg(config), ValueArg(content), PathArg(p)]);
          match FilterReadOf(m)(config, content, p)
          case Threw(r) => Step([visited, read, filtered], Thrown(r))
          case c => Step([visited, read, filtered], Returned(c))
  }

  /** The events, the entries so far and the exception that stopped the walk. */
  datatype SetRun = SetRun(events: seq<Event>, entries: seq<Completion>, thrown: Option<Value>)

  /** The map over the sources, stopped by the first exception. */
  function VisitSources(m: Members, store: map<Path, string>, config: Config, ps: seq<Path>): SetRun
    decreases |ps|
  {
    if ps == [] then SetRun([], [], None)
    else
      var prev := VisitSources(m, store, config, ps[..|ps| - 1]);
      if prev.thrown.Some? then prev
      else
        var step := VisitSource(m, store, config, ps[|ps| - 1]);
        match step.result
        case Thrown(r) => SetRun(prev.events + step.events, prev.entries, Some(r))
        case Returned(c) => SetRun(prev.events + step.events, prev.entries + [c], None)
  }

  /** processFileSet(config, input). */
  function FileSetRun(m: Members, store: map<Path, string>, config: Config, input: FileSpec): SetRun {
    var x := VisitSources(m, store, config, Sources(input));
    SetRun([Event("processFileSet", [ConfigArg(config), InputArg(input)])] + x.events, x.entries, x.thrown)
  }

  // ---------------------------------------------------------------------
  // Specification of processFiles

  /** The reason of the first rejected entry, in index order. */
  function FirstRejection(cs: seq<Completion>): Option<Value> {
    if cs == [] then None
    else if cs[0].Rejected? then Some(cs[0].reason)
    else FirstRejection(cs[1..])
  }

  /** The values of settled entries (an entry that is not fulfilled gives undefined). */
  function Values(cs: seq<Completion>): seq<Value> {
    seq(|cs|, i requires 0 <= i < |cs| => if cs[i].Fulfilled? then cs[i].value else Undefined)
  }

  /** What a chain of promise continuations did. */
  datatype Chain = Chain(events: seq<Event>, store: map<Path, string>, result: Completion)

  /** A writer destination's continuation: once all entries are settled,
      filterWrite over their values in index order, then writeFile. A rejected
      entry skips both. writeFile stores the text of filterWrite's result and
      returns true. */
  function WriterChain(m: Members, store: map<Path, string>, config: Config, entries: seq<Completion>, dest: Path): Chain {
    match FirstRejection(entries)
    case Some(r) => Chain([], store, Rejected(r))
    case None =>
      var contents := Values(entries);
      var combined := Event("filterWrite", [ConfigArg(config), ValuesArg(contents), PathArg(dest)]);
      match FilterWriteOf(m)(config, contents, dest)
      case Fulfilled(out) =>
        Chain([combined, Event("writeFile", [ConfigArg(config), ValueArg(out), PathArg(dest)])],
              store[dest := ToString(out)], Fulfilled(Bool(true)))
      case Threw(r) => Chain([combined], store, Rejected(r))
      case Rejected(r) => Chain([combined], store, Rejected(r))
  }

  /** What one destination did: its events, the store after it and either the
      exception processFileSet threw or the destination's completion. */
  datatype GroupRun = GroupRun(events: seq<Event>, store: map<Path, string>, outcome: Sync<Completion>)

  function ProcessGroup(m: Members, store: map<Path, string>, config: Config, g: FileGroup): GroupRun {
    var s := FileSetRun(m, store, config, g.input);
    if s.thrown.Some? then GroupRun(s.events, store, Thrown(s.thrown.value))
    else if TypeOf(m) != Str(FILEWRITER) then GroupRun(s.events, store, Returned(Fulfilled(Bool(true))))
    else
      var c := WriterChain(m, store, config, s.entries, g.dest);
      GroupRun(s.events + c.events, c.store, Returned(c.result))
  }

  datatype GroupsRun = GroupsRun(events: seq<Event>, store: map<Path, string>, results: seq<Completion>, thrown: Option<Value>)

  /** The map over the destinations in key order, stopped by the first exception. */
  function ProcessGroups(m: Members, store: map<Path, string>, config: Config, gs: seq<FileGroup>): GroupsRun
    decreases |gs|
  {
    if gs == [] then GroupsRun([], store, [], None)
    else
      var prev := ProcessGroups(m, store, config, gs[..|gs| - 1]);
      if prev.thrown.Some? then prev
      else
        var g := ProcessGroup(m, prev.store, config, gs[|gs| - 1]);
        match g.outcome
        case Thrown(r) => GroupsRun(prev.events + g.events, g.store, prev.results, Some(r))
        case Returned(c) => GroupsRun(prev.events + g.events, g.store, prev.results + [c], None)
  }

  /** The events, the store after the call and the call's completion. */
  datatype Exec = Exec(events: seq<Event>, store: map<Path, string>, outcome: Completion)

  /** processFiles(config): fails without `files`; otherwise the destinations'
      completions joined by `when.all`. */
  function ProcessFilesRun(m: Members, store: map<Path, string>, config: Config): Exec {
    var announced := Event("processFiles", [ConfigArg(config)]);
    if config.files.None? then Exec([announced], store, Threw(Error("Error", "No files to process.")))
    else
      var x := ProcessGroups(m, store, config, config.files.value);
      if x.thrown.Some? then Exec([announced] + x.events, x.store, Threw(x.thrown.value))
      else match FirstRejection(x.results)
        case Some(r) => Exec([announced] + x.events, x.store, Rejected(r))
        case None => Exec([announced] + x.events, x.store, Fulfilled(Arr(Values(x.results))))
  }

  // ---------------------------------------------------------------------
  // Specification of method and run

  /** The body of `method`: the fragment's own, or the file pipeline for the
      three file types; any other type throws what `exception` returns. */
  function MethodBody(m: Members, store: map<Path, string>, config: Config): Exec {
    if "method" in m then
      match m["method"]
      case Fn(LifecycleHook(f)) => Exec([], store, f(config))
      case _ => Exec([], store, Threw(NotAFunction("method")))
    else if IsFileType(TypeOf(m)) then ProcessFilesRun(m, store, config)
    else Exec([], store, Threw(Undefined))
  }

  /** `_method(config)`: the "method" event, then the body. */
  function MethodRun(m: Members, store: map<Path, string>, config: Config): Exec {
    var x := MethodBody(m, store, config);
    Exec([Event("method", [ConfigArg(config)])] + x.events, x.store, x.outcome)
  }

  /** How `run` ends: it throws before returning a promise, or its promise
      resolves or rejects. */
  datatype RunOutcome = ThrewSync(reason: Value) | Resolved(value: Value) | RunRejected(reason: Value)

  datatype RunResult = RunResult(events: seq<Event>, store: map<Path, string>, outcome: RunOutcome)

  /** run(config). parseConfig and setup are called before any promise
      exists, so an exception from either escapes `run`. A rejected setup or a
      failed method reaches `exception`, which returns nothing: teardown is
      skipped and the promise resolves to undefined. A failure of teardown is
      not handled. */
  function RunSpec(m: Members, store: map<Path, string>, config: Config): RunResult {
    var parsing := Event("parseConfig", [ConfigArg(config)]);
    match ParseConfigOf(m)(config)
    case Thrown(r) => RunResult([parsing], store, ThrewSync(r))
    case Returned(c) => After(parsing, ConfiguredRun(m, store, c))
  }

  /** A run with one more event in front. */
  function After(e: Event, x: RunResult): RunResult {
    RunResult([e] + x.events, x.store, x.outcome)
  }

  /** The rest of run(config) once parseConfig returned c: setup, then the
      method and teardown. */
  function ConfiguredRun(m: Members, store: map<Path, string>, c: Config): RunResult {
    var settingUp := Event("setup", [ConfigArg(c)]);
    match SetupOf(m)(c)
    case Threw(r) => RunResult([settingUp], store, ThrewSync(r))
    case Rejected(_) => RunResult([settingUp], store, Resolved(Undefined))
    case Fulfilled(_) => After(settingUp, Finish(m, c, MethodRun(m, store, c)))
  }

  /** The end of run(config) once the method settled as x: a failure resolves
      to undefined without teardown, success runs teardown. */
  function Finish(m: Members, c: Config, x: Exec): RunResult {
    if !x.outcome.Fulfilled? then RunResult(x.events, x.store, Resolved(Undefined))
    else
      var events := x.events + [Event("teardown", [ConfigArg(c)])];
      match TeardownOf(m)(c)
      case Fulfilled(v) => RunResult(events, x.store, Resolved(v))
      case Threw(r) => RunResult(events, x.store, RunRejected(r))
      case Rejected(r) => RunResult(events, x.store, RunRejected(r))
  }

  // ---------------------------------------------------------------------
  // The emitter, the file store and the task object

  /** The event emitter that every task shares. */
  class Emitter {
    var events: seq<Event>

    constructor ()
      ensures events == []
    {
      events := [];
    }

    method Emit(e: Event)
      modifies this
      ensures events == old(events) + [e]
    {
      events := events + [e];
    }
  }

  /** The files the tasks read and write, as decoded text. */
  class FileStore {
    var files: map<Path, string>

    constructor (files: map<Path, string>)
      ensures this.files == files
    {
      this.files := files;
    }

    method Write(path: Path, text: string)
      modifies this
      ensures files == old(files)[path := text]
    {
      files := files[path := text];
    }
  }

  class Task {
    var members: Members
    const emitter: Emitter
    const fs: FileStore

    /** new Task(config): the constructor applies the config through init. */
    constructor (config: Members, emitter: Emitter, fs: FileStore)
      ensures members == config && this.emitter == emitter && this.fs == fs
    {
      this.emitter := emitter;
      this.fs := fs;
      members := map[];
      new;
      Init(config);
    }

    /** init(config): every key of the config copied onto the task. */
    method Init(config: Members)
      modifies this
      ensures members == old(members) + config
    {
      members := members + config;
    }

    /** Task.create(f1, ..., fn): the fragments merged left to right into a
        fresh object, then a new task built from the merge. The fragments
        themselves are values and stay as they are. */
    static method Create(fragments: seq<Members>, emitter: Emitter, fs: FileStore) returns (t: Task)
      ensures fresh(t) && t.members == ExtendAll(fragments)
      ensures t.emitter == emitter && t.fs == fs
    {
      var merged: Members := map[];
      var i := 0;
      while i < |fragments|
        invariant 0 <= i <= |fragments|
        invariant merged == ExtendAll(fragments[..i])
      {
        assert fragments[..i + 1][..i] == fragments[..i];
        merged := merged + fragments[i];
        i := i + 1;
      }
      assert fragments[..i] == fragments;
      t := new Task(merged, emitter, fs);
    }

    // The wrappers: each emits its hook's event with the hook's arguments,
    // then calls the hook and returns its result unchanged.

    method CallParseConfig(config: Config) returns (r: Sync<Config>)
      modifies emitter
      ensures emitter.events == old(emitter.events) + [Event("parseConfig", [ConfigArg(config)])]
      ensures r == ParseConfigOf(members)(config)
    {
      emitter.Emit(Event("parseConfig", [ConfigArg(config)]));
      r := ParseConfigOf(members)(config);
    }

    method CallSetup(config: Config) returns (r: Completion)
      modifies emitter
      ensures emitter.events == old(emitter.events) + [Event("setup", [ConfigArg(config)])]
      ensures r == SetupOf(members)(config)
    {
      emitter.Emit(Event("setup", [ConfigArg(config)]));
      r := SetupOf(members)(config);
    }

    method CallTeardown(config: Config) returns (r: Completion)
      modifies emitter
      ensures emitter.events == old(emitter.events) + [Event("teardown", [ConfigArg(config)])]
      ensures r == TeardownOf(members)(config)
    {
      emitter.Emit(Event("teardown", [ConfigArg(config)]));
      r := TeardownOf(members)(config);
    }

    method CallIterateFile(config: Config, path: Path) returns (r: Completion)
      modifies emitter
      ensures emitter.events == old(emitter.events) + [Event("iterateFile", [ConfigArg(config), PathArg(path)])]
      ensures r == IterateFileOf(members)(config, path)
    {
      emitter.Emit(Event("iterateFile", [ConfigArg(config), PathArg(path)]));
      r := IterateFileOf(members)(config, path);
    }

    method CallReadFile(config: Config, path: Path) returns (r: Sync<Value>)
      modifies emitter
      ensures emitter.events == old(emitter.events) + [Event("readFile", [ConfigArg(config), PathArg(path)])]
      ensures r == ReadFile(fs.files, path)
    {
      emitter.Emit(Event("readFile", [ConfigArg(config), PathArg(path)]));
      if path in fs.files {
        r := Returned(Str(StripBom(fs.files[path])));
      } else {
        r := Thrown(Undefined);
      }
    }

    method CallFilterRead(config: Config, input: Value, path: Path) returns (r: Completion)
      modifies emitter
      ensures emitter.events == old(emitter.events) + [Event("filterRead", [ConfigArg(config), ValueArg(input), PathArg(path)])]
      ensures r == FilterReadOf(members)(config, input, path)
    {
      emitter.Emit(Event("filterRead", [ConfigArg(config), ValueArg(input), PathArg(path)]));
      r := FilterReadOf(members)(config, input, path);
    }

    method CallFilterWrite(config: Config, input: seq<Value>, path: Path) returns (r: Completion)
      modifies emitter
      ensures emitter.events == old(emitter.events) + [Event("filterWrite", [ConfigArg(config), ValuesArg(input), PathArg(path)])]
      ensures r == FilterWriteOf(members)(config, input, path)
    {
      emitter.Emit(Event("filterWrite", [ConfigArg(config), ValuesArg(input), PathArg(path)]));
      r := FilterWriteOf(members)(config, input, path);
    }

    method CallWriteFile(config: Config, input: Value, path: Path) returns (r: Completion)
      modifies emitter, fs
      ensures emitter.events == old(emitter.events) + [Event("writeFile", [ConfigArg(config), ValueArg(input), PathArg(path)])]
      ensures fs.files == old(fs.files)[path := ToString(input)]
      ensures r == Fulfilled(Bool(true))
    {
      emitter.Emit(Event("writeFile", [ConfigArg(config), ValueArg(input), PathArg(path)]));
      fs.Write(path, ToString(input));
      r := Fulfilled(Bool(true));
    }

    /** processFileSet's callback for one source. */
    method ProcessSource(config: Config, path: Path) returns (r: Sync<Completion>)
      modifies emitter
      ensures var step := VisitSource(members, fs.files, config, path);
        emitter.events == old(emitter.events) + step.events && r == step.result
    {
      var visited := CallIterateFile(config, path);
      if visited.Threw? {
        return Thrown(visited.reason);
      }
      if TypeOf(members) == Str(FILEITERATOR) {
        return Returned(Fulfilled(Bool(true)));
      }
      var content := CallReadFile(config, path);
      if content.Thrown? {
        return Thrown(content.reason);
      }
      var filtered := CallFilterRead(config, content.value, path);
      if filtered.Threw? {
        r := Thrown(filtered.reason);
      } else {
        r := Returned(filtered);
      }
    }

    /** processFileSet(config, input): one entry per source, in order. */
    method ProcessFileSet(config: Config, input: FileSpec) returns (entries: seq<Completion>, thrown: Option<Value>)
      modifies emitter
      ensures var x := FileSetRun(members, fs.files, config, input);
        emitter.events == old(emitter.events) + x.events && entries == x.entries && thrown == x.thrown
    {
      emitter.Emit(Event("processFileSet", [ConfigArg(config), InputArg(input)]));
      ghost var start := emitter.events;
      var ps := Sources(input);
      entries, thrown := [], None;
      var i := 0;
      while i < |ps| && thrown.None?
        invariant 0 <= i <= |ps|
        invariant var x := VisitSources(members, fs.files, config, ps[..i]);
          emitter.events == start + x.events && entries == x.entries && thrown == x.thrown
      {
        assert ps[..i + 1][..i] == ps[..i];
        ghost var prev := VisitSources(members, fs.files, config, ps[..i]);
        ghost var step := VisitSource(members, fs.files, config, ps[i]);
        AppendAssoc(start, prev.events, step.events);
        var r := ProcessSource(config, ps[i]);
        match r {
          case Thrown(reason) => thrown := Some(reason);
          case Returned(c) => entries := entries + [c];
        }
        i := i + 1;
      }
      VisitSourcesStops(members, fs.files, config, ps, i);
      AppendAssoc(old(emitter.events), [Event("processFileSet", [ConfigArg(config), InputArg(input)])], VisitSources(members, fs.files, config, ps).events);
    }

    /** The continuation of a writer destination once its entries are settled. */
    method WriteGroup(config: Config, entries: seq<Completion>, dest: Path) returns (r: Completion)
      modifies emitter, fs
      ensures var c := WriterChain(members, old(fs.files), config, entries, dest);
        emitter.events == old(emitter.events) + c.events && fs.files == c.store && r == c.result
    {
      var rejection := FirstRejection(entries);
      if rejection.Some? {
        r := Rejected(rejection.value);
        return;
      }
      var combined := CallFilterWrite(config, Values(entries), dest);
      match combined {
        case Fulfilled(out) =>
          r := CallWriteFile(config, out, dest);
        case Threw(reason) =>
          r := Rejected(reason);
        case Rejected(reason) =>
          r := Rejected(reason);
      }
    }

    /** processFiles' callback for one destination: its file set, then for a
        writer its continuation; any other type gives true. */
    method ProcessDestination(config: Config, g: FileGroup) returns (outcome: Sync<Completion>)
      modifies emitter, fs
      ensures var x := ProcessGroup(members, old(fs.files), config, g);
        emitter.events == old(emitter.events) + x.events && fs.files == x.store && outcome == x.outcome
    {
      var entries, failed := ProcessFileSet(config, g.input);
      if failed.Some? {
        outcome := Thrown(failed.value);
      } else if TypeOf(members) != Str(FILEWRITER) {
        outcome := Returned(Fulfilled(Bool(true)));
      } else {
        var c := WriteGroup(config, entries, g.dest);
        outcome := Returned(c);
      }
    }

    /** The map of processFiles over the destinations, in key order. */
    method ProcessGroupList(config: Config, groups: seq<FileGroup>) returns (results: seq<Completion>, thrown: Option<Value>)
      modifies emitter, fs
      ensures var x := ProcessGroups(members, old(fs.files), config, groups);
        emitter.events == old(emitter.events) + x.events && fs.files == x.store && results == x.results && thrown == x.thrown
    {
      results, thrown := [], None;
      var i := 0;
      while i < |groups| && thrown.None?
        invariant 0 <= i <= |groups|
        invariant var x := ProcessGroups(members, old(fs.files), config, groups[..i]);
          emitter.events == old(emitter.events) + x.events && fs.files == x.store && results == x.results && thrown == x.thrown
      {
        ProcessGroupsNext(members, old(fs.files), config, groups, i);
        ghost var prev := ProcessGroups(members, old(fs.files), config, groups[..i]);
        ghost var g := ProcessGroup(members, prev.store, config, groups[i]);
        AppendAssoc(old(emitter.events), prev.events, g.events);
        var outcome := ProcessDestination(config, groups[i]);
        match outcome {
          case Thrown(reason) => thrown := Some(reason);
          case Returned(c) => results := results + [c];
        }
        i := i + 1;
      }
      ProcessGroupsStops(members, old(fs.files), config, groups, i);
    }

    /** processFiles(config): every destination in key order, then the
        destinations' completions joined as `when.all` joins them. */
    method ProcessFiles(config: Config) returns (r: Completion)
      modifies emitter, fs
      ensures var x := ProcessFilesRun(members, old(fs.files), config);
        emitter.events == old(emitter.events) + x.events && fs.files == x.store && r == x.outcome
    {
      emitter.Emit(Event("processFiles", [ConfigArg(config)]));
      if config.files.None? {
        r := Threw(Error("Error", "No files to process."));
        return;
      }
      AppendAssoc(old(emitter.events), [Event("processFiles", [ConfigArg(config)])], ProcessGroups(members, fs.files, config, config.files.value).events);
      var results, thrown := ProcessGroupList(config, config.files.value);
      if thrown.Some? {
        r := Threw(thrown.value);
      } else {
        var rejection := FirstRejection(results);
        if rejection.Some? {
          r := Rejected(rejection.value);
        } else {
          r := Fulfilled(Arr(Values(results)));
        }
      }
    }

    /** _method(config): the "method" event, then the task's method. */
    method CallMethod(config: Config) returns (r: Completion)
      modifies emitter, fs
      ensures var x := MethodRun(members, old(fs.files), config);
        emitter.events == old(emitter.events) + x.events && fs.files == x.store && r == x.outcome
    {
      emitter.Emit(Event("method", [ConfigArg(config)]));
      AppendAssoc(old(emitter.events), [Event("method", [ConfigArg(config)])], MethodBody(members, fs.files, config).events);
      if "method" in members {
        match members["method"] {
          case Fn(LifecycleHook(f)) => r := f(config);
          case _ => r := Threw(NotAFunction("method"));
        }
      } else if IsFileType(TypeOf(members)) {
        r := ProcessFiles(config);
      } else {
        r := Threw(Undefined);
      }
    }

    /** run(config). */
    method Run(config: Config) returns (r: RunOutcome)
      modifies emitter, fs
      ensures var x := RunSpec(members, old(fs.files), config);
        emitter.events == old(emitter.events) + x.events && fs.files == x.store && r == x.outcome
    {
      var parsed := CallParseConfig(config);
      if parsed.Thrown? {
        return ThrewSync(parsed.reason);
      }
      AppendAssoc(old(emitter.events), [Event("parseConfig", [ConfigArg(config)])], ConfiguredRun(members, fs.files, parsed.value).events);
      r := RunConfigured(parsed.value);
    }

    /** run's work once parseConfig returned c: setup, then the rest. */
    method RunConfigured(c: Config) returns (r: RunOutcome)
      modifies emitter, fs
      ensures var x := ConfiguredRun(members, old(fs.files), c);
        emitter.events == old(emitter.events) + x.events && fs.files == x.store && r == x.outcome
    {
      var setUp := CallSetup(c);
      if setUp.Threw? {
        return ThrewSync(setUp.reason);
      } else if setUp.Rejected? {
        return Resolved(Undefined);
      }
      AppendAssoc(old(emitter.events), [Event("setup", [ConfigArg(c)])], Finish(members, c, MethodRun(members, fs.files, c)).events);
      r := RunMethod(c);
    }

    /** run's work once setup fulfilled: the method, then teardown when the
        method succeeded. */
    method RunMethod(c: Config) returns (r: RunOutcome)
      modifies emitter, fs
      ensures var x := Finish(members, c, MethodRun(members, old(fs.files), c));
        emitter.events == old(emitter.events) + x.events && fs.files == x.store && r == x.outcome
    {
      var done := CallMethod(c);
      if !done.Fulfilled? {
        return Resolved(Undefined);
      }
      AppendAssoc(old(emitter.events), MethodRun(members, old(fs.files), c).events, [Event("teardown", [ConfigArg(c)])]);
      var tornDown := CallTeardown(c);
      match tornDown {
        case Fulfilled(v) => r := Resolved(v);
        case Threw(reason) => r := RunRejected(reason);
        case Rejected(reason) => r := RunRejected(reason);
      }
    }
  }

  // ---------------------------------------------------------------------
  // Stopping the walks

  /** Appending is associative; stated once so that the methods that extend
      the event log need not rediscover it. */
  lemma AppendAssoc<T>(a: seq<T>, b: seq<T>, c: seq<T>)
    ensures a + b + c == a + (b + c)
  {
  }

  lemma {:induction false} VisitSourcesStops(m: Members, store: map<Path, string>, config: Config, ps: seq<Path>, i: nat)
    requires i <= |ps|
    requires i == |ps| || VisitSources(m, store, config, ps[..i]).thrown.Some?
    ensures VisitSources(m, store, config, ps) == VisitSources(m, store, config, ps[..i])
    decreases |ps| - i
  {
    if i < |ps| {
      assert ps[..i + 1][..i] == ps[..i];
      VisitSourcesStops(m, store, config, ps, i + 1);
    } else {
      assert ps[..i] == ps;
    }
  }

  lemma ProcessGroupsNext(m: Members, store: map<Path, string>, config: Config, gs: seq<FileGroup>, i: nat)
    requires i < |gs|
    requires ProcessGroups(m, store, config, gs[..i]).thrown.None?
    ensures var prev := ProcessGroups(m, store, config, gs[..i]);
      var g := ProcessGroup(m, prev.store, config, gs[i]);
      ProcessGroups(m, store, config, gs[..i + 1]) ==
        match g.outcome
        case Thrown(r) => GroupsRun(prev.events + g.events, g.store, prev.results, Some(r))
        case Returned(c) => GroupsRun(prev.events + g.events, g.store, prev.results + [c], None)
  {
    assert gs[..i + 1][..i] == gs[..i];
  }

  lemma {:induction false} ProcessGroupsStops(m: Members, store: map<Path, string>, config: Config, gs: seq<FileGroup>, i: nat)
    requires i <= |gs|
    requires i == |gs| || ProcessGroups(m, store, config, gs[..i]).thrown.Some?
    ensures ProcessGroups(m, store, config, gs) == ProcessGroups(m, store, config, gs[..i])
    decreases |gs| - i
  {
    if i < |gs| {
      assert gs[..i + 1][..i] == gs[..i];
      ProcessGroupsStops(m, store, config, gs, i + 1);
    } else {
      assert gs[..i] == gs;
    }
  }
}
