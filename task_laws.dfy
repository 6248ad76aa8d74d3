/** What the task engine of lib/task.js promises, stated over the functions
    that specify its calls: the order of hook calls, one entry per source,
    the behaviour of each task type, the default hooks and the failure
    rules of `run`. */
module TaskLaws {
  import opened Js
  import opened TaskEngine

  // ---------------------------------------------------------------------
  // Looking at a trace

  /** The events of `events` whose name is in `names`, in order. */
  function Only(events: seq<Event>, names: set<string>): seq<Event>
    decreases |events|
  {
    if events == [] then []
    else
      var last := events[|events| - 1];
      Only(events[..|events| - 1], names) + (if last.name in names then [last] else [])
  }

  predicate NamesWithin(events: seq<Event>, names: set<string>) {
    forall i :: 0 <= i < |events| ==> events[i].name in names
  }

  lemma {:induction false} OnlyAppend(a: seq<Event>, b: seq<Event>, names: set<string>)
    ensures Only(a + b, names) == Only(a, names) + Only(b, names)
    decreases |b|
  {
    if b != [] {
      assert (a + b)[..|a + b| - 1] == a + b[..|b| - 1];
      OnlyAppend(a, b[..|b| - 1], names);
    } else {
      assert a + b == a;
    }
  }

  lemma {:induction false} OnlyNone(events: seq<Event>, names: set<string>, within: set<string>)
    requires NamesWithin(events, within)
    requires names * within == {}
    ensures Only(events, names) == []
    decreases |events|
  {
    if events != [] {
      var last := events[|events| - 1];
      assert last.name in within;
      assert last.name !in names * within;
      OnlyNone(events[..|events| - 1], names, within);
      assert Only(events, names) == Only(events[..|events| - 1], names) + [];
    }
  }

  lemma OnlySingle(e: Event, names: set<string>)
    ensures Only([e], names) == if e.name in names then [e] else []
  {
    assert [e][..0] == [];
  }

  lemma NamesWithinAppend(a: seq<Event>, b: seq<Event>, names: set<string>)
    requires NamesWithin(a, names) && NamesWithin(b, names)
    ensures NamesWithin(a + b, names)
  {
    forall i | 0 <= i < |a + b| ensures (a + b)[i].name in names {
      if i >= |a| {
        assert (a + b)[i] == b[i - |a|];
      }
    }
  }

  /** The names of the events the file pipeline emits. */
  const FileEvents: set<string> :=
    {"processFiles", "processFileSet", "iterateFile", "readFile", "filterRead", "filterWrite", "writeFile"}

  /** The names of the events `run` emits for its own steps. */
  const LifecycleEvents: set<string> := {"parseConfig", "setup", "method", "teardown"}

  // ---------------------------------------------------------------------
  // processFileSet

  /** A source on which nothing throws: iterateFile does not throw and,
      unless the task is an iterator, the file exists and filterRead does not
      throw (it may still reject). */
  predicate SourceCompletes(m: Members, store: map<Path, string>, config: Config, p: Path) {
    && !IterateFileOf(m)(config, p).Threw?
    && (TypeOf(m) != Str(FILEITERATOR) ==>
          p in store && !FilterReadOf(m)(config, Str(StripBom(store[p])), p).Threw?)
  }

  /** The entry processFileSet yields for source `p`: true for an iterator,
      otherwise filterRead applied to the file's text without its BOM. */
  predicate EntryFor(m: Members, store: map<Path, string>, config: Config, p: Path, e: Completion) {
    if TypeOf(m) == Str(FILEITERATOR) then e == Fulfilled(Bool(true))
    else p in store && e == FilterReadOf(m)(config, Str(StripBom(store[p])), p)
  }

  /** The iterateFile events of a walk over `ps`. */
  function IterateEvents(config: Config, ps: seq<Path>): seq<Event> {
    seq(|ps|, i requires 0 <= i < |ps| => Event("iterateFile", [ConfigArg(config), PathArg(ps[i])]))
  }

  /** The names a task of type `t` may emit while walking its sources. */
  function VisitNames(t: Value): set<string> {
    if t == Str(FILEITERATOR) then {"iterateFile"} else {"iterateFile", "readFile", "filterRead"}
  }

  lemma VisitSourceLaws(m: Members, store: map<Path, string>, config: Config, p: Path)
    ensures var step := VisitSource(m, store, config, p);
      && NamesWithin(step.events, VisitNames(TypeOf(m)))
      && |step.events| > 0 && step.events[0] == Event("iterateFile", [ConfigArg(config), PathArg(p)])
      && (step.result.Returned? ==> EntryFor(m, store, config, p, step.result.value))
      && (SourceCompletes(m, store, config, p) <==> step.result.Returned?)
  {
  }

  lemma OnlyIterate(m: Members, store: map<Path, string>, config: Config, p: Path)
    ensures Only(VisitSource(m, store, config, p).events, {"iterateFile"}) == [Event("iterateFile", [ConfigArg(config), PathArg(p)])]
  {
    var step := VisitSource(m, store, config, p);
    VisitSourceLaws(m, store, config, p);
    var rest := step.events[1..];
    assert step.events == [step.events[0]] + rest;
    assert NamesWithin(rest, VisitNames(TypeOf(m)) - {"iterateFile"}) by {
      assert NamesWithin(step.events, VisitNames(TypeOf(m)));
      forall i | 0 <= i < |rest| ensures rest[i].name in VisitNames(TypeOf(m)) - {"iterateFile"} {
        assert rest[i] == step.events[i + 1];
      }
    }
    OnlyNone(rest, {"iterateFile"}, VisitNames(TypeOf(m)) - {"iterateFile"});
    OnlyAppend([step.events[0]], rest, {"iterateFile"});
    assert Only([step.events[0]], {"iterateFile"}) == [step.events[0]] by {
      assert [step.events[0]][..0] == [];
    }
  }

  lemma {:induction false} VisitSourcesNames(m: Members, store: map<Path, string>, config: Config, ps: seq<Path>)
    ensures NamesWithin(VisitSources(m, store, config, ps).events, VisitNames(TypeOf(m)))
    decreases |ps|
  {
    if ps != [] {
      var init := ps[..|ps| - 1];
      VisitSourcesNames(m, store, config, init);
      VisitSourceLaws(m, store, config, ps[|ps| - 1]);
      var prev := VisitSources(m, store, config, init);
      if prev.thrown.None? {
        NamesWithinAppend(prev.events, VisitSource(m, store, config, ps[|ps| - 1]).events, VisitNames(TypeOf(m)));
      }
    }
  }

  /** The walk throws exactly when some source does not complete. */
  lemma {:induction false} VisitSourcesThrown(m: Members, store: map<Path, string>, config: Config, ps: seq<Path>)
    ensures (forall i :: 0 <= i < |ps| ==> SourceCompletes(m, store, config, ps[i])) <==>
            VisitSources(m, store, config, ps).thrown.None?
    decreases |ps|
  {
    if ps != [] {
      var n := |ps|;
      var init := ps[..n - 1];
      VisitSourcesThrown(m, store, config, init);
      VisitSourceLaws(m, store, config, ps[n - 1]);
      assert forall i :: 0 <= i < n - 1 ==> init[i] == ps[i];
      if VisitSources(m, store, config, init).thrown.Some? {
        var k :| 0 <= k < n - 1 && !SourceCompletes(m, store, config, init[k]);
        assert !SourceCompletes(m, store, config, ps[k]);
      }
    }
  }

  /** A walk that does not throw went through every source: it is the walk
      over all but the last source, followed by the last source's step. */
  lemma VisitSourcesLast(m: Members, store: map<Path, string>, config: Config, ps: seq<Path>)
    requires ps != [] && VisitSources(m, store, config, ps).thrown.None?
    ensures var prev := VisitSources(m, store, config, ps[..|ps| - 1]);
      var step := VisitSource(m, store, config, ps[|ps| - 1]);
      && prev.thrown.None? && step.result.Returned?
      && VisitSources(m, store, config, ps) == SetRun(prev.events + step.events, prev.entries + [step.result.value], None)
  {
  }

  lemma IterateEventsLast(config: Config, ps: seq<Path>)
    requires ps != []
    ensures IterateEvents(config, ps) ==
      IterateEvents(config, ps[..|ps| - 1]) + [Event("iterateFile", [ConfigArg(config), PathArg(ps[|ps| - 1])])]
  {
  }

  /** A walk that does not throw has one entry per source, each the source's
      own. */
  lemma {:induction false} VisitSourcesEntries(m: Members, store: map<Path, string>, config: Config, ps: seq<Path>)
    requires VisitSources(m, store, config, ps).thrown.None?
    ensures var x := VisitSources(m, store, config, ps);
      && |x.entries| == |ps|
      && (forall i :: 0 <= i < |ps| ==> EntryFor(m, store, config, ps[i], x.entries[i]))
    decreases |ps|
  {
    if ps != [] {
      var n := |ps|;
      var init := ps[..n - 1];
      var prev := VisitSources(m, store, config, init);
      var step := VisitSource(m, store, config, ps[n - 1]);
      VisitSourcesLast(m, store, config, ps);
      VisitSourcesEntries(m, store, config, init);
      VisitSourceLaws(m, store, config, ps[n - 1]);
      var entries := prev.entries + [step.result.value];
      forall i | 0 <= i < n ensures EntryFor(m, store, config, ps[i], entries[i]) {
        if i < n - 1 {
          assert init[i] == ps[i] && entries[i] == prev.entries[i];
        }
      }
    }
  }

  /** A walk that does not throw calls iterateFile once per source, in order. */
  lemma {:induction false} VisitSourcesIterates(m: Members, store: map<Path, string>, config: Config, ps: seq<Path>)
    requires VisitSources(m, store, config, ps).thrown.None?
    ensures Only(VisitSources(m, store, config, ps).events, {"iterateFile"}) == IterateEvents(config, ps)
    decreases |ps|
  {
    if ps != [] {
      var init := ps[..|ps| - 1];
      var prev := VisitSources(m, store, config, init);
      var step := VisitSource(m, store, config, ps[|ps| - 1]);
      VisitSourcesLast(m, store, config, ps);
      VisitSourcesIterates(m, store, config, init);
      OnlyAppend(prev.events, step.events, {"iterateFile"});
      OnlyIterate(m, store, config, ps[|ps| - 1]);
      IterateEventsLast(config, ps);
    }
  }

  lemma VisitSourcesLaws(m: Members, store: map<Path, string>, config: Config, ps: seq<Path>)
    ensures var x := VisitSources(m, store, config, ps);
      && NamesWithin(x.events, VisitNames(TypeOf(m)))
      && ((forall i :: 0 <= i < |ps| ==> SourceCompletes(m, store, config, ps[i])) <==> x.thrown.None?)
      && (x.thrown.None? ==>
            && |x.entries| == |ps|
            && (forall i :: 0 <= i < |ps| ==> EntryFor(m, store, config, ps[i], x.entries[i]))
            && Only(x.events, {"iterateFile"}) == IterateEvents(config, ps))
  {
    VisitSourcesNames(m, store, config, ps);
    VisitSourcesThrown(m, store, config, ps);
    if VisitSources(m, store, config, ps).thrown.None? {
      VisitSourcesEntries(m, store, config, ps);
      VisitSourcesIterates(m, store, config, ps);
    }
  }

  /** processFileSet(config, input) over the sources of `input` (a single path
      being a one-element list): iterateFile is called once per source in
      declared order whatever the task type; an iterator never reads nor
      filters; and when nothing fails there is exactly one entry per source,
      in declared order: true for an iterator, otherwise the filterRead result
      of the file's text without its BOM. */
  lemma FileSetLaws(m: Members, store: map<Path, string>, config: Config, input: FileSpec)
    ensures var x := FileSetRun(m, store, config, input); var ps := Sources(input);
      && x.events[0] == Event("processFileSet", [ConfigArg(config), InputArg(input)])
      && (TypeOf(m) == Str(FILEITERATOR) ==> Only(x.events, {"readFile", "filterRead"}) == [])
      && ((forall i :: 0 <= i < |ps| ==> SourceCompletes(m, store, config, ps[i])) <==> x.thrown.None?)
      && (x.thrown.None? ==>
            && |x.entries| == |ps|
            && (forall i :: 0 <= i < |ps| ==> EntryFor(m, store, config, ps[i], x.entries[i]))
            && Only(x.events, {"iterateFile"}) == IterateEvents(config, ps))
  {
    var ps := Sources(input);
    var v := VisitSources(m, store, config, ps);
    var head := Event("processFileSet", [ConfigArg(config), InputArg(input)]);
    VisitSourcesLaws(m, store, config, ps);
    OnlyAppend([head], v.events, {"iterateFile"});
    OnlyAppend([head], v.events, {"readFile", "filterRead"});
    assert [head][..0] == [];
    if TypeOf(m) == Str(FILEITERATOR) {
      OnlyNone(v.events, {"readFile", "filterRead"}, {"iterateFile"});
    }
  }

  /** The names the walk over one destination's sources can emit. */
  lemma FileSetNames(m: Members, store: map<Path, string>, config: Config, input: FileSpec)
    ensures NamesWithin(FileSetRun(m, store, config, input).events, {"processFileSet", "iterateFile", "readFile", "filterRead"})
  {
    var v := VisitSources(m, store, config, Sources(input));
    VisitSourcesLaws(m, store, config, Sources(input));
    assert NamesWithin(v.events, {"processFileSet", "iterateFile", "readFile", "filterRead"});
    NamesWithinAppend([Event("processFileSet", [ConfigArg(config), InputArg(input)])], v.events,
                      {"processFileSet", "iterateFile", "readFile", "filterRead"});
  }

  // ---------------------------------------------------------------------
  // One destination of a writer task

  lemma FirstRejectionNone(cs: seq<Completion>)
    ensures FirstRejection(cs).None? <==> forall i :: 0 <= i < |cs| ==> !cs[i].Rejected?
  {
    if cs != [] {
      FirstRejectionNone(cs[1..]);
      assert forall i :: 1 <= i < |cs| ==> cs[i] == cs[1..][i - 1];
    }
  }

  /** A writer's continuation once no entry is rejected: one filterWrite
      over the entries' values, then, if it fulfils, one writeFile storing
      its text under the destination. */
  lemma WriterChainLaws(m: Members, store: map<Path, string>, config: Config, entries: seq<Completion>, dest: Path)
    requires FirstRejection(entries).None?
    ensures var c := WriterChain(m, store, config, entries, dest); var contents := Values(entries);
      && Only(c.events, {"filterWrite"}) == [Event("filterWrite", [ConfigArg(config), ValuesArg(contents), PathArg(dest)])]
      && (match FilterWriteOf(m)(config, contents, dest)
          case Fulfilled(out) =>
            && c.store == store[dest := ToString(out)]
            && Only(c.events, {"writeFile"}) == [Event("writeFile", [ConfigArg(config), ValueArg(out), PathArg(dest)])]
            && c.result == Fulfilled(Bool(true))
          case _ =>
            && c.store == store
            && Only(c.events, {"writeFile"}) == []
            && c.result.Rejected?)
  {
    var contents := Values(entries);
    var c := WriterChain(m, store, config, entries, dest);
    var r := FilterWriteOf(m)(config, contents, dest);
    var fw := Event("filterWrite", [ConfigArg(config), ValuesArg(contents), PathArg(dest)]);
    OnlySingle(fw, {"filterWrite"});
    OnlySingle(fw, {"writeFile"});
    if r.Fulfilled? {
      var wf := Event("writeFile", [ConfigArg(config), ValueArg(r.value), PathArg(dest)]);
      assert c.events == [fw] + [wf];
      OnlySingle(wf, {"filterWrite"});
      OnlySingle(wf, {"writeFile"});
      OnlyAppend([fw], [wf], {"filterWrite"});
      OnlyAppend([fw], [wf], {"writeFile"});
    } else {
      assert c.events == [fw];
    }
  }

  /** A source a writer can read: it completes and filterRead fulfils. */
  predicate SourceReads(m: Members, store: map<Path, string>, config: Config, p: Path) {
    && SourceCompletes(m, store, config, p)
    && p in store && FilterReadOf(m)(config, Str(StripBom(store[p])), p).Fulfilled?
  }

  /** The walk over a writer destination whose sources are all read: it does
      not throw, rejects nothing, and its values are the filterRead results
      in declared source order. */
  lemma WriterReads(m: Members, store: map<Path, string>, config: Config, g: FileGroup)
    requires TypeOf(m) == Str(FILEWRITER)
    requires forall i :: 0 <= i < |Sources(g.input)| ==> SourceReads(m, store, config, Sources(g.input)[i])
    ensures var ps := Sources(g.input); var s := FileSetRun(m, store, config, g.input); var contents := Values(s.entries);
      && s.thrown.None? && FirstRejection(s.entries).None?
      && NamesWithin(s.events, {"processFileSet", "iterateFile", "readFile", "filterRead"})
      && |contents| == |ps|
      && (forall i :: 0 <= i < |ps| ==>
            ps[i] in store && FilterReadOf(m)(config, Str(StripBom(store[ps[i]])), ps[i]) == Fulfilled(contents[i]))
  {
    var ps := Sources(g.input);
    var s := FileSetRun(m, store, config, g.input);
    FileSetLaws(m, store, config, g.input);
    FileSetNames(m, store, config, g.input);
    assert s.thrown.None?;
    forall i | 0 <= i < |ps|
      ensures s.entries[i].Fulfilled? && ps[i] in store && FilterReadOf(m)(config, Str(StripBom(store[ps[i]])), ps[i]) == s.entries[i]
    {
      assert EntryFor(m, store, config, ps[i], s.entries[i]);
      assert SourceReads(m, store, config, ps[i]);
    }
    FirstRejectionNone(s.entries);
  }

  /** For a writer destination whose sources are all read: filterWrite is
      called once, with the filterRead results in declared source order (not
      completion order), and then writeFile is called once with filterWrite's
      result and the destination, which the store then holds; a failing
      filterWrite rejects the destination and nothing is written. */
  lemma WriterDestination(m: Members, store: map<Path, string>, config: Config, g: FileGroup)
    requires TypeOf(m) == Str(FILEWRITER)
    requires forall i :: 0 <= i < |Sources(g.input)| ==> SourceReads(m, store, config, Sources(g.input)[i])
    ensures var ps := Sources(g.input);
      var contents := Values(FileSetRun(m, store, config, g.input).entries);
      var x := ProcessGroup(m, store, config, g);
      && |contents| == |ps|
      && (forall i :: 0 <= i < |ps| ==>
            ps[i] in store && FilterReadOf(m)(config, Str(StripBom(store[ps[i]])), ps[i]) == Fulfilled(contents[i]))
      && Only(x.events, {"filterWrite"}) == [Event("filterWrite", [ConfigArg(config), ValuesArg(contents), PathArg(g.dest)])]
      && (match FilterWriteOf(m)(config, contents, g.dest)
          case Fulfilled(out) =>
            && x.store == store[g.dest := ToString(out)]
            && Only(x.events, {"writeFile"}) == [Event("writeFile", [ConfigArg(config), ValueArg(out), PathArg(g.dest)])]
            && x.outcome == Returned(Fulfilled(Bool(true)))
          case _ =>
            && x.store == store
            && Only(x.events, {"writeFile"}) == []
            && x.outcome.Returned? && x.outcome.value.Rejected?)
  {
    var s := FileSetRun(m, store, config, g.input);
    WriterReads(m, store, config, g);
    var c := WriterChain(m, store, config, s.entries, g.dest);
    WriterChainLaws(m, store, config, s.entries, g.dest);
    ReadsBeforeWrites(s.events, c.events);
    WriterGroupShape(m, store, config, g);
  }

  /** A writer destination whose file set did not throw is its file set
      followed by the writer continuation. */
  lemma WriterGroupShape(m: Members, store: map<Path, string>, config: Config, g: FileGroup)
    requires TypeOf(m) == Str(FILEWRITER) && FileSetRun(m, store, config, g.input).thrown.None?
    ensures var s := FileSetRun(m, store, config, g.input);
      var c := WriterChain(m, store, config, s.entries, g.dest);
      ProcessGroup(m, store, config, g) == GroupRun(s.events + c.events, c.store, Returned(c.result))
  {
  }

  /** The file-set events in front of the writer continuation add no
      filterWrite or writeFile event. */
  lemma ReadsBeforeWrites(before: seq<Event>, after: seq<Event>)
    requires NamesWithin(before, {"processFileSet", "iterateFile", "readFile", "filterRead"})
    ensures Only(before + after, {"filterWrite"}) == Only(after, {"filterWrite"})
    ensures Only(before + after, {"writeFile"}) == Only(after, {"writeFile"})
  {
    var within := {"processFileSet", "iterateFile", "readFile", "filterRead"};
    OnlyNone(before, {"filterWrite"}, within);
    OnlyNone(before, {"writeFile"}, within);
    OnlyAppend(before, after, {"filterWrite"});
    OnlyAppend(before, after, {"writeFile"});
  }

  // ---------------------------------------------------------------------
  // processFiles

  /** Without `files`, processFiles throws "No files to process." and does
      nothing else. */
  lemma ProcessFilesWithoutFiles(m: Members, store: map<Path, string>, config: Config)
    requires config.files.None?
    ensures ProcessFilesRun(m, store, config) ==
      Exec([Event("processFiles", [ConfigArg(config)])], store, Threw(Error("Error", "No files to process.")))
  {
  }

  lemma {:induction false} GroupsNames(m: Members, store: map<Path, string>, config: Config, gs: seq<FileGroup>)
    ensures NamesWithin(ProcessGroups(m, store, config, gs).events, FileEvents)
    decreases |gs|
  {
    if gs != [] {
      var prev := ProcessGroups(m, store, config, gs[..|gs| - 1]);
      GroupsNames(m, store, config, gs[..|gs| - 1]);
      if prev.thrown.None? {
        var g := gs[|gs| - 1];
        var s := FileSetRun(m, prev.store, config, g.input);
        FileSetNames(m, prev.store, config, g.input);
        assert NamesWithin(s.events, FileEvents);
        if s.thrown.None? && TypeOf(m) == Str(FILEWRITER) {
          var c := WriterChain(m, prev.store, config, s.entries, g.dest);
          assert NamesWithin(c.events, FileEvents);
          NamesWithinAppend(s.events, c.events, FileEvents);
        }
        NamesWithinAppend(prev.events, ProcessGroup(m, prev.store, config, g).events, FileEvents);
      }
    }
  }

  /** Everything processFiles emits is a file-pipeline event. */
  lemma ProcessFilesNames(m: Members, store: map<Path, string>, config: Config)
    ensures NamesWithin(ProcessFilesRun(m, store, config).events, FileEvents)
  {
    if config.files.Some? {
      GroupsNames(m, store, config, config.files.value);
      NamesWithinAppend([Event("processFiles", [ConfigArg(config)])],
                        ProcessGroups(m, store, config, config.files.value).events, FileEvents);
    }
  }

  lemma {:induction false} NonWriterGroups(m: Members, store: map<Path, string>, config: Config, gs: seq<FileGroup>)
    requires TypeOf(m) != Str(FILEWRITER)
    ensures var x := ProcessGroups(m, store, config, gs);
      && x.store == store
      && NamesWithin(x.events, {"processFileSet", "iterateFile", "readFile", "filterRead"})
      && (forall i :: 0 <= i < |x.results| ==> x.results[i] == Fulfilled(Bool(true)))
      && (x.thrown.None? ==> |x.results| == |gs|)
    decreases |gs|
  {
    if gs != [] {
      var prev := ProcessGroups(m, store, config, gs[..|gs| - 1]);
      NonWriterGroups(m, store, config, gs[..|gs| - 1]);
      if prev.thrown.None? {
        var g := gs[|gs| - 1];
        FileSetNames(m, prev.store, config, g.input);
        NamesWithinAppend(prev.events, ProcessGroup(m, prev.store, config, g).events,
                          {"processFileSet", "iterateFile", "readFile", "filterRead"});
      }
    }
  }

  /** `true` once per destination: what processFiles fulfils with when every
      destination succeeded. */
  function TrueValues(n: nat): (vs: seq<Value>)
    ensures |vs| == n && forall i :: 0 <= i < n ==> vs[i] == Bool(true)
  {
    seq(n, i => Bool(true))
  }

  /** A task that is not a writer never calls filterWrite or writeFile and
      leaves the store as it was; unless something throws, processFiles
      fulfils with true for every destination. */
  lemma NonWriterNeverWrites(m: Members, store: map<Path, string>, config: Config)
    requires TypeOf(m) != Str(FILEWRITER)
    ensures var x := ProcessFilesRun(m, store, config);
      && x.store == store
      && Only(x.events, {"filterWrite", "writeFile"}) == []
      && (config.files.Some? && !x.outcome.Threw? ==>
            x.outcome == Fulfilled(Arr(TrueValues(|config.files.value|))))
  {
    var head := Event("processFiles", [ConfigArg(config)]);
    if config.files.Some? {
      var gs := config.files.value;
      var x := ProcessGroups(m, store, config, gs);
      NonWriterGroups(m, store, config, gs);
      NamesWithinAppend([head], x.events, {"processFiles", "processFileSet", "iterateFile", "readFile", "filterRead"});
      OnlyNone([head] + x.events, {"filterWrite", "writeFile"},
               {"processFiles", "processFileSet", "iterateFile", "readFile", "filterRead"});
      FirstRejectionNone(x.results);
      if x.thrown.None? {
        assert Values(x.results) == TrueValues(|gs|);
      }
    } else {
      assert [head][..0] == [];
    }
  }

  /** The destinations' paths in key order. */
  function Destinations(gs: seq<FileGroup>): seq<Path> {
    seq(|gs|, i requires 0 <= i < |gs| => gs[i].dest)
  }

  /** The path each writeFile event names. */
  function WrittenPaths(events: seq<Event>): seq<Path> {
    seq(|events|, i requires 0 <= i < |events| =>
      if |events[i].args| == 3 && events[i].args[2].PathArg? then events[i].args[2].path else "")
  }

  /** One writer destination that neither throws nor rejects wrote its path
      once and kept every file already there. */
  lemma WriterGroupStep(m: Members, store: map<Path, string>, config: Config, g: FileGroup)
    requires TypeOf(m) == Str(FILEWRITER)
    requires var y := ProcessGroup(m, store, config, g); y.outcome.Returned? && !y.outcome.value.Rejected?
    ensures var y := ProcessGroup(m, store, config, g);
      && y.outcome.value == Fulfilled(Bool(true))
      && store.Keys <= y.store.Keys && g.dest in y.store
      && WrittenPaths(Only(y.events, {"writeFile"})) == [g.dest]
  {
    var s := FileSetRun(m, store, config, g.input);
    assert s.thrown.None?;
    var c := WriterChain(m, store, config, s.entries, g.dest);
    assert ProcessGroup(m, store, config, g) == GroupRun(s.events + c.events, c.store, Returned(c.result));
    assert FirstRejection(s.entries).None?;
    WriterChainLaws(m, store, config, s.entries, g.dest);
    var r := FilterWriteOf(m)(config, Values(s.entries), g.dest);
    assert r.Fulfilled?;
    FileSetNames(m, store, config, g.input);
    OnlyNone(s.events, {"writeFile"}, {"processFileSet", "iterateFile", "readFile", "filterRead"});
    OnlyAppend(s.events, c.events, {"writeFile"});
  }

  /** A writer's walk over the destinations that neither throws nor rejects,
      split at its last destination. */
  lemma WriterGroupsLast(m: Members, store: map<Path, string>, config: Config, gs: seq<FileGroup>)
    requires TypeOf(m) == Str(FILEWRITER) && gs != []
    requires var x := ProcessGroups(m, store, config, gs);
      x.thrown.None? && forall i :: 0 <= i < |x.results| ==> !x.results[i].Rejected?
    ensures var prev := ProcessGroups(m, store, config, gs[..|gs| - 1]);
      var y := ProcessGroup(m, prev.store, config, gs[|gs| - 1]);
      && prev.thrown.None? && (forall i :: 0 <= i < |prev.results| ==> !prev.results[i].Rejected?)
      && y.outcome.Returned? && !y.outcome.value.Rejected?
      && ProcessGroups(m, store, config, gs) == GroupsRun(prev.events + y.events, y.store, prev.results + [y.outcome.value], None)
  {
    var x := ProcessGroups(m, store, config, gs);
    var prev := ProcessGroups(m, store, config, gs[..|gs| - 1]);
    assert prev.thrown.None?;
    var y := ProcessGroup(m, prev.store, config, gs[|gs| - 1]);
    assert y.outcome.Returned?;
    assert x.results == prev.results + [y.outcome.value];
    assert x.results[|x.results| - 1] == y.outcome.value;
    assert forall i :: 0 <= i < |prev.results| ==> x.results[i] == prev.results[i];
  }

  lemma DestinationsLast(gs: seq<FileGroup>)
    requires gs != []
    ensures Destinations(gs) == Destinations(gs[..|gs| - 1]) + [gs[|gs| - 1].dest]
  {
  }

  lemma WrittenPathsAppend(a: seq<Event>, b: seq<Event>)
    ensures WrittenPaths(a + b) == WrittenPaths(a) + WrittenPaths(b)
  {
    assert forall i :: |a| <= i < |a + b| ==> (a + b)[i] == b[i - |a|];
  }

  lemma {:induction false} WriterGroupsResults(m: Members, store: map<Path, string>, config: Config, gs: seq<FileGroup>)
    requires TypeOf(m) == Str(FILEWRITER)
    requires var x := ProcessGroups(m, store, config, gs);
      x.thrown.None? && forall i :: 0 <= i < |x.results| ==> !x.results[i].Rejected?
    ensures var x := ProcessGroups(m, store, config, gs);
      && |x.results| == |gs|
      && (forall i :: 0 <= i < |gs| ==> x.results[i] == Fulfilled(Bool(true)))
      && store.Keys <= x.store.Keys
    decreases |gs|
  {
    if gs != [] {
      var init := gs[..|gs| - 1];
      var prev := ProcessGroups(m, store, config, init);
      WriterGroupsLast(m, store, config, gs);
      WriterGroupsResults(m, store, config, init);
      WriterGroupStep(m, prev.store, config, gs[|gs| - 1]);
    }
  }

  lemma {:induction false} WriterGroupsStore(m: Members, store: map<Path, string>, config: Config, gs: seq<FileGroup>)
    requires TypeOf(m) == Str(FILEWRITER)
    requires var x := ProcessGroups(m, store, config, gs);
      x.thrown.None? && forall i :: 0 <= i < |x.results| ==> !x.results[i].Rejected?
    ensures forall i :: 0 <= i < |gs| ==> gs[i].dest in ProcessGroups(m, store, config, gs).store
    decreases |gs|
  {
    if gs != [] {
      var init := gs[..|gs| - 1];
      var prev := ProcessGroups(m, store, config, init);
      var y := ProcessGroup(m, prev.store, config, gs[|gs| - 1]);
      WriterGroupsLast(m, store, config, gs);
      WriterGroupsStore(m, store, config, init);
      WriterGroupStep(m, prev.store, config, gs[|gs| - 1]);
      DestinationsKept(gs, init, prev.store, y.store);
    }
  }

  /** Files already in the store stay there, so every destination written so
      far is still present after one more. */
  lemma DestinationsKept(gs: seq<FileGroup>, init: seq<FileGroup>, before: map<Path, string>, after: map<Path, string>)
    requires gs != [] && init == gs[..|gs| - 1]
    requires forall i :: 0 <= i < |init| ==> init[i].dest in before
    requires before.Keys <= after.Keys && gs[|gs| - 1].dest in after
    ensures forall i :: 0 <= i < |gs| ==> gs[i].dest in after
  {
    forall i | 0 <= i < |gs| ensures gs[i].dest in after {
      if i < |gs| - 1 {
        assert init[i] == gs[i];
      }
    }
  }

  lemma {:induction false} WriterGroupsWrites(m: Members, store: map<Path, string>, config: Config, gs: seq<FileGroup>)
    requires TypeOf(m) == Str(FILEWRITER)
    requires var x := ProcessGroups(m, store, config, gs);
      x.thrown.None? && forall i :: 0 <= i < |x.results| ==> !x.results[i].Rejected?
    ensures WrittenPaths(Only(ProcessGroups(m, store, config, gs).events, {"writeFile"})) == Destinations(gs)
    decreases |gs|
  {
    if gs != [] {
      var n := |gs|;
      var init := gs[..n - 1];
      var prev := ProcessGroups(m, store, config, init);
      var y := ProcessGroup(m, prev.store, config, gs[n - 1]);
      WriterGroupsLast(m, store, config, gs);
      WriterGroupsWrites(m, store, config, init);
      WriterGroupStep(m, prev.store, config, gs[n - 1]);
      OnlyAppend(prev.events, y.events, {"writeFile"});
      DestinationsLast(gs);
      WrittenPathsAppend(Only(prev.events, {"writeFile"}), Only(y.events, {"writeFile"}));
    }
  }

  /** When a writer's processFiles fulfils, writeFile was called once per key
      of `config.files`, in key order, every destination is in the store, no
      file disappeared, and the result is true per destination. */
  lemma WriterWritesEveryDestination(m: Members, store: map<Path, string>, config: Config)
    requires TypeOf(m) == Str(FILEWRITER)
    requires ProcessFilesRun(m, store, config).outcome.Fulfilled?
    ensures config.files.Some?
    ensures var gs := config.files.value; var x := ProcessFilesRun(m, store, config);
      && store.Keys <= x.store.Keys
      && (forall i :: 0 <= i < |gs| ==> gs[i].dest in x.store)
      && WrittenPaths(Only(x.events, {"writeFile"})) == Destinations(gs)
      && x.outcome == Fulfilled(Arr(TrueValues(|gs|)))
  {
    var gs := config.files.value;
    var head := Event("processFiles", [ConfigArg(config)]);
    var x := ProcessGroups(m, store, config, gs);
    FulfilledProcessFiles(m, store, config);
    WriterGroupsFulfilled(m, store, config, gs);
    WritesAfter(head, x.events);
  }

  /** An event that is not a write in front of a trace adds no write. */
  lemma WritesAfter(head: Event, events: seq<Event>)
    requires head.name != "writeFile"
    ensures Only([head] + events, {"writeFile"}) == Only(events, {"writeFile"})
  {
    OnlyAppend([head], events, {"writeFile"});
    OnlySingle(head, {"writeFile"});
  }

  /** A processFiles that fulfils walked every destination without an
      exception or a rejection, and fulfilled with the destinations' values. */
  lemma FulfilledProcessFiles(m: Members, store: map<Path, string>, config: Config)
    requires ProcessFilesRun(m, store, config).outcome.Fulfilled?
    ensures config.files.Some?
    ensures var x := ProcessGroups(m, store, config, config.files.value);
      && x.thrown.None? && FirstRejection(x.results).None?
      && ProcessFilesRun(m, store, config) ==
           Exec([Event("processFiles", [ConfigArg(config)])] + x.events, x.store, Fulfilled(Arr(Values(x.results))))
  {
  }

  /** The destinations of a writer walk that neither throws nor rejects. */
  lemma WriterGroupsFulfilled(m: Members, store: map<Path, string>, config: Config, gs: seq<FileGroup>)
    requires TypeOf(m) == Str(FILEWRITER)
    requires var x := ProcessGroups(m, store, config, gs); x.thrown.None? && FirstRejection(x.results).None?
    ensures var x := ProcessGroups(m, store, config, gs);
      && store.Keys <= x.store.Keys
      && (forall i :: 0 <= i < |gs| ==> gs[i].dest in x.store)
      && WrittenPaths(Only(x.events, {"writeFile"})) == Destinations(gs)
      && Values(x.results) == TrueValues(|gs|)
  {
    var x := ProcessGroups(m, store, config, gs);
    FirstRejectionNone(x.results);
    WriterGroupsResults(m, store, config, gs);
    WriterGroupsStore(m, store, config, gs);
    WriterGroupsWrites(m, store, config, gs);
    AllTrue(x.results);
  }

  lemma AllTrue(cs: seq<Completion>)
    requires forall i :: 0 <= i < |cs| ==> cs[i] == Fulfilled(Bool(true))
    ensures Values(cs) == TrueValues(|cs|)
  {
  }

  // ---------------------------------------------------------------------
  // method and run

  /** Without a method of its own, a task delegates to processFiles exactly
      when its type is one of the three file types; any other type throws
      undefined (what `exception` returns) without touching anything. */
  lemma MethodDispatch(m: Members, store: map<Path, string>, config: Config)
    requires "method" !in m
    ensures var x := MethodRun(m, store, config); var pf := ProcessFilesRun(m, store, config);
      && x.events[0] == Event("method", [ConfigArg(config)])
      && (IsFileType(TypeOf(m)) ==> x.events[1..] == pf.events && x.store == pf.store && x.outcome == pf.outcome)
      && (!IsFileType(TypeOf(m)) ==> |x.events| == 1 && x.store == store && x.outcome == Threw(Undefined))
  {
  }

  /** The lifecycle steps `run` went through, given the config parseConfig returned. */
  function LifecycleTrace(config: Config, parsed: Config): seq<Event> {
    [Event("parseConfig", [ConfigArg(config)]), Event("setup", [ConfigArg(parsed)]),
     Event("method", [ConfigArg(parsed)]), Event("teardown", [ConfigArg(parsed)])]
  }

  /** Seen through names outside the file pipeline, `_method` emits only its
      own "method" event. */
  lemma MethodOnly(m: Members, store: map<Path, string>, config: Config, names: set<string>)
    requires names * FileEvents == {}
    ensures var x := MethodRun(m, store, config); var me := Event("method", [ConfigArg(config)]);
      && |x.events| > 0 && x.events[0] == me
      && Only(x.events, names) == (if "method" in names then [me] else [])
  {
    var me := Event("method", [ConfigArg(config)]);
    var body := MethodBody(m, store, config);
    if "method" !in m && IsFileType(TypeOf(m)) {
      ProcessFilesNames(m, store, config);
      OnlyNone(body.events, names, FileEvents);
    } else {
      assert body.events == [];
    }
    OnlySingle(me, names);
    OnlyAppend([me], body.events, names);
  }

  /** run, case by case, with the method's run left whole. */
  lemma RunCases(m: Members, store: map<Path, string>, config: Config)
    ensures var x := RunSpec(m, store, config); var pc := ParseConfigOf(m)(config);
      var p := Event("parseConfig", [ConfigArg(config)]);
      && (pc.Thrown? ==> x == RunResult([p], store, ThrewSync(pc.reason)))
      && (pc.Returned? ==>
            var c := pc.value; var sr := SetupOf(m)(c); var mr := MethodRun(m, store, c);
            var su := Event("setup", [ConfigArg(c)]);
            && (sr.Threw? ==> x == RunResult([p, su], store, ThrewSync(sr.reason)))
            && (sr.Rejected? ==> x == RunResult([p, su], store, Resolved(Undefined)))
            && (sr.Fulfilled? && !mr.outcome.Fulfilled? ==> x == RunResult([p, su] + mr.events, mr.store, Resolved(Undefined)))
            && (sr.Fulfilled? && mr.outcome.Fulfilled? ==>
                  && x.events == [p, su] + mr.events + [Event("teardown", [ConfigArg(c)])]
                  && x.store == mr.store
                  && var td := TeardownOf(m)(c);
                     x.outcome == if td.Fulfilled? then Resolved(td.value) else RunRejected(td.reason)))
  {
    var pc := ParseConfigOf(m)(config);
    if pc.Returned? {
      var c := pc.value;
      var p := Event("parseConfig", [ConfigArg(config)]);
      var su := Event("setup", [ConfigArg(c)]);
      var mr := MethodRun(m, store, c);
      var f := Finish(m, c, mr);
      assert [p] + [su] == [p, su];
      AppendAssoc([p], [su], f.events);
      if SetupOf(m)(c).Fulfilled? && mr.outcome.Fulfilled? {
        AppendAssoc([p, su], mr.events, [Event("teardown", [ConfigArg(c)])]);
      }
    }
  }

  /** The lifecycle events of each way `run` can end, given the config
      parseConfig returned. */
  lemma LifecycleSteps(config: Config, c: Config, body: seq<Event>)
    requires Only(body, LifecycleEvents) == [LifecycleTrace(config, c)[2]]
    ensures var trace := LifecycleTrace(config, c);
      var p := trace[0]; var su := trace[1]; var td := trace[3];
      && Only([p], LifecycleEvents) == trace[..1]
      && Only([p, su], LifecycleEvents) == trace[..2]
      && Only([p, su] + body, LifecycleEvents) == trace[..3]
      && Only([p, su] + body + [td], LifecycleEvents) == trace
  {
    var trace := LifecycleTrace(config, c);
    var p, su, me, td := trace[0], trace[1], trace[2], trace[3];
    assert trace[..1] == [p] && trace[..2] == [p, su] && trace[..3] == [p, su, me] && trace == [p, su, me, td];
    OnlySteps(p, su, me, td, body);
  }

  lemma OnlySteps(p: Event, su: Event, me: Event, td: Event, body: seq<Event>)
    requires p.name in LifecycleEvents && su.name in LifecycleEvents && td.name in LifecycleEvents
    requires Only(body, LifecycleEvents) == [me]
    ensures Only([p], LifecycleEvents) == [p]
    ensures Only([p, su], LifecycleEvents) == [p, su]
    ensures Only([p, su] + body, LifecycleEvents) == [p, su, me]
    ensures Only([p, su] + body + [td], LifecycleEvents) == [p, su, me, td]
  {
    OnlySingle(p, LifecycleEvents);
    OnlySingle(td, LifecycleEvents);
    assert [p, su][..1] == [p];
    OnlyAppend([p, su], body, LifecycleEvents);
    OnlyAppend([p, su] + body, [td], LifecycleEvents);
  }

  /** run emits parseConfig (with the config as given), then setup, method
      and teardown (with the config parseConfig returned), strictly in that
      order; a step that fails ends the sequence. */
  lemma RunLifecycleOrder(m: Members, store: map<Path, string>, config: Config)
    ensures var x := RunSpec(m, store, config); var steps := Only(x.events, LifecycleEvents);
      && 1 <= |steps| <= 4
      && steps[0] == Event("parseConfig", [ConfigArg(config)])
      && (|steps| > 1 ==>
            ParseConfigOf(m)(config).Returned? && steps <= LifecycleTrace(config, ParseConfigOf(m)(config).value))
  {
    RunCases(m, store, config);
    var pc := ParseConfigOf(m)(config);
    if pc.Thrown? {
      OnlySingle(Event("parseConfig", [ConfigArg(config)]), LifecycleEvents);
    } else {
      MethodOnly(m, store, pc.value, LifecycleEvents);
      LifecycleSteps(config, pc.value, MethodRun(m, store, pc.value).events);
    }
  }

  /** The failure rules of run: parseConfig or setup throwing escapes run; a
      rejected setup or a failed method is swallowed by `exception`, so run
      resolves to undefined without method (for setup) or teardown ever
      being called; a failing teardown rejects run's promise. */
  lemma RunFailures(m: Members, store: map<Path, string>, config: Config)
    ensures var x := RunSpec(m, store, config);
      && (ParseConfigOf(m)(config).Thrown? ==>
            x.outcome == ThrewSync(ParseConfigOf(m)(config).reason) && x.store == store)
      && (ParseConfigOf(m)(config).Returned? ==>
            var c := ParseConfigOf(m)(config).value;
            var s := SetupOf(m)(c);
            var mr := MethodRun(m, store, c);
            && (s.Threw? ==> x.outcome == ThrewSync(s.reason) && x.store == store)
            && (s.Rejected? ==>
                  x.outcome == Resolved(Undefined) && x.store == store && Only(x.events, {"method", "teardown"}) == [])
            && (s.Fulfilled? && !mr.outcome.Fulfilled? ==>
                  x.outcome == Resolved(Undefined) && x.store == mr.store && Only(x.events, {"teardown"}) == [])
            && (s.Fulfilled? && mr.outcome.Fulfilled? && !TeardownOf(m)(c).Fulfilled? ==>
                  x.outcome == RunRejected(TeardownOf(m)(c).reason) && x.store == mr.store))
  {
    RunCases(m, store, config);
    var p := Event("parseConfig", [ConfigArg(config)]);
    var pc := ParseConfigOf(m)(config);
    if pc.Returned? {
      var c := pc.value;
      var su := Event("setup", [ConfigArg(c)]);
      var sr := SetupOf(m)(c);
      if sr.Rejected? {
        QuietPrefix(p, su, {"method", "teardown"});
      } else if sr.Fulfilled? && !MethodRun(m, store, c).outcome.Fulfilled? {
        FailedMethodQuiet(m, store, c, p, su);
      }
    }
  }

  /** Two events neither of which is named in `names` leave nothing behind. */
  lemma QuietPrefix(p: Event, su: Event, names: set<string>)
    requires p.name !in names && su.name !in names
    ensures Only([p, su], names) == []
  {
    OnlySingle(p, names);
    OnlySingle(su, names);
    OnlyAppend([p], [su], names);
    assert [p] + [su] == [p, su];
  }

  /** Up to a failed method, run has emitted no teardown. */
  lemma FailedMethodQuiet(m: Members, store: map<Path, string>, c: Config, p: Event, su: Event)
    requires p.name == "parseConfig" && su.name == "setup"
    ensures Only([p, su] + MethodRun(m, store, c).events, {"teardown"}) == []
  {
    var mr := MethodRun(m, store, c);
    MethodOnly(m, store, c, {"teardown"});
    QuietPrefix(p, su, {"teardown"});
    OnlyAppend([p, su], mr.events, {"teardown"});
  }

  // ---------------------------------------------------------------------
  // End to end with the default hooks

  /** A writer task that supplies nothing but its type. */
  const PlainWriter: Members := map["type" := Data(Str(FILEWRITER))]

  lemma PlainWriterDestination(store: map<Path, string>, config: Config, g: FileGroup)
    requires store == map["a" := "X", "b" := "Y"] && g == FileGroup("out", Many(["a", "b"]))
    ensures var y := ProcessGroup(PlainWriter, store, config, g);
      y.store == store["out" := "XY"] && y.outcome == Returned(Fulfilled(Bool(true)))
  {
    var m := PlainWriter;
    assert FilterReadOf(m) == DefaultFilterRead && FilterWriteOf(m) == DefaultFilterWrite;
    var ps := Sources(g.input);
    assert ps == ["a", "b"];
    assert StripBom("X") == "X" && StripBom("Y") == "Y";
    assert SourceReads(m, store, config, ps[0]) && SourceReads(m, store, config, ps[1]);
    WriterDestination(m, store, config, g);
    var contents := Values(FileSetRun(m, store, config, g.input).entries);
    assert contents == [Str("X"), Str("Y")] by {
      assert Fulfilled(contents[0]) == DefaultFilterRead(config, Str("X"), "a");
      assert Fulfilled(contents[1]) == DefaultFilterRead(config, Str("Y"), "b");
    }
    JoinStrings(["X", "Y"], "");
    assert Strings(["X", "Y"]) == [Str("X"), Str("Y")];
    assert Interleave(["X", "Y"], "") == "XY";
  }

  /** A writer run over a single destination that is written: run ends with
      the store that destination left and resolves to what teardown returns. */
  lemma OneDestinationRun(m: Members, store: map<Path, string>, config: Config, c: Config, g: FileGroup)
    requires "method" !in m && TypeOf(m) == Str(FILEWRITER)
    requires ParseConfigOf(m)(config) == Returned(c) && c.files == Some([g])
    requires SetupOf(m)(c).Fulfilled? && TeardownOf(m)(c).Fulfilled?
    requires ProcessGroup(m, store, c, g).outcome == Returned(Fulfilled(Bool(true)))
    ensures var x := RunSpec(m, store, config);
      x.store == ProcessGroup(m, store, c, g).store && x.outcome == Resolved(TeardownOf(m)(c).value)
  {
    RunCases(m, store, config);
    var y := ProcessGroup(m, store, c, g);
    var gr := ProcessGroups(m, store, c, [g]);
    assert [g][..0] == [] && [g][0] == g;
    assert ProcessGroups(m, store, c, []).store == store;
    assert gr.results == [Fulfilled(Bool(true))] && gr.thrown.None? && gr.store == y.store;
    assert FirstRejection(gr.results).None?;
    var pf := ProcessFilesRun(m, store, c);
    assert pf.outcome.Fulfilled? && pf.store == y.store;
    var mr := MethodRun(m, store, c);
    assert mr.outcome == pf.outcome && mr.store == pf.store;
  }

  /** A writer run over a single destination that rejects: `exception`
      swallows the rejection, so run resolves to undefined with the store that
      destination left, and teardown is never called. */
  lemma OneDestinationRejectedRun(m: Members, store: map<Path, string>, config: Config, c: Config, g: FileGroup)
    requires "method" !in m && TypeOf(m) == Str(FILEWRITER)
    requires ParseConfigOf(m)(config) == Returned(c) && c.files == Some([g])
    requires SetupOf(m)(c).Fulfilled?
    requires ProcessGroup(m, store, c, g).outcome.Returned? && ProcessGroup(m, store, c, g).outcome.value.Rejected?
    ensures var x := RunSpec(m, store, config);
      && x.store == ProcessGroup(m, store, c, g).store && x.outcome == Resolved(Undefined)
      && Only(x.events, {"teardown"}) == []
  {
    RunFailures(m, store, config);
    var y := ProcessGroup(m, store, c, g);
    var gr := ProcessGroups(m, store, c, [g]);
    assert [g][..0] == [] && [g][0] == g;
    assert ProcessGroups(m, store, c, []).store == store;
    assert gr.results == [y.outcome.value] && gr.thrown.None? && gr.store == y.store;
    assert FirstRejection(gr.results).Some?;
    var pf := ProcessFilesRun(m, store, c);
    assert pf.outcome.Rejected? && pf.store == y.store;
    var mr := MethodRun(m, store, c);
    assert mr.outcome == pf.outcome && mr.store == pf.store;
  }

  /** A writer task that supplies nothing but its type writes, for
      files { out: [a, b] } holding "X" and "Y", exactly "XY": the default
      filterRead passes contents through and the default filterWrite joins
      them with the empty separator. run then resolves to what the default
      teardown returns, undefined. */
  lemma DefaultWriterJoinsSources()
    ensures var store := map["a" := "X", "b" := "Y"];
      var config := Config(Some([FileGroup("out", Many(["a", "b"]))]), None);
      var x := RunSpec(PlainWriter, store, config);
      x.store == store["out" := "XY"] && x.outcome == Resolved(Undefined)
  {
    var m := PlainWriter;
    var store := map["a" := "X", "b" := "Y"];
    var g := FileGroup("out", Many(["a", "b"]));
    var config := Config(Some([g]), None);
    PlainWriterDestination(store, config, g);
    assert ParseConfigOf(m) == DefaultParseConfig;
    assert SetupOf(m) == DoNothing && TeardownOf(m) == DoNothing;
    OneDestinationRun(m, store, config, config, g);
  }
}
