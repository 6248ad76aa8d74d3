/** The concat task of tasks/concat.js: a writer that fills in default
    options, joins the sources of each destination with a separator and can
    strip a leading banner comment from each source.

    stripBanner is a regular expression,
        ^\s*(?:LINE|BLOCK)\s*      (LINE only with options.line)
    with LINE = (?:.*\/\/.*\n)*\s* and BLOCK = \/\*[\s\S]*?\*\/ with
    options.block, \/\*[^!][\s\S]*?\*\/ without. The match is removed; with
    no match the source is returned unchanged. The scanners below compute
    the end of that match the way the regular expression engine finds it,
    and the lemmas state which prefixes are banners in plain terms. */
module Concat {
  import opened Js
  import opened TaskEngine
  import TaskLaws

  // ---------------------------------------------------------------------
  // Characters

  /** ECMAScript LineTerminator: what `.` does not match. */
  predicate IsLineTerminator(c: char) {
    c == '\n' || c == '\r' || c == '\U{2028}' || c == '\U{2029}'
  }

  /** ECMAScript `\s`: WhiteSpace and LineTerminator. */
  predicate IsSpace(c: char) {
    || c == '\t' || c == '\U{000B}' || c == '\U{000C}' || c == ' ' || c == '\U{00A0}' || c == '\U{FEFF}'
    || c == '\U{1680}' || ('\U{2000}' <= c <= '\U{200A}') || c == '\U{202F}' || c == '\U{205F}' || c == '\U{3000}'
    || IsLineTerminator(c)
  }

  predicate AllSpace(s: string, i: nat, j: nat)
    requires i <= j <= |s|
  {
    forall k :: i <= k < j ==> IsSpace(s[k])
  }

  /** Where a greedy `\s*` starting at i stops. */
  function SpaceEnd(s: string, i: nat): (j: nat)
    requires i <= |s|
    ensures i <= j <= |s| && AllSpace(s, i, j) && (j == |s| || !IsSpace(s[j]))
    decreases |s| - i
  {
    if i < |s| && IsSpace(s[i]) then SpaceEnd(s, i + 1) else i
  }

  /** A run of whitespace that cannot be extended is the one `\s*` takes. */
  lemma SpaceEndUnique(s: string, i: nat, j: nat)
    requires i <= j <= |s| && AllSpace(s, i, j) && (j == |s| || !IsSpace(s[j]))
    ensures SpaceEnd(s, i) == j
  {
  }

  // ---------------------------------------------------------------------
  // Block comments

  /** "*\/" starts at k. */
  predicate IsCloseAt(s: string, k: nat) {
    k + 1 < |s| && s[k] == '*' && s[k + 1] == '/'
  }

  /** Where the lazy `[\s\S]*?\*\/` starting at i finds its closing "*\/". */
  function CloseFrom(s: string, i: nat): (r: Option<nat>)
    ensures r.Some? ==> i <= r.value && IsCloseAt(s, r.value) && forall k :: i <= k < r.value ==> !IsCloseAt(s, k)
    ensures r.None? ==> forall k :: i <= k ==> !IsCloseAt(s, k)
    decreases |s| - i
  {
    if i + 1 >= |s| then None
    else if IsCloseAt(s, i) then Some(i)
    else CloseFrom(s, i + 1)
  }

  // ---------------------------------------------------------------------
  // Line comments

  /** The first line terminator at or after i. */
  function TerminatorFrom(s: string, i: nat): (r: Option<nat>)
    ensures r.Some? ==> i <= r.value < |s| && IsLineTerminator(s[r.value])
                        && forall k :: i <= k < r.value ==> !IsLineTerminator(s[k])
    ensures r.None? ==> forall k :: i <= k < |s| ==> !IsLineTerminator(s[k])
    decreases |s| - i
  {
    if i >= |s| then None
    else if IsLineTerminator(s[i]) then Some(i)
    else TerminatorFrom(s, i + 1)
  }

  /** "//" occurs in s[i..j]. */
  predicate HasSlashes(s: string, i: nat, j: nat)
    requires j <= |s|
  {
    exists k :: i <= k < j - 1 && s[k] == '/' && s[k + 1] == '/'
  }

  /** s[i..j] is one line `.*\/\/.*\n`: no line terminator before its final
      '\n', and "//" somewhere in it. */
  predicate CommentLine(s: string, i: nat, j: nat) {
    && i < j <= |s| && s[j - 1] == '\n'
    && (forall k :: i <= k < j - 1 ==> !IsLineTerminator(s[k]))
    && HasSlashes(s, i, j - 1)
  }

  /** The end of the comment line starting at i, if one does. */
  function LineEnd(s: string, i: nat): (r: Option<nat>)
    ensures forall j: nat :: CommentLine(s, i, j) <==> r == Some(j)
  {
    match TerminatorFrom(s, i)
    case None => None
    case Some(t) => if s[t] == '\n' && HasSlashes(s, i, t) then Some(t + 1) else None
  }

  /** s[i..j] is a sequence of comment lines, one after the other. */
  ghost predicate CommentLines(s: string, i: nat, j: nat)
    decreases j - i
  {
    i == j || exists t :: i < t <= j && CommentLine(s, i, t) && CommentLines(s, t, j)
  }

  /** Where the greedy `(?:.*\/\/.*\n)*` starting at i stops. */
  function LinesEnd(s: string, i: nat): (j: nat)
    requires i <= |s|
    ensures i <= j <= |s| && CommentLines(s, i, j) && LineEnd(s, j).None?
    decreases |s| - i
  {
    match LineEnd(s, i)
    case None => i
    case Some(t) => assert CommentLine(s, i, t); LinesEnd(s, t)
  }

  /** A run of comment lines that cannot be extended is the one the greedy
      repetition takes. */
  lemma {:induction false} LinesEndUnique(s: string, i: nat, j: nat)
    requires i <= |s| && CommentLines(s, i, j) && LineEnd(s, j).None?
    ensures LinesEnd(s, i) == j
    decreases j - i
  {
    if i != j {
      var t :| i < t <= j && CommentLine(s, i, t) && CommentLines(s, t, j);
      assert LineEnd(s, i) == Some(t);
      LinesEndUnique(s, t, j);
    }
  }

  // ---------------------------------------------------------------------
  // stripBanner

  /** The two options stripBanner reads. */
  datatype Mode = Mode(line: bool, block: bool)

  /** options.line and options.block, a falsy `options` counting as {}. */
  function ModeOf(options: Value): (mode: Mode)
    ensures mode.line <==> Truthy(options) && Truthy(Prop(options, "line"))
    ensures mode.block <==> Truthy(options) && Truthy(Prop(options, "block"))
  {
    var o := if Truthy(options) then options else Obj(map[]);
    Mode(Truthy(Prop(o, "line")), Truthy(Prop(o, "block")))
  }

  /** The end of the match of the banner expression, None when it does not match. */
  function BannerEnd(src: string, mode: Mode): (r: Option<nat>)
    ensures r.Some? ==> 0 < r.value <= |src| || (mode.line && r.value <= |src|)
  {
    var w := SpaceEnd(src, 0);
    if mode.line then
      // LINE always matches, so BLOCK is never tried.
      Some(SpaceEnd(src, LinesEnd(src, w)))
    else if w + 2 <= |src| && src[w] == '/' && src[w + 1] == '*' && (mode.block || (w + 2 < |src| && src[w + 2] != '!')) then
      match CloseFrom(src, if mode.block then w + 2 else w + 3)
      case Some(k) => Some(SpaceEnd(src, k + 2))
      case None => None
    else None
  }

  /** stripBanner(src, options): src without its leading banner. */
  function StripBanner(src: string, options: Value): (r: string)
    ensures |r| <= |src| && r == src[|src| - |r|..]
  {
    match BannerEnd(src, ModeOf(options))
    case Some(e) => src[e..]
    case None => src
  }

  /** src[..e] is a banner stripBanner removes without `line` or `block`:
      whitespace up to w, "\/\*" and a character other than '!', text without
      "*\/" up to the first "*\/" at k, and all the whitespace after it. */
  predicate DefaultBanner(src: string, w: nat, k: nat, e: nat) {
    && w + 3 <= k && k + 2 <= e <= |src|
    && AllSpace(src, 0, w) && src[w] == '/' && src[w + 1] == '*' && src[w + 2] != '!'
    && IsCloseAt(src, k) && (forall j :: w + 3 <= j < k ==> !IsCloseAt(src, j))
    && AllSpace(src, k + 2, e) && (e == |src| || !IsSpace(src[e]))
  }

  /** The same with `block`: the comment may start with '!' and may close
      right after it opens. */
  predicate BlockBanner(src: string, w: nat, k: nat, e: nat) {
    && w + 2 <= k && k + 2 <= e <= |src|
    && AllSpace(src, 0, w) && src[w] == '/' && src[w + 1] == '*'
    && IsCloseAt(src, k) && (forall j :: w + 2 <= j < k ==> !IsCloseAt(src, j))
    && AllSpace(src, k + 2, e) && (e == |src| || !IsSpace(src[e]))
  }

  /** With `line`: all leading whitespace, the longest run of comment lines
      after it, and all the whitespace after that. */
  ghost predicate LineBanner(src: string, w: nat, j: nat, e: nat) {
    && w <= j <= e <= |src|
    && AllSpace(src, 0, w) && (w == |src| || !IsSpace(src[w]))
    && CommentLines(src, w, j) && LineEnd(src, j).None?
    && AllSpace(src, j, e) && (e == |src| || !IsSpace(src[e]))
  }

  /** Stripping with the given options is cutting where BannerEnd says. */
  lemma StripAt(src: string, options: Value, mode: Mode)
    requires ModeOf(options) == mode
    ensures StripBanner(src, options) == if BannerEnd(src, mode).Some? then src[BannerEnd(src, mode).value..] else src
  {
  }

  /** A banner is never empty, so cutting one changes the source. */
  lemma CutChanges(src: string, e: nat)
    requires 0 < e <= |src|
    ensures src[e..] != src
  {
    assert |src[e..]| < |src|;
  }

  lemma DefaultBannerEnd(src: string)
    ensures forall w: nat, k: nat, e: nat :: DefaultBanner(src, w, k, e) ==> BannerEnd(src, Mode(false, false)) == Some(e)
    ensures BannerEnd(src, Mode(false, false)).Some? ==>
      exists w: nat, k: nat :: DefaultBanner(src, w, k, BannerEnd(src, Mode(false, false)).value)
  {
    forall w: nat, k: nat, e: nat | DefaultBanner(src, w, k, e) ensures BannerEnd(src, Mode(false, false)) == Some(e) {
      SpaceEndUnique(src, 0, w);
      assert CloseFrom(src, w + 3) == Some(k);
      SpaceEndUnique(src, k + 2, e);
    }
    var r := BannerEnd(src, Mode(false, false));
    if r.Some? {
      var w := SpaceEnd(src, 0);
      var k := CloseFrom(src, w + 3).value;
      assert DefaultBanner(src, w, k, r.value);
    }
  }

  lemma BlockBannerEnd(src: string)
    ensures forall w: nat, k: nat, e: nat :: BlockBanner(src, w, k, e) ==> BannerEnd(src, Mode(false, true)) == Some(e)
    ensures BannerEnd(src, Mode(false, true)).Some? ==>
      exists w: nat, k: nat :: BlockBanner(src, w, k, BannerEnd(src, Mode(false, true)).value)
  {
    forall w: nat, k: nat, e: nat | BlockBanner(src, w, k, e) ensures BannerEnd(src, Mode(false, true)) == Some(e) {
      SpaceEndUnique(src, 0, w);
      assert CloseFrom(src, w + 2) == Some(k);
      SpaceEndUnique(src, k + 2, e);
    }
    var r := BannerEnd(src, Mode(false, true));
    if r.Some? {
      var w := SpaceEnd(src, 0);
      var k := CloseFrom(src, w + 2).value;
      assert BlockBanner(src, w, k, r.value);
    }
  }

  /** Without `line` or `block`, stripBanner removes exactly a default banner
      and changes nothing when the source does not start with one. */
  lemma StripDefault(src: string, options: Value)
    requires ModeOf(options) == Mode(false, false)
    ensures forall w: nat, k: nat, e: nat :: DefaultBanner(src, w, k, e) ==> StripBanner(src, options) == src[e..]
    ensures StripBanner(src, options) != src <==> exists w: nat, k: nat, e: nat :: DefaultBanner(src, w, k, e)
  {
    StripAt(src, options, Mode(false, false));
    DefaultBannerEnd(src);
    var r := BannerEnd(src, Mode(false, false));
    if r.Some? {
      var w: nat, k: nat :| DefaultBanner(src, w, k, r.value);
      CutChanges(src, r.value);
    }
  }

  /** With `block` and without `line`, stripBanner removes exactly a block
      banner, "\/\*!" included, and changes nothing otherwise. */
  lemma StripBlock(src: string, options: Value)
    requires ModeOf(options) == Mode(false, true)
    ensures forall w: nat, k: nat, e: nat :: BlockBanner(src, w, k, e) ==> StripBanner(src, options) == src[e..]
    ensures StripBanner(src, options) != src <==> exists w: nat, k: nat, e: nat :: BlockBanner(src, w, k, e)
  {
    StripAt(src, options, Mode(false, true));
    BlockBannerEnd(src);
    var r := BannerEnd(src, Mode(false, true));
    if r.Some? {
      var w: nat, k: nat :| BlockBanner(src, w, k, r.value);
      CutChanges(src, r.value);
    }
  }

  /** With `line`, stripBanner always removes the leading whitespace, the
      comment lines after it and the whitespace after those, whatever
      `block` says. */
  lemma StripLine(src: string, options: Value)
    requires ModeOf(options).line
    ensures exists w: nat, j: nat, e: nat :: LineBanner(src, w, j, e)
    ensures forall w: nat, j: nat, e: nat :: LineBanner(src, w, j, e) ==> StripBanner(src, options) == src[e..]
  {
    var w := SpaceEnd(src, 0);
    var j := LinesEnd(src, w);
    var e := SpaceEnd(src, j);
    assert LineBanner(src, w, j, e);
    forall w': nat, j': nat, e': nat | LineBanner(src, w', j', e') ensures StripBanner(src, options) == src[e'..] {
      SpaceEndUnique(src, 0, w');
      LinesEndUnique(src, w', j');
      SpaceEndUnique(src, j', e');
    }
  }

  /** Without `block`, a banner opening with "\/\*!" is kept. */
  lemma KeepsImportantBanner(src: string, options: Value)
    requires ModeOf(options) == Mode(false, false)
    requires var w := SpaceEnd(src, 0); w + 3 <= |src| && src[w..w + 3] == "/*!"
    ensures StripBanner(src, options) == src
  {
    ImportantOpening(src);
    StripAt(src, options, Mode(false, false));
  }

  lemma ImportantOpening(src: string)
    requires var w := SpaceEnd(src, 0); w + 3 <= |src| && src[w..w + 3] == "/*!"
    ensures BannerEnd(src, Mode(false, false)) == None
  {
    var w := SpaceEnd(src, 0);
    assert src[w + 2] == src[w..w + 3][2];
  }

  /** A source that does not open, after whitespace, with "\/\*" is kept unless
      `line` is set. */
  lemma KeepsUncommentedSource(src: string, options: Value)
    requires !ModeOf(options).line
    requires var w := SpaceEnd(src, 0); !(w + 2 <= |src| && src[w] == '/' && src[w + 1] == '*')
    ensures StripBanner(src, options) == src
  {
    NoOpening(src, ModeOf(options));
    StripAt(src, options, ModeOf(options));
  }

  lemma NoOpening(src: string, mode: Mode)
    requires !mode.line
    requires var w := SpaceEnd(src, 0); !(w + 2 <= |src| && src[w] == '/' && src[w + 1] == '*')
    ensures BannerEnd(src, mode) == None
  {
  }

  /** A comment that is never closed is kept unless `line` is set. */
  lemma KeepsUnclosedComment(src: string, options: Value)
    requires !ModeOf(options).line
    requires forall k :: 0 <= k ==> !IsCloseAt(src, k)
    ensures StripBanner(src, options) == src
  {
    NoClosing(src, ModeOf(options));
    StripAt(src, options, ModeOf(options));
  }

  lemma NoClosing(src: string, mode: Mode)
    requires !mode.line
    requires forall k :: 0 <= k ==> !IsCloseAt(src, k)
    ensures BannerEnd(src, mode) == None
  {
  }

  // ---------------------------------------------------------------------
  // The banner examples of test/concat_test.js

  /** What is left of the first two fixtures once their banner is stripped. */
  const Rest1: string := "// Comment\n" + "\n" + "/* Comment */\n"
  /** What is left of the third once its line banner is stripped. */
  const Rest3: string := "// But this is not\n" + "\n" + "/* And neither\n" + " * is this\n" + " */\n"

  /** The first fixture: a banner, a line comment and a block comment. */
  const Banner1: string := ("/*\n" + " * SAMPLE\n" + " * BANNER\n" + " */\n" + "\n") + Rest1
  /** The second fixture: the same behind a newline, the banner opening with "\/\*!". */
  const Banner2: string := ("\n" + "/*! SAMPLE\n" + " * BANNER */\n" + "\n") + Rest1
  /** The third fixture: a banner made of line comments. */
  const Banner3: string := ("\n" + "// This is\n" + "// A sample\n" + "// Banner\n" + "\n") + Rest3

  lemma Banner1Shape()
    ensures DefaultBanner(Banner1, 0, 24, 28) && BlockBanner(Banner1, 0, 24, 28) && Banner1[28..] == Rest1
  {
    assert forall j :: 2 <= j < 24 ==> !IsCloseAt(Banner1, j);
    assert Banner1[26] == '\n' && Banner1[27] == '\n' && Banner1[28] == '/';
  }

  /** The first fixture loses its banner with and without `block`. */
  lemma StripBanner1()
    ensures StripBanner(Banner1, Undefined) == Rest1
    ensures StripBanner(Banner1, Obj(map["block" := Bool(true)])) == Rest1
  {
    var block := Obj(map["block" := Bool(true)]);
    assert ModeOf(block) == Mode(false, true);
    Banner1Shape();
    StripDefault(Banner1, Undefined);
    StripBlock(Banner1, block);
  }

  lemma Banner2Shape()
    ensures SpaceEnd(Banner2, 0) == 1 && Banner2[1..4] == "/*!"
    ensures BlockBanner(Banner2, 1, 22, 26) && Banner2[26..] == Rest1
  {
    assert Banner2[0] == '\n' && Banner2[1] == '/';
    SpaceEndUnique(Banner2, 0, 1);
    assert forall j :: 3 <= j < 22 ==> !IsCloseAt(Banner2, j);
    assert Banner2[24] == '\n' && Banner2[25] == '\n' && Banner2[26] == '/';
  }

  /** The second fixture keeps its "\/\*!" banner unless `block` is set. */
  lemma StripBanner2()
    ensures StripBanner(Banner2, Undefined) == Banner2
    ensures StripBanner(Banner2, Obj(map["block" := Bool(true)])) == Rest1
  {
    var block := Obj(map["block" := Bool(true)]);
    assert ModeOf(block) == Mode(false, true);
    Banner2Shape();
    KeepsImportantBanner(Banner2, Undefined);
    StripBlock(Banner2, block);
  }

  lemma Banner3Lines()
    ensures CommentLines(Banner3, 1, 34) && LineEnd(Banner3, 34) == None
  {
    assert CommentLine(Banner3, 1, 12) by {
      assert Banner3[1] == '/' && Banner3[2] == '/' && Banner3[11] == '\n';
      assert forall k :: 1 <= k < 11 ==> !IsLineTerminator(Banner3[k]);
    }
    assert CommentLine(Banner3, 12, 24) by {
      assert Banner3[12] == '/' && Banner3[13] == '/' && Banner3[23] == '\n';
      assert forall k :: 12 <= k < 23 ==> !IsLineTerminator(Banner3[k]);
    }
    assert CommentLine(Banner3, 24, 34) by {
      assert Banner3[24] == '/' && Banner3[25] == '/' && Banner3[33] == '\n';
      assert forall k :: 24 <= k < 33 ==> !IsLineTerminator(Banner3[k]);
    }
    assert LineEnd(Banner3, 34) == None by {
      assert Banner3[34] == '\n';
      assert TerminatorFrom(Banner3, 34) == Some(34);
    }
    assert CommentLines(Banner3, 34, 34);
    assert CommentLines(Banner3, 24, 34);
    assert CommentLines(Banner3, 12, 34);
  }

  lemma Banner3Shape()
    ensures SpaceEnd(Banner3, 0) == 1 && Banner3[1] == '/' && Banner3[2] == '/'
    ensures LineBanner(Banner3, 1, 34, 35) && Banner3[35..] == Rest3
  {
    assert Banner3[0] == '\n' && Banner3[1] == '/' && Banner3[2] == '/';
    SpaceEndUnique(Banner3, 0, 1);
    Banner3Lines();
    assert Banner3[34] == '\n' && Banner3[35] == '/';
  }

  /** The third fixture keeps its line banner unless `line` is set. */
  lemma StripBanner3()
    ensures StripBanner(Banner3, Undefined) == Banner3
    ensures StripBanner(Banner3, Obj(map["block" := Bool(true)])) == Banner3
    ensures StripBanner(Banner3, Obj(map["line" := Bool(true)])) == Rest3
  {
    var block := Obj(map["block" := Bool(true)]);
    var line := Obj(map["line" := Bool(true)]);
    assert ModeOf(block) == Mode(false, true);
    assert ModeOf(line) == Mode(true, false);
    Banner3Shape();
    KeepsUncommentedSource(Banner3, Undefined);
    KeepsUncommentedSource(Banner3, block);
    StripLine(Banner3, line);
  }

  // ---------------------------------------------------------------------
  // parseConfig

  /** The options concat fills in. */
  const Defaults: map<string, Value> :=
    map["separator" := Str("\n"), "banner" := Str(""), "stripBanners" := Bool(false), "process" := Bool(false)]

  /** `true` for stripBanners or process stands for an empty options object. */
  function Expand(v: Value): Value {
    if v == Bool(true) then Obj(map[]) else v
  }

  /** The defaults overridden by the caller's options, key by key (lodash
      `extend`), with stripBanners and process expanded. */
  function NormalizeOptions(user: map<string, Value>): (o: map<string, Value>)
    ensures o.Keys == Defaults.Keys + user.Keys
    ensures forall k :: k in user && k != "stripBanners" && k != "process" ==> o[k] == user[k]
    ensures forall k :: k in Defaults && k !in user ==> o[k] == Defaults[k]
    ensures o["stripBanners"] != Bool(true) && o["process"] != Bool(true)
    ensures "stripBanners" in user ==> Expand(o["stripBanners"]) == Expand(user["stripBanners"])
    ensures "process" in user ==> Expand(o["process"]) == Expand(user["process"])
  {
    var merged := Defaults + user;
    merged["stripBanners" := Expand(merged["stripBanners"])]["process" := Expand(merged["process"])]
  }

  /** Normalising normalised options changes nothing. */
  lemma NormalizeIdempotent(user: map<string, Value>)
    ensures NormalizeOptions(NormalizeOptions(user)) == NormalizeOptions(user)
  {
    var o := NormalizeOptions(user);
    var oo := NormalizeOptions(o);
    assert oo.Keys == o.Keys;
    forall k | k in o ensures oo[k] == o[k] {
      if k == "stripBanners" || k == "process" {
        assert Expand(o[k]) == o[k];
      }
    }
  }

  /** parseConfig: `options` replaced by the normalised options, an absent
      `options` counting as {}; the files are untouched. */
  function ParseConfig(config: Config): (r: Sync<Config>)
    ensures r.Returned? && r.value.files == config.files && r.value.options.Some?
    ensures config.options.Some? ==> r.value.options.value == NormalizeOptions(config.options.value)
    ensures config.options.None? ==> r.value.options.value == Defaults
  {
    var user := if config.options.Some? then config.options.value else map[];
    var o := NormalizeOptions(user);
    assert config.options.None? ==> o == Defaults;
    Returned(Config(config.files, Some(o)))
  }

  // ---------------------------------------------------------------------
  // filterWrite

  /** `options[key]` for present options. */
  function Option(options: map<string, Value>, key: string): Value {
    if key in options then options[key] else Undefined
  }

  /** filterWrite as tasks/concat.js writes it. The callback handed to
      `map` reads `this.stripBanner`, and `this` is undefined in a
      strict-mode callback, so any truthy stripBanners fails as soon as
      there is a source to map. */
  function FilterWriteAsWritten(config: Config, input: seq<Value>, path: Path): (r: Completion)
    ensures r.Fulfilled? <==> config.options.Some? && (input == [] || !Truthy(Option(config.options.value, "stripBanners")))
    ensures r.Fulfilled? ==> r.value == Str(JoinWith(input, Separator(Option(config.options.value, "separator"))))
    ensures !r.Fulfilled? ==> r.Threw? && r.reason.Error? && r.reason.name == "TypeError"
  {
    match config.options
    case None => Threw(TypeError("Cannot read property 'stripBanners' of undefined"))
    case Some(options) =>
      if Truthy(Option(options, "stripBanners")) && input != [] then
        Threw(TypeError("Cannot read property 'stripBanner' of undefined"))
      else
        Fulfilled(Str(JoinWith(input, Separator(Option(options, "separator")))))
  }

  /** As written, asking for banners to be stripped fails the destination. */
  lemma StripBannersFailsAsWritten()
    ensures var config := Config(Some([]), Some(NormalizeOptions(map["stripBanners" := Bool(true)])));
      FilterWriteAsWritten(config, [Str(Banner1)], "out").Threw?
  {
  }

  /** Every source stripped with the given stripBanner options; None when a
      source is not a string (it has no `replace`). */
  function StripAll(input: seq<Value>, options: Value): (r: Option<seq<Value>>)
    ensures r.Some? <==> forall i :: 0 <= i < |input| ==> input[i].Str?
    ensures r.Some? ==>
      |r.value| == |input| && forall i :: 0 <= i < |input| ==> r.value[i] == Str(StripBanner(input[i].s, options))
    decreases |input|
  {
    if input == [] then Some([])
    else if !input[|input| - 1].Str? then None
    else match StripAll(input[..|input| - 1], options)
      case None => None
      case Some(init) => Some(init + [Str(StripBanner(input[|input| - 1].s, options))])
  }

  /** filterWrite as intended: each source stripped of its banner with the
      stripBanners options when those are truthy, then all joined with the
      separator. */
  function FilterWrite(config: Config, input: seq<Value>, path: Path): (r: Completion)
    ensures config.options.None? ==> r.Threw?
    ensures config.options.Some? && !Truthy(Option(config.options.value, "stripBanners")) ==>
      r == FilterWriteAsWritten(config, input, path)
  {
    match config.options
    case None => Threw(TypeError("Cannot read property 'stripBanners' of undefined"))
    case Some(options) =>
      var sep := Separator(Option(options, "separator"));
      var strip := Option(options, "stripBanners");
      if Truthy(strip) then
        match StripAll(input, strip)
        case None => Threw(TypeError("src.replace is not a function"))
        case Some(stripped) => Fulfilled(Str(JoinWith(stripped, sep)))
      else Fulfilled(Str(JoinWith(input, sep)))
  }

  /** For sources that are strings, filterWrite writes them, each stripped of
      its banner when stripBanners is truthy, one after the other with the
      separator between neighbours. */
  lemma FilterWriteJoins(config: Config, sources: seq<string>, path: Path)
    requires config.options.Some?
    ensures var options := config.options.value; var strip := Option(options, "stripBanners");
      var pieces := if Truthy(strip) then seq(|sources|, i requires 0 <= i < |sources| => StripBanner(sources[i], strip))
                    else sources;
      FilterWrite(config, Strings(sources), path) == Fulfilled(Str(Interleave(pieces, Separator(Option(options, "separator")))))
  {
    var options := config.options.value;
    var strip := Option(options, "stripBanners");
    var sep := Separator(Option(options, "separator"));
    if Truthy(strip) {
      var pieces := seq(|sources|, i requires 0 <= i < |sources| => StripBanner(sources[i], strip));
      var stripped := StripAll(Strings(sources), strip);
      assert stripped.Some?;
      assert stripped.value == Strings(pieces);
      JoinStrings(pieces, sep);
    } else {
      JoinStrings(sources, sep);
    }
  }

  // ---------------------------------------------------------------------
  // The task

  /** The members tasks/concat.js hands to Task.create, with filterWrite as
      written: a truthy stripBanners fails every destination that has a
      source. stripBanner is a member too, but the engine never looks it up.
      The engine finds concat's own parseConfig and filterWrite, and the
      defaults for every other hook. */
  function Fragment(): (m: Members)
    ensures TypeOf(m) == Str(FILEWRITER) && "method" !in m
    ensures ParseConfigOf(m) == ParseConfig && FilterWriteOf(m) == FilterWriteAsWritten
    ensures SetupOf(m) == DoNothing && TeardownOf(m) == DoNothing
    ensures IterateFileOf(m) == VisitNothing && FilterReadOf(m) == DefaultFilterRead
  {
    map[
      "name" := Data(Str("concat")),
      "description" := Data(Str("Concatenate files.")),
      "type" := Data(Str(FILEWRITER)),
      "parseConfig" := Fn(ParseConfigHook(ParseConfig)),
      "filterWrite" := Fn(FilterWriteHook(FilterWriteAsWritten))]
  }

  /** The same task with the corrected filterWrite, which strips banners. */
  function CorrectedFragment(): (m: Members)
    ensures TypeOf(m) == Str(FILEWRITER) && "method" !in m
    ensures ParseConfigOf(m) == ParseConfig && FilterWriteOf(m) == FilterWrite
    ensures SetupOf(m) == DoNothing && TeardownOf(m) == DoNothing
    ensures IterateFileOf(m) == VisitNothing && FilterReadOf(m) == DefaultFilterRead
  {
    Fragment()["filterWrite" := Fn(FilterWriteHook(FilterWrite))]
  }

  /** concat.run with options { stripBanners: true } over files { out: [a] }:
      filterWrite throws inside the destination's continuation, the rejection
      reaches `exception`, and run resolves to undefined having written
      nothing and without calling teardown. */
  lemma ConcatStripBannersWritesNothing(store: map<Path, string>)
    requires "a" in store
    ensures var config := Config(Some([FileGroup("out", Many(["a"]))]), Some(map["stripBanners" := Bool(true)]));
      var x := RunSpec(Fragment(), store, config);
      x.store == store && x.outcome == Resolved(Undefined) && TaskLaws.Only(x.events, {"teardown"}) == []
  {
    var m := Fragment();
    var g := FileGroup("out", Many(["a"]));
    var config := Config(Some([g]), Some(map["stripBanners" := Bool(true)]));
    var c := ParseConfig(config).value;
    assert "method" !in m && TypeOf(m) == Str(FILEWRITER);
    assert ParseConfigOf(m) == ParseConfig && SetupOf(m) == DoNothing;
    assert Truthy(Option(c.options.value, "stripBanners"));
    StripBannersDestination(store, c, g);
    TaskLaws.OneDestinationRejectedRun(m, store, config, c, g);
  }

  /** With the corrected filterWrite, the same run over the first banner
      fixture writes the fixture without its banner. */
  lemma CorrectedStripsBanner()
    ensures var store := map["a" := Banner1];
      var config := Config(Some([FileGroup("out", Many(["a"]))]), Some(map["stripBanners" := Bool(true)]));
      var x := RunSpec(CorrectedFragment(), store, config);
      x.store == store["out" := Rest1] && x.outcome == Resolved(Undefined)
  {
    var m := CorrectedFragment();
    var store := map["a" := Banner1];
    var g := FileGroup("out", Many(["a"]));
    var config := Config(Some([g]), Some(map["stripBanners" := Bool(true)]));
    var c := ParseConfig(config).value;
    assert "method" !in m && TypeOf(m) == Str(FILEWRITER);
    assert ParseConfigOf(m) == ParseConfig && SetupOf(m) == DoNothing && TeardownOf(m) == DoNothing;
    assert Option(c.options.value, "stripBanners") == Obj(map[]);
    CorrectedBannerDestination(store, c, g);
    TaskLaws.OneDestinationRun(m, store, config, c, g);
  }

  /** The corrected destination over the first fixture stores it without its banner. */
  lemma CorrectedBannerDestination(store: map<Path, string>, c: Config, g: FileGroup)
    requires store == map["a" := Banner1] && g == FileGroup("out", Many(["a"]))
    requires c.options.Some? && Option(c.options.value, "stripBanners") == Obj(map[])
    ensures var y := ProcessGroup(CorrectedFragment(), store, c, g);
      y.store == store["out" := Rest1] && y.outcome == Returned(Fulfilled(Bool(true)))
  {
    var m := CorrectedFragment();
    CorrectedBannerReads(store, c, g);
    TaskLaws.WriterDestination(m, store, c, g);
    CorrectedBannerWrite(c, g.dest);
  }

  /** The corrected task reads the first fixture unchanged. */
  lemma CorrectedBannerReads(store: map<Path, string>, c: Config, g: FileGroup)
    requires store == map["a" := Banner1] && g == FileGroup("out", Many(["a"]))
    ensures forall i :: 0 <= i < |Sources(g.input)| ==> TaskLaws.SourceReads(CorrectedFragment(), store, c, Sources(g.input)[i])
    ensures Values(FileSetRun(CorrectedFragment(), store, c, g.input).entries) == Strings([Banner1])
  {
    var m := CorrectedFragment();
    assert Sources(g.input) == ["a"];
    assert StripBom(Banner1) == Banner1;
    assert TaskLaws.SourceReads(m, store, c, "a");
    TaskLaws.WriterReads(m, store, c, g);
    var contents := Values(FileSetRun(m, store, c, g.input).entries);
    assert contents == Strings([Banner1]) by {
      assert Fulfilled(contents[0]) == DefaultFilterRead(c, Str(Banner1), "a");
    }
  }

  /** The corrected filterWrite over the first fixture alone gives it
      without its banner. */
  lemma CorrectedBannerWrite(c: Config, path: Path)
    requires c.options.Some? && Option(c.options.value, "stripBanners") == Obj(map[])
    ensures FilterWrite(c, Strings([Banner1]), path) == Fulfilled(Str(Rest1))
  {
    FilterWriteJoins(c, [Banner1], path);
    StripBanner1Default();
    var pieces := seq(1, i requires 0 <= i < 1 => StripBanner([Banner1][i], Obj(map[])));
    assert pieces == [Rest1];
    assert Interleave([Rest1], Separator(Option(c.options.value, "separator"))) == Rest1;
  }

  /** The first fixture loses its banner under stripBanners' own default, {}. */
  lemma StripBanner1Default()
    ensures StripBanner(Banner1, Obj(map[])) == Rest1
  {
    assert ModeOf(Obj(map[])) == Mode(false, false);
    Banner1Shape();
    StripDefault(Banner1, Obj(map[]));
  }

  /** A destination with one existing source under a truthy stripBanners
      rejects and leaves the store as it was. */
  lemma StripBannersDestination(store: map<Path, string>, c: Config, g: FileGroup)
    requires "a" in store && g == FileGroup("out", Many(["a"]))
    requires c.options.Some? && Truthy(Option(c.options.value, "stripBanners"))
    ensures var y := ProcessGroup(Fragment(), store, c, g);
      y.store == store && y.outcome.Returned? && y.outcome.value.Rejected?
  {
    var m := Fragment();
    assert TypeOf(m) == Str(FILEWRITER) && FilterWriteOf(m) == FilterWriteAsWritten;
    assert FilterReadOf(m) == DefaultFilterRead && IterateFileOf(m) == VisitNothing;
    assert Sources(g.input) == ["a"];
    assert TaskLaws.SourceReads(m, store, c, "a");
    TaskLaws.WriterDestination(m, store, c, g);
  }

  /** concat.run over files { out: [a, b] } holding "X" and "Y", with no
      options, writes "X\nY": the default separator is a newline. */
  lemma ConcatJoinsWithNewline()
    ensures var store := map["a" := "X", "b" := "Y"];
      var config := Config(Some([FileGroup("out", Many(["a", "b"]))]), None);
      var x := RunSpec(Fragment(), store, config);
      x.store == store["out" := "X\nY"] && x.outcome == Resolved(Undefined)
  {
    var store := map["a" := "X", "b" := "Y"];
    var g := FileGroup("out", Many(["a", "b"]));
    var config := Config(Some([g]), None);
    ConcatOneDestination(store, config, g, "\n", "X\nY");
  }

  /** The same with options { separator: ': ' } writes "X: Y". */
  lemma ConcatJoinsWithSeparator()
    ensures var store := map["a" := "X", "b" := "Y"];
      var config := Config(Some([FileGroup("out", Many(["a", "b"]))]), Some(map["separator" := Str(": ")]));
      var x := RunSpec(Fragment(), store, config);
      x.store == store["out" := "X: Y"] && x.outcome == Resolved(Undefined)
  {
    var store := map["a" := "X", "b" := "Y"];
    var g := FileGroup("out", Many(["a", "b"]));
    var config := Config(Some([g]), Some(map["separator" := Str(": ")]));
    ConcatOneDestination(store, config, g, ": ", "X: Y");
  }

  /** The options concat works with when the caller gives none or only a separator. */
  lemma ParsedSeparator(config: Config, sep: string)
    requires config.options == None || config.options == Some(map["separator" := Str(sep)])
    requires config.options == None ==> sep == "\n"
    ensures var options := ParseConfig(config).value.options.value;
      Option(options, "separator") == Str(sep) && !Truthy(Option(options, "stripBanners"))
  {
  }

  lemma ConcatDestination(store: map<Path, string>, c: Config, g: FileGroup, sep: string)
    requires store == map["a" := "X", "b" := "Y"] && g == FileGroup("out", Many(["a", "b"]))
    requires c.options.Some? && Option(c.options.value, "separator") == Str(sep)
    requires !Truthy(Option(c.options.value, "stripBanners"))
    ensures var y := ProcessGroup(Fragment(), store, c, g);
      y.store == store["out" := "X" + sep + "Y"] && y.outcome == Returned(Fulfilled(Bool(true)))
  {
    var m := Fragment();
    assert TypeOf(m) == Str(FILEWRITER) && FilterWriteOf(m) == FilterWriteAsWritten;
    ConcatReads(store, c, g);
    TaskLaws.WriterDestination(m, store, c, g);
    FilterWriteJoins(c, ["X", "Y"], g.dest);
    assert Interleave(["X", "Y"], sep) == "X" + sep + "Y";
  }

  /** concat reads a and b unchanged, in declared order. */
  lemma ConcatReads(store: map<Path, string>, c: Config, g: FileGroup)
    requires store == map["a" := "X", "b" := "Y"] && g == FileGroup("out", Many(["a", "b"]))
    ensures forall i :: 0 <= i < |Sources(g.input)| ==> TaskLaws.SourceReads(Fragment(), store, c, Sources(g.input)[i])
    ensures Values(FileSetRun(Fragment(), store, c, g.input).entries) == Strings(["X", "Y"])
  {
    var m := Fragment();
    assert TypeOf(m) == Str(FILEWRITER) && FilterReadOf(m) == DefaultFilterRead;
    var ps := Sources(g.input);
    assert ps == ["a", "b"];
    assert StripBom("X") == "X" && StripBom("Y") == "Y";
    assert TaskLaws.SourceReads(m, store, c, ps[0]) && TaskLaws.SourceReads(m, store, c, ps[1]);
    TaskLaws.WriterReads(m, store, c, g);
    var contents := Values(FileSetRun(m, store, c, g.input).entries);
    assert contents == [Str("X"), Str("Y")] by {
      assert Fulfilled(contents[0]) == DefaultFilterRead(c, Str("X"), "a");
      assert Fulfilled(contents[1]) == DefaultFilterRead(c, Str("Y"), "b");
    }
  }

  lemma ConcatOneDestination(store: map<Path, string>, config: Config, g: FileGroup, sep: string, out: string)
    requires store == map["a" := "X", "b" := "Y"] && g == FileGroup("out", Many(["a", "b"])) && config.files == Some([g])
    requires config.options == None || config.options == Some(map["separator" := Str(sep)])
    requires config.options == None ==> sep == "\n"
    requires out == "X" + sep + "Y"
    ensures var x := RunSpec(Fragment(), store, config);
      x.store == store["out" := out] && x.outcome == Resolved(Undefined)
  {
    var m := Fragment();
    var c := ParseConfig(config).value;
    assert "method" !in m && TypeOf(m) == Str(FILEWRITER);
    assert ParseConfigOf(m) == ParseConfig;
    assert SetupOf(m) == DoNothing && TeardownOf(m) == DoNothing;
    ParsedSeparator(config, sep);
    ConcatDestination(store, c, g, sep);
    TaskLaws.OneDestinationRun(m, store, config, c, g);
  }
}
