/** The application shell around the engine: the run gate on blank editors,
    loading a pattern, and choosing the initial state from a share link, the
    autosave or the first pattern. The editors are their text contents; the
    share link and the autosave are inputs already read and decoded. */
module Application {
  import opened JsValues
  import opened ConsoleOut
  import Engine

  /** A catalogue entry; only the fields the shell reads. */
  datatype Pattern = Pattern(id: string, title: string, vanillaCode: string, libraryCode: string)

  // ----- blank code ----------------------------------------------------------

  /** The characters `String.prototype.trim` removes: white space and line
      terminators. */
  const WHITESPACE: set<char> := {
    '\t', '\n', '\U{B}', '\U{C}', '\r', ' ', '\U{A0}', '\U{1680}',
    '\U{2000}', '\U{2001}', '\U{2002}', '\U{2003}', '\U{2004}', '\U{2005}',
    '\U{2006}', '\U{2007}', '\U{2008}', '\U{2009}', '\U{200A}',
    '\U{2028}', '\U{2029}', '\U{202F}', '\U{205F}', '\U{3000}', '\U{FEFF}'}

  predicate IsSpace(c: char) {
    c in WHITESPACE
  }

  /** Drops leading white space: what is left is a suffix starting with a
      non-space, and everything dropped was white space. */
  function TrimStart(s: string): (t: string)
    ensures |t| <= |s| && t == s[|s| - |t|..]
    ensures t != "" ==> !IsSpace(t[0])
    ensures forall k :: 0 <= k < |s| - |t| ==> IsSpace(s[k])
  {
    if s != "" && IsSpace(s[0]) then
      var t := TrimStart(s[1..]);
      assert s[1..][|s| - 1 - |t|..] == s[|s| - |t|..];
      t
    else s
  }

  /** Drops trailing white space: a prefix ending with a non-space. */
  function TrimEnd(s: string): (t: string)
    ensures |t| <= |s| && t == s[..|t|]
    ensures t != "" ==> !IsSpace(t[|t| - 1])
    ensures forall k :: |t| <= k < |s| ==> IsSpace(s[k])
  {
    if s != "" && IsSpace(s[|s| - 1]) then
      var t := TrimEnd(s[..|s| - 1]);
      assert s[..|s| - 1][..|t|] == s[..|t|];
      t
    else s
  }

  /** `trim()`: leading and then trailing white space dropped. */
  function Trim(s: string): (t: string)
    ensures |t| <= |s|
    ensures t != "" ==> !IsSpace(t[|t| - 1])
  {
    TrimEnd(TrimStart(s))
  }

  /** `t` is the slice of `s` starting at `i`, with white space all around it
      in `s` and none at either of its own ends. */
  predicate TrimmedSlice(s: string, i: int, t: string) {
    && 0 <= i <= |s| - |t| && t == s[i..i + |t|]
    && (forall k :: 0 <= k < i ==> IsSpace(s[k]))
    && (forall k :: i + |t| <= k < |s| ==> IsSpace(s[k]))
    && (t != "" ==> !IsSpace(t[0]) && !IsSpace(t[|t| - 1]))
  }

  /** `trim()` leaves a contiguous piece of the text, with no white space at
      either end, and everything dropped around it is white space. */
  lemma TrimShape(s: string)
    ensures TrimmedSlice(s, |s| - |TrimStart(s)|, Trim(s))
  {
    TrimPieces(s, TrimStart(s), Trim(s));
  }

  /** Trailing white space cut from a text whose leading white space is
      already cut: the rest is a slice of the original, with white space all
      around it and none at its ends. */
  lemma TrimPieces(s: string, u: string, t: string)
    requires |u| <= |s| && u == s[|s| - |u|..]
    requires forall k :: 0 <= k < |s| - |u| ==> IsSpace(s[k])
    requires u != "" ==> !IsSpace(u[0])
    requires |t| <= |u| && t == u[..|t|]
    requires forall k :: |t| <= k < |u| ==> IsSpace(u[k])
    requires t != "" ==> !IsSpace(t[|t| - 1])
    ensures TrimmedSlice(s, |s| - |u|, t)
  {
    var i := |s| - |u|;
    forall k | i + |t| <= k < |s|
      ensures IsSpace(s[k])
    {
      assert s[k] == u[k - i];
    }
    if t != "" {
      assert t[0] == u[0];
    }
  }

  /** `!code.trim()`. */
  predicate Blank(s: string)
    ensures s == "" ==> Blank(s)
    ensures Blank(s) ==> forall k :: 0 <= k < |s| ==> IsSpace(s[k])
  {
    Trim(s) == ""
  }

  /** A text is blank exactly when every character of it is white space. */
  lemma BlankIffAllSpace(s: string)
    ensures Blank(s) <==> forall k :: 0 <= k < |s| ==> IsSpace(s[k])
  {
    var u := TrimStart(s);
    if !Blank(s) && u != "" {
      assert !IsSpace(s[|s| - |u|]);
    }
  }

  // ----- pattern lookup ------------------------------------------------------

  /** Index of the first pattern whose id is `id` (`patterns.find`); an absent
      id, as a missing property in the stored state, matches nothing. */
  function FindIndex(patterns: seq<Pattern>, id: Option<string>): (r: Option<nat>)
    ensures r.Some? ==> r.value < |patterns| && Some(patterns[r.value].id) == id
    ensures r.Some? ==> forall j :: 0 <= j < r.value ==> Some(patterns[j].id) != id
    ensures r.None? ==> forall j :: 0 <= j < |patterns| ==> Some(patterns[j].id) != id
  {
    if |patterns| == 0 then None
    else if Some(patterns[0].id) == id then Some(0)
    else
      match FindIndex(patterns[1..], id)
      case Some(k) => Some(k + 1)
      case None => None
  }

  function Find(patterns: seq<Pattern>, id: Option<string>): (p: Option<Pattern>)
    ensures p.Some? ==> p.value in patterns && Some(p.value.id) == id
    ensures p.Some? ==>
      exists k :: 0 <= k < |patterns| && patterns[k] == p.value &&
        (forall j :: 0 <= j < k ==> Some(patterns[j].id) != id)
    ensures p.None? <==> forall j :: 0 <= j < |patterns| ==> Some(patterns[j].id) != id
  {
    match FindIndex(patterns, id)
    case Some(k) => Some(patterns[k])
    case None => None
  }

  // ----- share links and autosave ----------------------------------------------

  /** `compressCode`: the identity, kept as a seam for a real compressor. */
  function Compress(code: string): (c: string)
    ensures |c| == |code|
    ensures forall k :: 0 <= k < |code| ==> c[k] == code[k]
  {
    code
  }

  /** `decompressCode`: the identity as well. */
  function Decompress(code: string): (c: string)
    ensures |c| == |code|
    ensures forall k :: 0 <= k < |code| ==> c[k] == code[k]
  {
    code
  }

  lemma DecompressCompress(code: string)
    ensures Decompress(Compress(code)) == code
  {
  }

  /** The state an autosave holds, after parsing. */
  datatype SavedState = SavedState(patternId: Option<string>, vanillaCode: string, libraryCode: string)

  /** What storage yields: nothing (or an empty text), text that does not
      parse, or a parsed state. */
  datatype Stored = NothingStored | Unparsable | Saved(state: SavedState)

  /** The state a share link holds, after decoding. */
  datatype SharedState = SharedState(p: Option<string>, v: string, l: string)

  /** The `code` query parameter: absent (or empty), not decodable, or decoded. */
  datatype UrlCode = NoCode | Undecodable | Decoded(state: SharedState)

  /** The pattern a share link loads, if any. */
  function UrlMatch(patterns: seq<Pattern>, url: UrlCode): Option<Pattern> {
    if url.Decoded? then Find(patterns, url.state.p) else None
  }

  /** The pattern an autosave loads, if any. */
  function AutoSaveMatch(patterns: seq<Pattern>, stored: Stored): Option<Pattern> {
    if stored.Saved? then Find(patterns, stored.state.patternId) else None
  }

  datatype Source = FromUrl | FromAutoSave | FromDefault

  /** `loadInitialState`'s priority: the link, then the autosave, then the
      first pattern. */
  function InitialSource(urlLoads: bool, autoSaveLoads: bool): (s: Source)
    ensures s == FromUrl <==> urlLoads
    ensures s == FromAutoSave <==> !urlLoads && autoSaveLoads
    ensures s == FromDefault <==> !urlLoads && !autoSaveLoads
  {
    if urlLoads then FromUrl else if autoSaveLoads then FromAutoSave else FromDefault
  }

  /** The pattern current after start-up. */
  function InitialPattern(patterns: seq<Pattern>, url: UrlCode, stored: Stored): (p: Pattern)
    requires |patterns| > 0
    ensures p in patterns
  {
    match InitialSource(UrlMatch(patterns, url).Some?, AutoSaveMatch(patterns, stored).Some?)
    case FromUrl => UrlMatch(patterns, url).value
    case FromAutoSave => AutoSaveMatch(patterns, stored).value
    case FromDefault => patterns[0]
  }

  /** A link that names a known pattern wins whatever the autosave holds; the
      first pattern is used only when neither names a known pattern. */
  lemma InitialPatternPriority(patterns: seq<Pattern>, url: UrlCode, stored: Stored)
    requires |patterns| > 0
    ensures UrlMatch(patterns, url).Some? ==>
      InitialPattern(patterns, url, stored) == UrlMatch(patterns, url).value
    ensures UrlMatch(patterns, url).None? && AutoSaveMatch(patterns, stored).Some? ==>
      InitialPattern(patterns, url, stored) == AutoSaveMatch(patterns, stored).value
    ensures UrlMatch(patterns, url).Some? ==>
      InitialPattern(patterns, url, stored) == InitialPattern(patterns, url, NothingStored)
    ensures UrlMatch(patterns, url).None? && AutoSaveMatch(patterns, stored).None? ==>
      InitialPattern(patterns, url, stored) == patterns[0]
    ensures url.NoCode? && stored.NothingStored? ==> InitialPattern(patterns, url, stored) == patterns[0]
  {
  }

  // ----- the shell -------------------------------------------------------------

  const NO_CODE := "No code to execute"

  class App {
    const console: ConsoleOutput
    const playground: Engine.Playground
    const patterns: seq<Pattern>
    var currentPattern: Option<Pattern>
    /** The two editors' contents. */
    var vanillaCode: string
    var libraryCode: string

    ghost predicate Valid()
      reads this, playground
    {
      playground.Valid() && playground.console == console && |patterns| > 0
    }

    /** `runCode`'s gate: both editors blank after trimming. */
    predicate NothingToRun()
      reads this
      ensures vanillaCode == "" && libraryCode == "" ==> NothingToRun()
    {
      Blank(vanillaCode) && Blank(libraryCode)
    }

    /** The gate holds exactly when both editors hold nothing but white space. */
    lemma NothingToRunIffAllSpace()
      ensures NothingToRun() <==>
        (forall k :: 0 <= k < |vanillaCode| ==> IsSpace(vanillaCode[k])) &&
        (forall k :: 0 <= k < |libraryCode| ==> IsSpace(libraryCode[k]))
    {
      BlankIffAllSpace(vanillaCode);
      BlankIffAllSpace(libraryCode);
    }

    /** The components wired together, before any state is loaded. */
    constructor (catalogue: seq<Pattern>)
      requires |catalogue| > 0
      ensures Valid() && fresh(console) && fresh(playground)
      ensures patterns == catalogue && currentPattern == None
      ensures vanillaCode == "" && libraryCode == ""
      ensures console.messages == [] && !playground.isRunning
    {
      var c := new ConsoleOutput();
      console := c;
      playground := new Engine.Playground(c);
      patterns := catalogue;
      currentPattern := None;
      vanillaCode, libraryCode := "", "";
    }

    /** `loadPattern`: the pattern becomes current, its code fills the
        editors and the recorder is cleared. */
    method LoadPattern(pattern: Pattern)
      requires Valid()
      modifies this`currentPattern, this`vanillaCode, this`libraryCode, console
      ensures Valid()
      ensures currentPattern == Some(pattern)
      ensures vanillaCode == pattern.vanillaCode && libraryCode == pattern.libraryCode
      ensures console.messages == []
    {
      currentPattern := Some(pattern);
      vanillaCode, libraryCode := pattern.vanillaCode, pattern.libraryCode;
      console.Clear();
    }

    /** `resetToPattern`: reloads the current pattern, if there is one. */
    method ResetToPattern()
      requires Valid()
      modifies this`currentPattern, this`vanillaCode, this`libraryCode, console
      ensures Valid()
      ensures old(currentPattern).None? ==>
        unchanged(this) && console.messages == old(console.messages)
      ensures old(currentPattern).Some? ==>
        && currentPattern == old(currentPattern)
        && vanillaCode == currentPattern.value.vanillaCode
        && libraryCode == currentPattern.value.libraryCode
        && console.messages == []
    {
      if currentPattern.Some? {
        LoadPattern(currentPattern.value);
      }
    }

    /** `runCode`, up to the first suspension of the cycle it starts: two
        blank editors produce one warning in an empty recorder and no run;
        otherwise the cycle starts with the editors' texts as they are. */
    method RunCode(now: real, fault: Option<string>)
      requires Valid()
      modifies console, playground
      ensures Valid()
      ensures NothingToRun() ==>
        && console.messages == [Line(Text(NO_CODE), "warn", VANILLA)]
        && unchanged(playground)
      ensures !NothingToRun() && old(playground.isRunning) ==>
        unchanged(playground) && console.messages == old(console.messages)
      ensures !NothingToRun() && !old(playground.isRunning) && fault.None? ==>
        && playground.phase == Engine.AwaitingVanilla(libraryCode, now)
        && playground.vanillaIframe == Some(old(playground.nextHandle))
        && playground.sandboxes ==
             old(playground.sandboxes)[old(playground.nextHandle) := Engine.Launch(VANILLA, vanillaCode)]
        && playground.isRunning
        && playground.libraryIframe == old(playground.libraryIframe)
        && playground.nextHandle == old(playground.nextHandle) + 1
        && playground.live ==
             old(playground.live) - Engine.SlotSet(old(playground.vanillaIframe), None) + {old(playground.nextHandle)}
        && console.messages == []
      ensures !NothingToRun() && !old(playground.isRunning) && fault.Some? ==>
        && !playground.isRunning && playground.phase == Engine.Idle
        && playground.vanillaIframe == old(playground.vanillaIframe)
        && playground.libraryIframe == old(playground.libraryIframe)
        && playground.live == old(playground.live)
        && playground.sandboxes == old(playground.sandboxes)
        && playground.nextHandle == old(playground.nextHandle)
        && console.messages == [Line(Text(Engine.ExecutionError(fault.value)), "error", VANILLA)]
    {
      if NothingToRun() {
        console.Clear();
        console.Warn(Text(NO_CODE), VANILLA);
        return;
      }
      ghost var gate := NothingToRun();
      playground.RunBoth(vanillaCode, libraryCode, now, fault);
      // The editors are not engine state, so the gate is unchanged.
      assert NothingToRun() == gate;
    }

    /** `loadFromAutoSave`: succeeds exactly when a parsed state names a known
        pattern; only then are the pattern and the editors replaced, with the
        saved code rather than the pattern's. */
    method LoadFromAutoSave(stored: Stored) returns (loaded: bool)
      requires Valid()
      modifies this`currentPattern, this`vanillaCode, this`libraryCode
      ensures Valid()
      ensures loaded <==> AutoSaveMatch(patterns, stored).Some?
      ensures !loaded ==> unchanged(this)
      ensures loaded ==>
        && currentPattern == AutoSaveMatch(patterns, stored)
        && vanillaCode == stored.state.vanillaCode && libraryCode == stored.state.libraryCode
    {
      if !stored.Saved? {
        return false;
      }
      var pattern := Find(patterns, stored.state.patternId);
      if pattern.None? {
        return false;
      }
      currentPattern := pattern;
      vanillaCode, libraryCode := stored.state.vanillaCode, stored.state.libraryCode;
      return true;
    }

    /** `loadFromURL`: as the autosave, from a share link's state. */
    method LoadFromURL(url: UrlCode) returns (loaded: bool)
      requires Valid()
      modifies this`currentPattern, this`vanillaCode, this`libraryCode
      ensures Valid()
      ensures loaded <==> UrlMatch(patterns, url).Some?
      ensures !loaded ==> unchanged(this)
      ensures loaded ==>
        && currentPattern == UrlMatch(patterns, url)
        && vanillaCode == url.state.v && libraryCode == url.state.l
    {
      if !url.Decoded? {
        return false;
      }
      var pattern := Find(patterns, url.state.p);
      if pattern.None? {
        return false;
      }
      currentPattern := pattern;
      vanillaCode, libraryCode := Decompress(url.state.v), Decompress(url.state.l);
      return true;
    }

    /** `loadInitialState`: the pattern chosen by the priority, with the
        link's or the autosave's code, or the first pattern with its own code
        and a cleared recorder. */
    method LoadInitialState(url: UrlCode, stored: Stored)
      requires Valid()
      modifies this`currentPattern, this`vanillaCode, this`libraryCode, console
      ensures Valid()
      ensures currentPattern == Some(InitialPattern(patterns, url, stored))
      ensures match InitialSource(UrlMatch(patterns, url).Some?, AutoSaveMatch(patterns, stored).Some?)
        case FromUrl =>
          vanillaCode == url.state.v && libraryCode == url.state.l &&
          console.messages == old(console.messages)
        case FromAutoSave =>
          vanillaCode == stored.state.vanillaCode && libraryCode == stored.state.libraryCode &&
          console.messages == old(console.messages)
        case FromDefault =>
          vanillaCode == patterns[0].vanillaCode && libraryCode == patterns[0].libraryCode &&
          console.messages == []
    {
      var fromUrl := LoadFromURL(url);
      if fromUrl {
        return;
      }
      var fromAutoSave := LoadFromAutoSave(stored);
      if fromAutoSave {
        return;
      }
      LoadPattern(patterns[0]);
    }
  }
}
