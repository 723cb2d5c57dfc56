/** The output recorder: an ordered list of console lines and performance
    summaries, the comparison record, and the kind-to-icon/class helpers. */
module ConsoleOut {
  import opened JsValues

  const VANILLA := "vanilla"
  const LIBRARY := "library"

  /** The percentage slot of a comparison: a finite number, or what
      `Math.abs` makes of a division by a zero library time. */
  datatype Ratio = Finite(value: real) | Infinity | NaN

  datatype Comparison = Comparison(
    vanillaTime: real,
    libraryTime: real,
    diff: real,
    percentage: Ratio,
    faster: string)

  /** One recorded message. A console line carries its raw message value, its
      `type` (named `kind` here) and its side; a performance entry carries the
      comparison and no side. */
  datatype Entry =
    | Line(message: JsValue, kind: string, side: string)
    | Performance(summary: Comparison)

  function Abs(x: real): (a: real)
    ensures a >= 0.0 && (a == x || a == -x)
  {
    if x < 0.0 then -x else x
  }

  /** `Math.abs(Number(x.toFixed(1)))` for the magnitude y = |x|: the multiple
      of one tenth nearest to y, the larger one on a tie. */
  function RoundToTenth(y: real): (t: real)
    requires y >= 0.0
    ensures t >= 0.0
    ensures y - 0.05 < t <= y + 0.05
    ensures (t * 10.0).Floor as real == t * 10.0
  {
    ((y * 10.0 + 0.5).Floor as real) / 10.0
  }

  /** The rounding picks a nearest tenth: no multiple of one tenth is closer. */
  lemma RoundToTenthNearest(y: real, m: int)
    requires y >= 0.0
    ensures Abs(RoundToTenth(y) - y) <= Abs(m as real / 10.0 - y)
  {
    var n := (y * 10.0 + 0.5).Floor;
    assert RoundToTenth(y) == n as real / 10.0;
    if m < n {
      assert m as real <= n as real - 1.0;
    } else if m > n {
      assert m as real >= n as real + 1.0;
    }
  }

  /** Percentage of the time difference relative to the library time, as the
      summary stores it: rounded to one decimal and made non-negative. A zero
      library time gives Infinity, or NaN when both times are zero. */
  function Percentage(vanillaTime: real, libraryTime: real): (p: Ratio)
    ensures libraryTime != 0.0 <==> p.Finite?
    ensures p.Finite? ==>
      Abs(p.value - Abs(libraryTime - vanillaTime) / Abs(libraryTime) * 100.0) <= 0.05
    ensures p.Finite? ==> p.value >= 0.0
    ensures p.Finite? ==> p.value == RoundToTenth(Abs(libraryTime - vanillaTime) / Abs(libraryTime) * 100.0)
    ensures libraryTime == 0.0 ==> (p.NaN? <==> vanillaTime == 0.0)
  {
    if libraryTime != 0.0 then
      var exact := Abs((libraryTime - vanillaTime) / libraryTime * 100.0);
      RelativeMagnitude(libraryTime - vanillaTime, libraryTime);
      Finite(RoundToTenth(exact))
    else if vanillaTime == 0.0 then NaN
    else Infinity
  }

  lemma RelativeMagnitude(d: real, l: real)
    requires l != 0.0
    ensures Abs(d / l * 100.0) == Abs(d) / Abs(l) * 100.0
  {
    var q := d / l;
    assert d == q * l;
    assert Abs(d) == Abs(q) * Abs(l) by {
      if q < 0.0 && l < 0.0 { assert (-q) * (-l) == q * l; }
      else if q < 0.0 { assert (-q) * l == -(q * l); }
      else if l < 0.0 { assert q * (-l) == -(q * l); }
    }
    var m := Abs(l);
    assert m > 0.0;
    assert (Abs(q) * m) / m == Abs(q);
  }

  /** The record `performance(vanillaTime, libraryTime)` appends. */
  function Compare(vanillaTime: real, libraryTime: real): (c: Comparison)
    ensures c.vanillaTime == vanillaTime && c.libraryTime == libraryTime
    ensures c.diff == Abs(libraryTime - vanillaTime)
    ensures c.percentage == Percentage(vanillaTime, libraryTime)
    ensures c.faster == VANILLA <==> vanillaTime < libraryTime
    ensures c.faster == LIBRARY <==> libraryTime <= vanillaTime
  {
    Comparison(
      vanillaTime,
      libraryTime,
      Abs(libraryTime - vanillaTime),
      Percentage(vanillaTime, libraryTime),
      if vanillaTime < libraryTime then VANILLA else LIBRARY)
  }

  /** The difference does not depend on the argument order, and the side
      named faster changes with the order exactly when the times differ. */
  lemma CompareSwapped(v: real, l: real)
    ensures Compare(v, l).diff == Compare(l, v).diff
    ensures v != l ==> Compare(v, l).faster != Compare(l, v).faster
    ensures v == l ==> Compare(v, l).faster == LIBRARY == Compare(l, v).faster
  {
  }

  /** The percentage is relative to the library time only: swapping the two
      times changes it. */
  lemma PercentageOrderMatters()
    ensures Percentage(10.0, 20.0) == Finite(50.0)
    ensures Percentage(20.0, 10.0) == Finite(100.0)
  {
    assert (500.0 + 0.5).Floor == 500;
    assert (1000.0 + 0.5).Floor == 1000;
  }

  /** A run of 10 ms against 20 ms: vanilla faster by 10 ms, 50 percent. */
  lemma CompareExample()
    ensures Compare(10.0, 20.0) == Comparison(10.0, 20.0, 10.0, Finite(50.0), VANILLA)
  {
    PercentageOrderMatters();
  }

  // ----- icons and classes -------------------------------------------------

  // The icon literals exactly as the source file holds them: each is the
  // UTF-8 encoding of an emoji read back as Windows-1252 text.
  const LOG_ICON := "\U{F0}\U{178}\U{201C}"
  const ERROR_ICON := "\U{E2}\U{152}"
  const WARN_ICON := "\U{E2}\U{161}\U{A0}\U{EF}\U{B8}"
  const INFO_ICON := "\U{E2}\U{201E}\U{B9}\U{EF}\U{B8}"
  const PERFORMANCE_ICON := "\U{E2}\U{161}\U{A1}"

  const ICONS: map<string, string> := map[
    "log" := LOG_ICON,
    "error" := ERROR_ICON,
    "warn" := WARN_ICON,
    "info" := INFO_ICON,
    "performance" := PERFORMANCE_ICON]

  /** The names every plain object inherits from `Object.prototype`; looking
      one of them up in an object literal finds a (truthy) inherited member. */
  const OBJECT_PROTOTYPE_NAMES: set<string> := {
    "constructor", "hasOwnProperty", "isPrototypeOf", "propertyIsEnumerable",
    "toLocaleString", "toString", "valueOf", "__proto__",
    "__defineGetter__", "__defineSetter__", "__lookupGetter__", "__lookupSetter__"}

  /** What `icons[kind] || fallback` yields in the code as written. */
  datatype IconLookup = Icon(text: string) | InheritedMember(name: string)

  function TypeIconAsWritten(kind: string): (r: IconLookup)
    ensures kind in ICONS ==> r == Icon(ICONS[kind])
    ensures kind !in ICONS && kind in OBJECT_PROTOTYPE_NAMES ==> r == InheritedMember(kind)
    ensures kind !in ICONS && kind !in OBJECT_PROTOTYPE_NAMES ==> r == Icon(LOG_ICON)
  {
    if kind in ICONS then Icon(ICONS[kind])
    else if kind in OBJECT_PROTOTYPE_NAMES then InheritedMember(kind)
    else Icon(LOG_ICON)
  }

  /** The as-written lookup does not fall back for an inherited name. */
  lemma TypeIconInheritsPrototype()
    ensures TypeIconAsWritten("constructor") != Icon(LOG_ICON)
    ensures TypeIconAsWritten("toString").InheritedMember?
  {
  }

  /** The icon lookup as intended: the table's own entries, else the log icon. */
  function TypeIcon(kind: string): (icon: string)
    ensures kind in ICONS ==> icon == ICONS[kind]
    ensures kind !in ICONS ==> icon == LOG_ICON
  {
    if kind in ICONS then ICONS[kind] else LOG_ICON
  }

  /** The intended lookup agrees with the written one on every name that is
      not inherited, so it changes only the prototype-name case. */
  lemma TypeIconAgrees(kind: string)
    ensures kind !in OBJECT_PROTOTYPE_NAMES ==> TypeIconAsWritten(kind) == Icon(TypeIcon(kind))
    ensures kind in OBJECT_PROTOTYPE_NAMES ==> TypeIcon(kind) == LOG_ICON
  {
  }

  const CLASS_PREFIX := "console-"

  /** `getTypeClass`: the kind behind a fixed prefix, so the kind can be read
      back from the class. */
  function TypeClass(kind: string): (c: string)
    ensures |c| == |CLASS_PREFIX| + |kind|
    ensures c[..|CLASS_PREFIX|] == CLASS_PREFIX && c[|CLASS_PREFIX|..] == kind
  {
    CLASS_PREFIX + kind
  }

  lemma TypeClassInjective(t1: string, t2: string)
    requires TypeClass(t1) == TypeClass(t2)
    ensures t1 == t2
  {
    assert t1 == TypeClass(t1)[|CLASS_PREFIX|..];
  }

  // ----- the recorder ------------------------------------------------------

  /** `ConsoleOutput`: the message list; rendering into the page is not
      modelled, and entries carry no timestamp. */
  class ConsoleOutput {
    var messages: seq<Entry>

    constructor ()
      ensures messages == []
    {
      messages := [];
    }

    /** `clear`: afterwards the list is empty, so a second call changes nothing. */
    method Clear()
      modifies this
      ensures messages == []
    {
      messages := [];
    }

    /** `log`: one entry at the end, earlier entries untouched. */
    method Log(message: JsValue, kind: string := "log", side: string := VANILLA)
      modifies this
      ensures messages == old(messages) + [Line(message, kind, side)]
    {
      messages := messages + [Line(message, kind, side)];
    }

    method Error(message: JsValue, side: string := VANILLA)
      modifies this
      ensures messages == old(messages) + [Line(message, "error", side)]
    {
      Log(message, "error", side);
    }

    method Warn(message: JsValue, side: string := VANILLA)
      modifies this
      ensures messages == old(messages) + [Line(message, "warn", side)]
    {
      Log(message, "warn", side);
    }

    method Info(message: JsValue, side: string := VANILLA)
      modifies this
      ensures messages == old(messages) + [Line(message, "info", side)]
    {
      Log(message, "info", side);
    }

    /** `performance`: one summary entry at the end. */
    method Performance(vanillaTime: real, libraryTime: real)
      modifies this
      ensures messages == old(messages) + [Entry.Performance(Compare(vanillaTime, libraryTime))]
    {
      messages := messages + [Entry.Performance(Compare(vanillaTime, libraryTime))];
    }
  }
}
