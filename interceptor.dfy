/** The text logic of the payload that runs inside each sandbox before the
    user's code: how intercepted console arguments become one message, the
    record posted to the host, and the text reported for uncaught errors and
    unhandled rejections. */
module Interceptor {
  import opened JsValues

  /** `parts.join(' ')`. */
  function Join(parts: seq<string>): (s: string)
    ensures |parts| == 0 ==> s == ""
    ensures |parts| == 1 ==> s == parts[0]
  {
    if |parts| == 0 then ""
    else if |parts| == 1 then parts[0]
    else parts[0] + " " + Join(parts[1..])
  }

  /** The joined text holds every part and one space between neighbours. */
  lemma {:induction false} JoinLength(parts: seq<string>)
    requires |parts| > 0
    ensures |Join(parts)| == SumLengths(parts) + |parts| - 1
  {
    if |parts| > 1 {
      JoinLength(parts[1..]);
    }
  }

  function SumLengths(parts: seq<string>): nat {
    if |parts| == 0 then 0 else |parts[0]| + SumLengths(parts[1..])
  }

  /** The message is empty exactly when there is no argument, or a single
      argument that renders empty: two or more arguments always leave a space. */
  lemma {:induction false} JoinEmpty(parts: seq<string>)
    ensures Join(parts) == "" <==> |parts| == 0 || (|parts| == 1 && parts[0] == "")
  {
    if |parts| > 1 {
      assert |Join(parts)| >= 1;
    }
  }

  /** Index of the first space of a text that holds one. */
  function FirstSpace(s: string): (i: nat)
    requires ' ' in s
    ensures i < |s| && s[i] == ' ' && ' ' !in s[..i]
  {
    if s[0] == ' ' then 0
    else
      var j := FirstSpace(s[1..]);
      assert s[1..][..j] == s[1..j + 1];
      assert s[..j + 1] == [s[0]] + s[1..j + 1];
      j + 1
  }

  /** `s.split(' ')`: the pieces between single spaces, in order. */
  function Split(s: string): (parts: seq<string>)
    ensures |parts| > 0
    ensures forall k :: 0 <= k < |parts| ==> ' ' !in parts[k]
    decreases |s|
  {
    if ' ' in s then
      var i := FirstSpace(s);
      [s[..i]] + Split(s[i + 1..])
    else [s]
  }

  /** Splitting a joined message at its spaces gives back the renderings,
      provided none of them holds a space itself. */
  lemma {:induction false} SplitJoin(parts: seq<string>)
    requires |parts| > 0
    requires forall k :: 0 <= k < |parts| ==> ' ' !in parts[k]
    ensures Split(Join(parts)) == parts
  {
    if |parts| > 1 {
      var s := Join(parts);
      var p := parts[0];
      assert s == p + " " + Join(parts[1..]);
      assert s[|p|] == ' ';
      assert s[..|p|] == p;
      var i := FirstSpace(s);
      assert i == |p|;
      assert s[i + 1..] == Join(parts[1..]);
      SplitJoin(parts[1..]);
      assert parts == [p] + parts[1..];
    }
  }

  /** Joining the pieces of a split restores the text. */
  lemma {:induction false} JoinSplit(s: string)
    ensures Join(Split(s)) == s
    decreases |s|
  {
    if ' ' in s {
      var i := FirstSpace(s);
      var head, tail := s[..i], s[i + 1..];
      var rest := Split(tail);
      JoinSplit(tail);
      var parts := [head] + rest;
      assert Split(s) == parts;
      assert parts[1..] == rest;
      assert Join(parts) == head + " " + Join(rest);
      assert s == head + " " + tail;
    }
  }

  /** The renderings of the arguments, in order. */
  function Renderings(args: seq<JsValue>, r: Render): (texts: seq<string>)
    ensures |texts| == |args|
    ensures forall k :: 0 <= k < |args| ==> texts[k] == Format(args[k], r)
  {
    seq(|args|, k requires 0 <= k < |args| => Format(args[k], r))
  }

  /** The record the payload posts to the host for one intercepted call. */
  datatype Posted = Posted(kind: string, level: string, message: string, side: string)

  const CONSOLE := "console"

  /** `sendMessage(level, args)` in the sandbox for `side`. */
  function Message(level: string, args: seq<JsValue>, side: string, r: Render): (p: Posted)
    ensures p.kind == CONSOLE && p.level == level && p.side == side
    ensures p.message == Join(Renderings(args, r))
  {
    Posted(CONSOLE, level, Join(Renderings(args, r)), side)
  }

  /** Arguments whose renderings hold no space can be read back, one per
      argument and in order, from the posted message. */
  lemma MessageRecoversArguments(level: string, args: seq<JsValue>, side: string, r: Render)
    requires |args| > 0
    requires forall k :: 0 <= k < |args| ==> ' ' !in Format(args[k], r)
    ensures Split(Message(level, args, side, r).message) == Renderings(args, r)
  {
    SplitJoin(Renderings(args, r));
  }

  // ----- uncaught errors and unhandled rejections ---------------------------

  /** What an `error` event carries about the thrown value, when it is truthy. */
  datatype ErrorObject = ErrorObject(stack: JsValue, message: JsValue)

  /** The `error` event: the thrown value if any, the event's own message text
      and its line number. */
  datatype ErrorEvent = ErrorEvent(error: Option<ErrorObject>, message: string, lineno: nat)

  /** Decimal digits of a natural number, as `String(n)` prints it. */
  function Decimal(n: nat): (s: string)
    ensures |s| > 0
    ensures forall k :: 0 <= k < |s| ==> '0' <= s[k] <= '9'
    ensures n > 0 ==> s[0] != '0'
    ensures |s| > 1 ==> s[0] != '0'
  {
    if n < 10 then [Digit(n)] else Decimal(n / 10) + [Digit(n % 10)]
  }

  function Digit(d: nat): (c: char)
    requires d < 10
    ensures '0' <= c <= '9'
  {
    ['0', '1', '2', '3', '4', '5', '6', '7', '8', '9'][d]
  }

  function DigitValue(c: char): nat
    requires '0' <= c <= '9'
  {
    c as int - '0' as int
  }

  /** The number a text of digits denotes. */
  function ParseDecimal(s: string): nat
    requires forall k :: 0 <= k < |s| ==> '0' <= s[k] <= '9'
  {
    if |s| == 0 then 0 else ParseDecimal(s[..|s| - 1]) * 10 + DigitValue(s[|s| - 1])
  }

  /** The line number can be read back from its text. */
  lemma {:induction false} DecimalRoundTrip(n: nat)
    ensures ParseDecimal(Decimal(n)) == n
  {
    var s := Decimal(n);
    if n < 10 {
      assert DigitValue(Digit(n)) == n;
      assert s[..0] == [];
    } else {
      DecimalRoundTrip(n / 10);
      assert s[..|s| - 1] == Decimal(n / 10);
      assert DigitValue(Digit(n % 10)) == n % 10;
    }
  }

  /** The single argument the `error` trap reports: the thrown value's stack
      if truthy, else its message; without a thrown value, the event message
      and line. */
  function RuntimeErrorArgument(e: ErrorEvent): (v: JsValue)
    ensures e.error.Some? && Truthy(e.error.value.stack) ==> v == e.error.value.stack
    ensures e.error.Some? && !Truthy(e.error.value.stack) ==> v == e.error.value.message
    ensures e.error.None? ==> v == Text(e.message + " (Line " + Decimal(e.lineno) + ")")
  {
    match e.error
    case Some(err) => if Truthy(err.stack) then err.stack else err.message
    case None => Text(e.message + " (Line " + Decimal(e.lineno) + ")")
  }

  /** The record the `error` trap posts. */
  function RuntimeErrorMessage(e: ErrorEvent, side: string, r: Render): (p: Posted)
    ensures p.kind == CONSOLE && p.level == "error" && p.side == side
    ensures p.message == Format(RuntimeErrorArgument(e), r)
  {
    Message("error", [RuntimeErrorArgument(e)], side, r)
  }

  /** The reported text starts with the event message and ends with the line
      number when no thrown value is present; otherwise it is the rendering of
      the stack, or of the message when the stack is falsy. */
  lemma RuntimeErrorText(e: ErrorEvent, side: string, r: Render)
    ensures var t := RuntimeErrorMessage(e, side, r).message;
      && (e.error.None? ==> t == e.message + " (Line " + Decimal(e.lineno) + ")")
      && (e.error.Some? && Truthy(e.error.value.stack) ==> t == Format(e.error.value.stack, r))
      && (e.error.Some? && !Truthy(e.error.value.stack) ==> t == Format(e.error.value.message, r))
      && RuntimeErrorMessage(e, side, r).level == "error"
  {
    assert Renderings([RuntimeErrorArgument(e)], r) == [Format(RuntimeErrorArgument(e), r)];
  }

  const REJECTION_LABEL := "Unhandled Promise Rejection:"

  /** The record the `unhandledrejection` trap posts for `reason`. */
  function RejectionMessage(reason: JsValue, side: string, r: Render): (p: Posted)
    ensures p.kind == CONSOLE && p.level == "error" && p.side == side
    ensures p.message == REJECTION_LABEL + " " + Format(reason, r)
  {
    Message("error", [Text(REJECTION_LABEL), reason], side, r)
  }

  /** The rejection text is the label, one space, and the rendered reason. */
  lemma RejectionText(reason: JsValue, side: string, r: Render)
    ensures RejectionMessage(reason, side, r).message == REJECTION_LABEL + " " + Format(reason, r)
    ensures RejectionMessage(reason, side, r).level == "error"
  {
    var texts := Renderings([Text(REJECTION_LABEL), reason], r);
    assert texts == [REJECTION_LABEL, Format(reason, r)];
    assert texts[1..] == [Format(reason, r)];
  }
}
