/** The execution engine: the relay that filters messages posted by the
    sandboxes and forwards them to the recorder, one sandbox slot per side with
    replace-not-accumulate, and the guarded run cycle, written as a state
    machine whose steps end at the points where the source awaits. */
module Engine {
  import opened JsValues
  import opened ConsoleOut
  import Interceptor

  // ----- the relay -----------------------------------------------------------

  /** `event.data` of an inbound message: a falsy value, or a value with the
      four properties the relay reads (Undefined where one is missing). */
  datatype InboundData =
    | Falsy
    | Fields(kind: JsValue, level: JsValue, message: JsValue, side: JsValue)

  /** The levels the sandbox payload reports. */
  const LEVELS: set<string> := {"log", "error", "warn", "info"}

  /** The relay's shape check: a present value of type 'console' with a truthy
      level, a truthy message and one of the two side tokens. */
  predicate Accepts(d: InboundData)
    ensures Accepts(d) ==> d.Fields? && d.kind == Text(Interceptor.CONSOLE)
    ensures Accepts(d) ==> Truthy(d.level) && Truthy(d.message)
    ensures Accepts(d) ==> d.side.Text? && d.side.s in {VANILLA, LIBRARY}
    ensures (d.Fields? && d.kind == Text(Interceptor.CONSOLE) && Truthy(d.level) &&
             Truthy(d.message) && (d.side == Text(VANILLA) || d.side == Text(LIBRARY))) ==> Accepts(d)
  {
    if d.Falsy? || d.kind != Text(Interceptor.CONSOLE) then false
    else Truthy(d.level) && Truthy(d.message) && (d.side == Text(VANILLA) || d.side == Text(LIBRARY))
  }

  /** The relay calls the recorder method the level names; only the four
      reported levels are modelled. */
  predicate LevelModelled(d: InboundData) {
    d.Fields? && d.level.Text? && d.level.s in LEVELS
  }

  /** The entry the relay's call `consoleOutput[level](message, side)` records
      as written: for 'log' the side lands in the type parameter and the side
      takes its default. */
  function DispatchAsWritten(d: InboundData): (e: Entry)
    requires Accepts(d) && LevelModelled(d)
    ensures d.level.s == "log" ==> e == Line(d.message, d.side.s, VANILLA)
    ensures d.level.s != "log" ==> e == Line(d.message, d.level.s, d.side.s)
  {
    if d.level.s == "log" then Line(d.message, d.side.s, VANILLA)
    else Line(d.message, d.level.s, d.side.s)
  }

  /** A 'log' posted by the library sandbox is recorded as type 'library' on
      the vanilla side. */
  lemma LibraryLogMisattributed()
    ensures var d := Fields(Text("console"), Text("log"), Text("y"), Text(LIBRARY));
      Accepts(d) && LevelModelled(d) && DispatchAsWritten(d) == Line(Text("y"), LIBRARY, VANILLA)
  {
  }

  /** The entry as intended: the reported level and the reported side. */
  function Dispatch(d: InboundData): (e: Entry)
    requires Accepts(d) && LevelModelled(d)
    ensures e.Line? && e.message == d.message && e.kind == d.level.s && Text(e.side) == d.side
  {
    Line(d.message, d.level.s, d.side.s)
  }

  /** The correction changes only the 'log' level. */
  lemma DispatchAgrees(d: InboundData)
    requires Accepts(d) && LevelModelled(d)
    ensures d.level.s != "log" <==> DispatchAsWritten(d) == Dispatch(d)
  {
  }

  /** What one inbound message adds to the recorder, as the listener is
      written. */
  function RelayAsWritten(d: InboundData): (entries: seq<Entry>)
    requires Accepts(d) ==> LevelModelled(d)
    ensures |entries| <= 1
    ensures entries == [] <==> !Accepts(d)
    ensures entries != [] ==> entries[0] == DispatchAsWritten(d)
  {
    if Accepts(d) then [DispatchAsWritten(d)] else []
  }

  /** What one inbound message adds to the recorder with the corrected dispatch. */
  function Relay(d: InboundData): (entries: seq<Entry>)
    requires Accepts(d) ==> LevelModelled(d)
    ensures |entries| <= 1
    ensures entries == [] <==> !Accepts(d)
    ensures entries != [] ==> entries[0] == Dispatch(d)
  {
    if Accepts(d) then [Dispatch(d)] else []
  }

  /** The listener forwards exactly the well-shaped messages, each as one
      line. A 'log' line carries the side token as its type and the default
      side; every other level keeps the reported level and side. */
  lemma RelayForwards(d: InboundData)
    requires Accepts(d) ==> LevelModelled(d)
    ensures RelayAsWritten(d) != [] <==>
      && d.Fields?
      && d.kind == Text("console")
      && Truthy(d.level)
      && Truthy(d.message)
      && d.side in {Text(VANILLA), Text(LIBRARY)}
    ensures RelayAsWritten(d) != [] && d.level.s == "log" ==>
      RelayAsWritten(d) == [Line(d.message, d.side.s, VANILLA)]
    ensures RelayAsWritten(d) != [] && d.level.s != "log" ==>
      RelayAsWritten(d) == [Line(d.message, d.level.s, d.side.s)]
  {
  }

  /** The corrected relay records the same as the listener except on an
      accepted 'log', and there it restores the reported level and side. */
  lemma RelayAgrees(d: InboundData)
    requires Accepts(d) ==> LevelModelled(d)
    ensures Relay(d) == RelayAsWritten(d) <==> !(Accepts(d) && d.level.s == "log")
    ensures Relay(d) != [] ==> Relay(d) == [Line(d.message, d.level.s, d.side.s)]
  {
    if Accepts(d) {
      DispatchAgrees(d);
    }
  }

  /** Every accepted message of a stream names one of the modelled levels. */
  predicate AllModelled(inbox: seq<InboundData>) {
    forall k :: 0 <= k < |inbox| ==> (Accepts(inbox[k]) ==> LevelModelled(inbox[k]))
  }

  /** What a sequence of inbound messages adds, in arrival order, as the
      listener is written. */
  function RelayAll(inbox: seq<InboundData>): seq<Entry>
    requires AllModelled(inbox)
  {
    if |inbox| == 0 then [] else RelayAll(inbox[..|inbox| - 1]) + RelayAsWritten(inbox[|inbox| - 1])
  }

  /** The types the listener as written can record: the three non-log levels
      and, for a 'log', the side token. */
  const RECORDED_KINDS: set<string> := {"error", "warn", "info", VANILLA, LIBRARY}

  /** Every line the listener records names one of the two sides, and there
      is at most one line per message. No line has type 'log': a log line's
      type is a side token, and its side is always 'vanilla'. */
  lemma {:induction false} RelayAllShape(inbox: seq<InboundData>)
    requires AllModelled(inbox)
    ensures |RelayAll(inbox)| <= |inbox|
    ensures forall k :: 0 <= k < |RelayAll(inbox)| ==>
      RelayAll(inbox)[k].Line? && RelayAll(inbox)[k].side in {VANILLA, LIBRARY} &&
      RelayAll(inbox)[k].kind in RECORDED_KINDS
    ensures forall k :: 0 <= k < |RelayAll(inbox)| && RelayAll(inbox)[k].kind in {VANILLA, LIBRARY} ==>
      RelayAll(inbox)[k].side == VANILLA
  {
    if |inbox| > 0 {
      RelayAllShape(inbox[..|inbox| - 1]);
    }
  }

  /** A stream of messages none of which passes the check leaves the recorder as it was. */
  lemma {:induction false} RelayAllRejects(inbox: seq<InboundData>)
    requires forall k :: 0 <= k < |inbox| ==> !Accepts(inbox[k])
    ensures RelayAll(inbox) == []
  {
    if |inbox| > 0 {
      RelayAllRejects(inbox[..|inbox| - 1]);
    }
  }

  /** A record posted by a sandbox payload, as the host receives it. */
  function Delivered(p: Interceptor.Posted): (d: InboundData)
    ensures d.Fields? && d.kind == Text(p.kind) && d.message == Text(p.message)
  {
    Fields(Text(p.kind), Text(p.level), Text(p.message), Text(p.side))
  }

  /** End to end: an intercepted call in a sandbox with a recognised side
      becomes one recorded line holding its joined text, unless that text is
      empty. An error, warn or info line keeps its level and side; a log line
      gets the side token as its type and the side 'vanilla'. */
  lemma InterceptedCallRecorded(level: string, args: seq<JsValue>, side: string, r: Render)
    requires level in LEVELS && side in {VANILLA, LIBRARY}
    ensures var p := Interceptor.Message(level, args, side, r);
      RelayAsWritten(Delivered(p)) ==
        if p.message == "" then []
        else if level == "log" then [Line(Text(p.message), side, VANILLA)]
        else [Line(Text(p.message), level, side)]
  {
  }

  /** A call with no arguments posts an empty text, which the relay drops. */
  lemma EmptyCallDropped(level: string, side: string, r: Render)
    requires level in LEVELS
    ensures RelayAsWritten(Delivered(Interceptor.Message(level, [], side, r))) == []
  {
  }

  /** A sandbox whose side token is neither of the two is never heard. */
  lemma ForeignSideDropped(level: string, args: seq<JsValue>, side: string, r: Render)
    requires side != VANILLA && side != LIBRARY
    ensures !Accepts(Delivered(Interceptor.Message(level, args, side, r)))
  {
  }

  // ----- sandboxes and the run cycle -----------------------------------------

  /** An opaque sandbox (iframe) identity; handles are issued in increasing order. */
  type Handle = nat

  /** What a sandbox was loaded with: its side token and the user's code. */
  datatype Launch = Launch(side: string, code: string)

  /** Where `runBoth` is suspended, with the locals it has computed so far. */
  datatype Phase =
    | Idle
    | AwaitingVanilla(libraryCode: string, vanillaStart: real)
    | CoolingDown(libraryCode: string, vanillaTime: real)
    | AwaitingLibrary(vanillaTime: real, libraryStart: real)
    | Draining(vanillaTime: real, libraryTime: real)

  function SlotSet(a: Option<Handle>, b: Option<Handle>): (s: set<Handle>)
    ensures forall h :: h in s <==> a == Some(h) || b == Some(h)
  {
    (if a.Some? then {a.value} else {}) + (if b.Some? then {b.value} else {})
  }

  function ExecutionError(message: string): (t: string)
    ensures |t| == |"Execution error: "| + |message|
    ensures t[..|"Execution error: "|] == "Execution error: " && t[|"Execution error: "|..] == message
  {
    "Execution error: " + message
  }

  class Playground {
    const console: ConsoleOutput
    var vanillaIframe: Option<Handle>
    var libraryIframe: Option<Handle>
    var isRunning: bool
    /** The sandboxes attached to the page. */
    var live: set<Handle>
    /** Every sandbox created so far, with what it was loaded with. */
    var sandboxes: map<Handle, Launch>
    var nextHandle: Handle
    var phase: Phase

    /** One attached sandbox at most per side, each loaded for its side. */
    ghost predicate SlotsValid()
      reads this
    {
      && (forall h :: h in sandboxes ==> h < nextHandle)
      && live == SlotSet(vanillaIframe, libraryIframe)
      && live <= sandboxes.Keys
      && (vanillaIframe.Some? ==> sandboxes[vanillaIframe.value].side == VANILLA)
      && (libraryIframe.Some? ==> sandboxes[libraryIframe.value].side != VANILLA)
    }

    /** The slots are consistent, a cycle is running exactly while `runBoth`
        is suspended, and the measured durations are not negative. */
    ghost predicate Valid()
      reads this
    {
      && SlotsValid()
      && (isRunning <==> !phase.Idle?)
      && (phase.CoolingDown? ==> phase.vanillaTime >= 0.0)
      && (phase.AwaitingLibrary? ==> phase.vanillaTime >= 0.0)
      && (phase.Draining? ==> phase.vanillaTime >= 0.0 && phase.libraryTime >= 0.0)
    }

    constructor (consoleOutput: ConsoleOutput)
      ensures Valid() && console == consoleOutput
      ensures vanillaIframe == None && libraryIframe == None && !isRunning
      ensures live == {} && sandboxes == map[] && phase == Idle
    {
      console := consoleOutput;
      vanillaIframe, libraryIframe := None, None;
      isRunning := false;
      live, sandboxes, nextHandle := {}, map[], 0;
      phase := Idle;
    }

    /** `destroyIframe`: detaches a sandbox; a missing or already detached one is left alone. */
    method DestroyIframe(iframe: Option<Handle>)
      modifies this`live
      ensures iframe.Some? ==> live == old(live) - {iframe.value}
      ensures iframe.None? || iframe.value !in old(live) ==> live == old(live)
    {
      if iframe.Some? && iframe.value in live {
        live := live - {iframe.value};
      }
    }

    /** The synchronous part of `executeCode`: a fresh sandbox loaded with the
        payload for `side` and the code replaces the one in that side's slot
        (any side other than 'vanilla' uses the library slot). */
    method ExecuteCode(code: string, side: string := VANILLA) returns (h: Handle)
      requires SlotsValid()
      modifies this`live, this`sandboxes, this`nextHandle, this`vanillaIframe, this`libraryIframe
      ensures SlotsValid()
      ensures h == old(nextHandle) && h !in old(sandboxes) && nextHandle == h + 1
      ensures sandboxes == old(sandboxes)[h := Launch(side, code)]
      ensures side == VANILLA ==> vanillaIframe == Some(h) && libraryIframe == old(libraryIframe)
      ensures side != VANILLA ==> libraryIframe == Some(h) && vanillaIframe == old(vanillaIframe)
      ensures side == VANILLA ==> live == old(live) - SlotSet(old(vanillaIframe), None) + {h}
      ensures side != VANILLA ==> live == old(live) - SlotSet(old(libraryIframe), None) + {h}
    {
      h := nextHandle;
      nextHandle := nextHandle + 1;
      live := live + {h};
      if side == VANILLA {
        DestroyIframe(vanillaIframe);
        vanillaIframe := Some(h);
      } else {
        DestroyIframe(libraryIframe);
        libraryIframe := Some(h);
      }
      sandboxes := sandboxes[h := Launch(side, code)];
    }

    /** The listener's body for one inbound message: the recorder method the
        level names, called with (message, side). */
    method OnMessage(d: InboundData)
      requires Accepts(d) ==> LevelModelled(d)
      modifies console
      ensures console.messages == old(console.messages) + RelayAsWritten(d)
    {
      if !Accepts(d) {
        return;
      }
      var message, level, side := d.message, d.level.s, d.side.s;
      if level == "log" {
        console.Log(message, side);
      } else if level == "error" {
        console.Error(message, side);
      } else if level == "warn" {
        console.Warn(message, side);
      } else {
        console.Info(message, side);
      }
    }

    /** The messages that arrive while `runBoth` is suspended, in order. */
    method Deliver(inbox: seq<InboundData>)
      requires AllModelled(inbox)
      modifies console
      ensures console.messages == old(console.messages) + RelayAll(inbox)
    {
      var i := 0;
      while i < |inbox|
        invariant 0 <= i <= |inbox|
        invariant console.messages == old(console.messages) + RelayAll(inbox[..i])
      {
        OnMessage(inbox[i]);
        assert inbox[..i + 1][..i] == inbox[..i];
        i := i + 1;
      }
      assert inbox[..i] == inbox;
    }

    /** `runBoth` up to its first await: refused while a cycle is running;
        otherwise marks the cycle running, clears the recorder, reads the
        clock and starts the vanilla sandbox. `fault` is the message of an
        exception thrown while starting it, which ends the cycle at once. */
    method RunBoth(vanillaCode: string, libraryCode: string, now: real, fault: Option<string>)
      requires Valid()
      modifies this, console
      ensures Valid()
      ensures old(isRunning) ==> unchanged(this) && console.messages == old(console.messages)
      ensures !old(isRunning) && fault.None? ==>
        && isRunning && phase == AwaitingVanilla(libraryCode, now)
        && nextHandle == old(nextHandle) + 1
        && console.messages == []
        && vanillaIframe == Some(old(nextHandle)) && libraryIframe == old(libraryIframe)
        && sandboxes == old(sandboxes)[old(nextHandle) := Launch(VANILLA, vanillaCode)]
        && live == old(live) - SlotSet(old(vanillaIframe), None) + {old(nextHandle)}
      ensures !old(isRunning) && fault.Some? ==>
        && !isRunning && phase == Idle
        && console.messages == [Line(Text(ExecutionError(fault.value)), "error", VANILLA)]
        && vanillaIframe == old(vanillaIframe) && libraryIframe == old(libraryIframe)
        && live == old(live) && sandboxes == old(sandboxes) && nextHandle == old(nextHandle)
    {
      if isRunning {
        // The warning goes to the browser's own console, not to the recorder.
        return;
      }
      isRunning := true;
      console.Clear();
      if fault.Some? {
        console.Error(Text(ExecutionError(fault.value)));
        isRunning := false;
        return;
      }
      var _ := ExecuteCode(vanillaCode, VANILLA);
      phase := AwaitingVanilla(libraryCode, now);
    }

    /** Resumption after the vanilla settle delay: the vanilla duration is
        the clock difference, then the cooldown delay starts. */
    method ResumeAfterVanilla(now: real)
      requires Valid() && phase.AwaitingVanilla? && now >= phase.vanillaStart
      modifies this`phase
      ensures Valid()
      ensures phase == CoolingDown(old(phase).libraryCode, now - old(phase).vanillaStart)
    {
      phase := CoolingDown(phase.libraryCode, now - phase.vanillaStart);
    }

    /** Resumption after the cooldown: reads the clock and starts the library
        sandbox; a fault while starting it records the execution error and
        ends the cycle. */
    method ResumeAfterCooldown(now: real, fault: Option<string>)
      requires Valid() && phase.CoolingDown?
      modifies this, console
      ensures Valid()
      ensures fault.None? ==>
        && isRunning && phase == AwaitingLibrary(old(phase).vanillaTime, now)
        && nextHandle == old(nextHandle) + 1
        && console.messages == old(console.messages)
        && libraryIframe == Some(old(nextHandle)) && vanillaIframe == old(vanillaIframe)
        && sandboxes == old(sandboxes)[old(nextHandle) := Launch(LIBRARY, old(phase).libraryCode)]
        && live == old(live) - SlotSet(old(libraryIframe), None) + {old(nextHandle)}
      ensures fault.Some? ==>
        && !isRunning && phase == Idle
        && console.messages == old(console.messages) + [Line(Text(ExecutionError(fault.value)), "error", VANILLA)]
        && vanillaIframe == old(vanillaIframe) && libraryIframe == old(libraryIframe)
        && live == old(live) && sandboxes == old(sandboxes) && nextHandle == old(nextHandle)
    {
      if fault.Some? {
        console.Error(Text(ExecutionError(fault.value)));
        isRunning := false;
        phase := Idle;
        return;
      }
      var vanillaTime, libraryCode := phase.vanillaTime, phase.libraryCode;
      var _ := ExecuteCode(libraryCode, LIBRARY);
      phase := AwaitingLibrary(vanillaTime, now);
    }

    /** Resumption after the library settle delay: the library duration, then
        the drain delay starts. */
    method ResumeAfterLibrary(now: real)
      requires Valid() && phase.AwaitingLibrary? && now >= phase.libraryStart
      modifies this`phase
      ensures Valid()
      ensures phase == Draining(old(phase).vanillaTime, now - old(phase).libraryStart)
    {
      phase := Draining(phase.vanillaTime, now - phase.libraryStart);
    }

    /** Resumption after the drain delay: appends the comparison of the two
        durations and ends the cycle. */
    method ResumeAfterDrain()
      requires Valid() && phase.Draining?
      modifies this`phase, this`isRunning, console
      ensures Valid() && !isRunning && phase == Idle
      ensures console.messages ==
        old(console.messages) + [Entry.Performance(Compare(old(phase).vanillaTime, old(phase).libraryTime))]
    {
      console.Performance(phase.vanillaTime, phase.libraryTime);
      isRunning := false;
      phase := Idle;
    }

    /** `cleanup`: both slots emptied and their sandboxes detached. */
    method Cleanup()
      requires Valid()
      modifies this`live, this`vanillaIframe, this`libraryIframe
      ensures Valid()
      ensures vanillaIframe == None && libraryIframe == None && live == {}
    {
      DestroyIframe(vanillaIframe);
      DestroyIframe(libraryIframe);
      vanillaIframe := None;
      libraryIframe := None;
    }

    /** `reset`: cleanup, then an empty recorder. */
    method Reset()
      requires Valid()
      modifies this`live, this`vanillaIframe, this`libraryIframe, console
      ensures Valid()
      ensures vanillaIframe == None && libraryIframe == None && live == {}
      ensures console.messages == []
    {
      Cleanup();
      console.Clear();
    }

    /** The vanilla half of a fault-free cycle: `runBoth` up to its first
        await, the messages that arrive during the settle delay, the
        measurement, and the messages that arrive during the cooldown. */
    method VanillaStage(vanillaCode: string, libraryCode: string, start: real, end: real,
                        settling: seq<InboundData>, cooling: seq<InboundData>)
      requires Valid() && !isRunning && start <= end
      requires AllModelled(settling) && AllModelled(cooling)
      modifies this, console
      ensures Valid() && phase == CoolingDown(libraryCode, end - start)
      ensures console.messages == RelayAll(settling) + RelayAll(cooling)
      ensures vanillaIframe == Some(old(nextHandle)) && libraryIframe == old(libraryIframe)
      ensures sandboxes == old(sandboxes)[old(nextHandle) := Launch(VANILLA, vanillaCode)]
      ensures live == old(live) - SlotSet(old(vanillaIframe), None) + {old(nextHandle)}
      ensures nextHandle == old(nextHandle) + 1
    {
      RunBoth(vanillaCode, libraryCode, start, None);
      Deliver(settling);
      ResumeAfterVanilla(end);
      Deliver(cooling);
    }

    /** The library half of a fault-free cycle, from the end of the cooldown:
        the library start, the messages during its settle delay, the
        measurement, the messages during the drain, and the comparison. */
    method LibraryStage(start: real, end: real, settling: seq<InboundData>, draining: seq<InboundData>)
      requires Valid() && phase.CoolingDown? && start <= end
      requires AllModelled(settling) && AllModelled(draining)
      modifies this, console
      ensures Valid() && !isRunning && phase == Idle
      ensures console.messages == old(console.messages) + RelayAll(settling) + RelayAll(draining) +
        [Entry.Performance(Compare(old(phase).vanillaTime, end - start))]
      ensures libraryIframe == Some(old(nextHandle)) && vanillaIframe == old(vanillaIframe)
      ensures sandboxes == old(sandboxes)[old(nextHandle) := Launch(LIBRARY, old(phase).libraryCode)]
      ensures live == old(live) - SlotSet(old(libraryIframe), None) + {old(nextHandle)}
      ensures nextHandle == old(nextHandle) + 1
    {
      ghost var before := console.messages;
      ghost var vanillaTime := phase.vanillaTime;
      ResumeAfterCooldown(start, None);
      assert phase == AwaitingLibrary(vanillaTime, start) && console.messages == before;
      Deliver(settling);
      ResumeAfterLibrary(end);
      assert phase == Draining(vanillaTime, end - start);
      Deliver(draining);
      assert console.messages == before + RelayAll(settling) + RelayAll(draining);
      ResumeAfterDrain();
    }

    /** A whole cycle without faults: the four clock readings at the measured
        points and the messages delivered at each of the four suspensions.
        The recorder ends with those messages in arrival order followed by one
        comparison; vanilla's sandbox is created before library's. */
    method CompleteCycle(vanillaCode: string, libraryCode: string,
                         clock: seq<real>, inbox: seq<seq<InboundData>>)
      requires Valid() && !isRunning
      requires |clock| == 4 && clock[0] <= clock[1] && clock[2] <= clock[3]
      requires |inbox| == 4
      requires AllModelled(inbox[0]) && AllModelled(inbox[1]) && AllModelled(inbox[2]) && AllModelled(inbox[3])
      modifies this, console
      ensures Valid() && !isRunning && phase == Idle
      ensures console.messages ==
        RelayAll(inbox[0]) + RelayAll(inbox[1]) + RelayAll(inbox[2]) + RelayAll(inbox[3]) +
        [Entry.Performance(Compare(clock[1] - clock[0], clock[3] - clock[2]))]
      ensures vanillaIframe == Some(old(nextHandle)) && libraryIframe == Some(old(nextHandle) + 1)
      ensures sandboxes == old(sandboxes)[old(nextHandle) := Launch(VANILLA, vanillaCode)]
                                         [old(nextHandle) + 1 := Launch(LIBRARY, libraryCode)]
      ensures live == {old(nextHandle), old(nextHandle) + 1} && nextHandle == old(nextHandle) + 2
    {
      VanillaStage(vanillaCode, libraryCode, clock[0], clock[1], inbox[0], inbox[1]);
      LibraryStage(clock[2], clock[3], inbox[2], inbox[3]);
    }
  }
}
