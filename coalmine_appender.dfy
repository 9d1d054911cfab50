/** The Logback appender: which logging events reach Coalmine, the severity
    they are reported with, the notification built from an event, and the
    connector the appender starts. */
module LogbackAppender {
  import opened Wrappers
  import opened Text
  import opened Notifications
  import opened Connectors
  import opened Transport
  import opened Dispatch
  import opened Forwarding

  // -------------------------------------------------------------- levels

  /** Logback's levels, highest first. */
  datatype Level = OFF | ERROR | WARN | INFO | DEBUG | TRACE | ALL

  /** `Level.levelInt`. */
  function LevelInt(l: Level): Int32 {
    match l
    case OFF => MaxInt32
    case ERROR => 40000
    case WARN => 30000
    case INFO => 20000
    case DEBUG => 10000
    case TRACE => 5000
    case ALL => MinInt32
  }

  /** The position of a level in the declaration order, ALL lowest. */
  function Rank(l: Level): nat {
    match l
    case OFF => 6
    case ERROR => 5
    case WARN => 4
    case INFO => 3
    case DEBUG => 2
    case TRACE => 1
    case ALL => 0
  }

  /** `l.isGreaterOrEqual(threshold)`. */
  predicate IsGreaterOrEqual(l: Level, threshold: Level) {
    LevelInt(l) >= LevelInt(threshold)
  }

  /** The integer values order the levels as they are declared. */
  lemma IsGreaterOrEqualRank(l: Level, threshold: Level)
    ensures IsGreaterOrEqual(l, threshold) <==> Rank(l) >= Rank(threshold)
  {
  }

  /** The threshold an appender starts with. */
  const DefaultLevel: Level := Level.ERROR

  /** Under the default threshold only ERROR events (and OFF) get through. */
  lemma DefaultLevelPasses(l: Level)
    ensures IsGreaterOrEqual(l, DefaultLevel) <==> l == Level.ERROR || l == Level.OFF
  {
  }

  /** The levels a logging event carries. */
  predicate EventLevel(l: Level) {
    l != Level.OFF && l != Level.ALL
  }

  /** `getSeverity`: WARN, INFO and DEBUG keep their names, TRACE is
      reported as DEBUG and anything else as ERROR. */
  function GetSeverity(l: Level): (s: Severity)
    ensures s != Severity.TRACE
  {
    if l == Level.WARN then Severity.WARN
    else if l == Level.INFO then Severity.INFO
    else if l == Level.DEBUG || l == Level.TRACE then Severity.DEBUG
    else Severity.ERROR
  }

  /** A more severe event is never reported as less severe, and each event
      level lands one step below its own rank, TRACE sharing DEBUG's. */
  lemma GetSeverityMonotone(a: Level, b: Level)
    requires EventLevel(a) && EventLevel(b)
    ensures IsGreaterOrEqual(a, b) ==> SeverityRank(GetSeverity(a)) >= SeverityRank(GetSeverity(b))
    ensures a != Level.TRACE ==> SeverityRank(GetSeverity(a)) == Rank(a) - 1
    ensures a == Level.TRACE ==> GetSeverity(a) == GetSeverity(Level.DEBUG)
  {
  }

  // -------------------------------------------------------------- events

  /** What `append` reads of an `ILoggingEvent`: its level, logger name,
      raw message, MDC property map and, when it has a throwable, the
      stack frames of the throwable's proxy. */
  datatype LoggingEvent = LoggingEvent(
    level: Level,
    loggerName: string,
    message: Option<string>,
    mdc: map<string, Option<string>>,
    throwable: Option<seq<Frame>>)

  /** The guards of `append`: the threshold first, then the own-logger
      test; `None` lets the event through. */
  function Screen(threshold: Level, e: LoggingEvent): (v: Option<Verdict>)
    ensures v.None? <==> IsGreaterOrEqual(e.level, threshold) && forall i :: !OccursAt(e.loggerName, OwnPackage, i)
    ensures v.Some? ==> v.value.Dropped?
    ensures v == Some(Dropped(BelowThreshold)) <==> !IsGreaterOrEqual(e.level, threshold)
  {
    FromOwnLoggerIff(e.loggerName);
    if !IsGreaterOrEqual(e.level, threshold) then Some(Dropped(BelowThreshold))
    else if FromOwnLogger(e.loggerName) then Some(Dropped(OwnLogger))
    else None
  }

  // --------------------------------------------------------- stack text

  /** `StackTraceElementProxy.toString()`: "at " and the frame's text. */
  function ProxyTexts(frames: seq<Frame>): (r: seq<string>)
    ensures |r| == |frames|
    ensures forall i :: 0 <= i < |frames| ==> r[i] == "at " + FrameText(frames[i])
  {
    seq(|frames|, i requires 0 <= i < |frames| => "at " + FrameText(frames[i]))
  }

  /** The stack trace the appender records: each proxy's text and "\n". */
  function ProxyStackText(frames: seq<Frame>): string {
    JoinLines(ProxyTexts(frames))
  }

  /** The appender's stack trace splits back into one "at "-line per frame,
      in order. */
  lemma ProxyStackLines(frames: seq<Frame>)
    requires forall i :: 0 <= i < |frames| ==> SingleLine(frames[i])
    ensures SplitLines(ProxyStackText(frames)) == ProxyTexts(frames)
  {
    var texts := ProxyTexts(frames);
    forall i | 0 <= i < |texts| ensures '\n' !in texts[i] {
      FrameTextSingleLine(frames[i]);
    }
    SplitJoinLines(texts);
  }

  /** The fields `generateBaseNotification` leaves on a new notification. */
  function BaseFields(proxy: Option<seq<Frame>>, host: Host): Fields {
    match proxy
    case None => EmptyFields(host)
    case Some(frames) =>
      var empty := EmptyFields(host);
      var framed :=
        if |frames| == 0 then empty
        else empty.(className := Some(frames[0].className), file := frames[0].fileName,
          lineNumber := frames[0].lineNumber, methodName := Some(frames[0].methodName));
      framed.(stackTrace := Some(ProxyStackText(frames)))
  }

  /** Without a throwable nothing about the failure is known; with one,
      the first frame names the place and the whole stack is recorded; a
      throwable without frames leaves an empty stack trace. Nothing else of
      the empty notification changes. */
  lemma BaseFieldsFrames(proxy: Option<seq<Frame>>, host: Host)
    ensures var f := BaseFields(proxy, host);
      f.stackTrace.Some? <==> proxy.Some?
    ensures var f := BaseFields(proxy, host);
      proxy.Some? ==> (f.stackTrace == Some("") <==> proxy.value == [])
    ensures var f := BaseFields(proxy, host);
      if proxy.Some? && |proxy.value| > 0 then
        f.className == Some(proxy.value[0].className) && f.file == proxy.value[0].fileName
        && f.lineNumber == proxy.value[0].lineNumber && f.methodName == Some(proxy.value[0].methodName)
      else
        f.className == None && f.file == None && f.lineNumber == 0 && f.methodName == None
    ensures var f := BaseFields(proxy, host);
      f.(stackTrace := None, className := None, file := None, lineNumber := 0, methodName := None) == EmptyFields(host)
  {
    if proxy.Some? && proxy.value != [] {
      var frames := proxy.value;
      assert ProxyStackText(frames)[0] == 'a';
    }
  }

  /** The notification `append` builds for an event before it is sent:
      the base fields, then the mapped severity, the message and the MDC
      map as its environment. */
  function EventFields(e: LoggingEvent, host: Host): Fields {
    BaseFields(e.throwable, host).(severity := GetSeverity(e.level), message := e.message,
      environment := Some(e.mdc))
  }

  /** What a forwarded event leaves on the notification beyond what the
      connector stamps. */
  predicate Reports(f: Fields, e: LoggingEvent, host: Host) {
    Unstamped(f) == Unstamped(EventFields(e, host))
  }

  /** A reported notification holds the event's severity, message and MDC
      map and the throwable's place and stack; thread, host name and
      properties are the host's; nothing else is set. */
  lemma EventFieldsValues(e: LoggingEvent, host: Host)
    ensures var f := EventFields(e, host); var base := BaseFields(e.throwable, host);
      f.severity == GetSeverity(e.level) && f.message == e.message && f.environment == Some(e.mdc)
      && f.stackTrace == base.stackTrace && f.className == base.className && f.file == base.file
      && f.lineNumber == base.lineNumber && f.methodName == base.methodName
    ensures var f := EventFields(e, host);
      f.threadId == host.threadId && f.hostname == host.hostname && f.server == host.properties
      && f.parameters == None && f.ipAddress == None && f.referrer == None
      && f.userAgent == None && f.url == None
      && f.applicationEnvironment == None && f.version == None && f.userId == None
  {
    BaseFieldsFrames(e.throwable, host);
  }

  // ------------------------------------------------------------ appender

  /** The three setter calls of `append` that describe the event. */
  method Describe(n: LoggedNotification, e: LoggingEvent)
    modifies n`severity, n`message, n`environment
    ensures n.View() == old(n.View()).(severity := GetSeverity(e.level), message := e.message,
      environment := Some(e.mdc))
  {
    n.SetSeverity(GetSeverity(e.level));
    n.SetMessage(e.message);
    n.SetEnvironment(Some(e.mdc));
  }

  /** The four setter calls that copy a frame's place onto a notification. */
  method SetPlace(n: LoggedNotification, f: Frame)
    modifies n`className, n`file, n`lineNumber, n`methodName
    ensures n.View() == old(n.View()).(className := Some(f.className), file := f.fileName,
      lineNumber := f.lineNumber, methodName := Some(f.methodName))
  {
    n.SetClassName(Some(f.className));
    n.SetFile(f.fileName);
    n.SetLineNumber(f.lineNumber);
    n.SetMethodName(Some(f.methodName));
  }

  class CoalmineAppender {
    var signature: Option<string>
    var environment: Option<string>
    var version: Option<string>
    var level: Level
    var async: bool
    var connector: Option<AnyConnector>
    /** `AppenderBase`'s started flag. */
    var started: bool

    predicate Valid()
      reads this, if connector.Some? then connector.value.Repr() else {}
    {
      connector.Some? ==> connector.value.Valid()
    }

    /** A new appender: no local settings, threshold ERROR, asynchronous,
        no connector until it is started. */
    constructor ()
      ensures Valid()
      ensures signature == None && environment == None && version == None
      ensures level == DefaultLevel && async && connector == None && !started
    {
      signature, environment, version := None, None, None;
      level, async, connector, started := DefaultLevel, true, None, false;
    }

    method SetAsync(a: bool)
      modifies this`async
      ensures async == a
    {
      async := a;
    }

    method SetSignature(s: Option<string>)
      modifies this`signature
      ensures signature == s
    {
      signature := s;
    }

    method SetEnvironment(e: Option<string>)
      modifies this`environment
      ensures environment == e
    {
      environment := e;
    }

    method SetVersion(v: Option<string>)
      modifies this`version
      ensures version == v
    {
      version := v;
    }

    method SetLevel(l: Level)
      modifies this`level
      ensures level == l
    {
      level := l;
    }

    /** `start`: a new connector, non-blocking when `async`, whose
        signature, environment and version are the appender's own or, where
        those are unset, the global ones; the connector is started and so is
        the appender. */
    method Start(globals: Globals)
      modifies this`connector, this`started
      ensures started && connector.Some? && Valid() && fresh(connector.value.Repr())
      ensures connector.value.NonBlocking? <==> async
      ensures connector.value.Config().signature == signature.OrElse(globals.signature)
      ensures connector.value.Config().applicationEnvironment == environment.OrElse(globals.environment)
      ensures connector.value.Config().version == version.OrElse(globals.version)
      ensures connector.value.Config().enabledEnvironments == DefaultEnabledEnvironments
      ensures connector.value.Blocking? ==> connector.value.simple.Throttle() == ThrottleState(None, 0)
      ensures connector.value.NonBlocking? ==>
        var q := connector.value.queued;
        q.started && q.active && q.queue == [] && q.capacity == DefaultQueueCapacity
        && q.transport.Throttle() == ThrottleState(None, 0)
    {
      var c: AnyConnector;
      var sig := signature.OrElse(globals.signature);
      if async {
        var q := new NoneBlockingConnector(sig);
        c := NonBlocking(q);
      } else {
        var s := new SimpleConnector(sig);
        c := Blocking(s);
      }
      c.Config().SetApplicationEnvironment(environment.OrElse(globals.environment));
      c.Config().SetVersion(version.OrElse(globals.version));
      var outcome := StartVia(c);
      connector := Some(c);
      started := true;
    }

    /** `stop`: stops the connector, then the appender; before any start
        there is no connector and the call throws. */
    method Stop() returns (outcome: Outcome)
      requires Valid()
      modifies this`started, if connector.Some? && connector.value.NonBlocking? then {connector.value.queued} else {}
      ensures Valid()
      ensures connector.None? ==> outcome == Fail(NullPointer) && started == old(started)
      ensures connector.Some? ==> outcome == Pass && !started
      ensures connector.Some? && connector.value.NonBlocking? ==> !connector.value.queued.active
    {
      if connector.None? {
        return Fail(NullPointer);
      }
      StopVia(connector.value);
      started := false;
      return Pass;
    }

    /** `generateBaseNotification`: a new notification, with the first
        frame's place and the proxies' text as stack trace when the event
        has a throwable. */
    method GenerateBaseNotification(e: LoggingEvent, gson: Renderer, host: Host) returns (n: LoggedNotification)
      ensures fresh(n) && n.gson == gson
      ensures n.View() == BaseFields(e.throwable, host)
    {
      n := new LoggedNotification.Empty(gson, host);
      if e.throwable.None? {
        return;
      }
      var frames := e.throwable.value;
      if |frames| > 0 {
        SetPlace(n, frames[0]);
      }
      var text := BuildLines(ProxyTexts(frames));
      n.SetStackTrace(Some(text));
    }

    /** `append`: an event below the threshold or from the connector's own
        loggers is dropped; any other becomes one notification, reported
        with the mapped severity, the event's message and its MDC map, and
        is handed to the connector. */
    method Append(e: LoggingEvent, gson: Renderer, host: Host, w: Wire) returns (verdict: Verdict, sent: Option<LoggedNotification>, body: Option<string>)
      requires Valid()
      modifies if connector.Some? then connector.value.Sending() else {}
      ensures Valid()
      ensures Screen(level, e).Some? ==> verdict == Screen(level, e).value && sent.None? && body.None?
      ensures Screen(level, e).None? && connector.None? ==> verdict == Failed(NullPointer) && sent.None? && body.None?
      ensures Screen(level, e).None? && connector.Some? ==>
        (verdict.Forwarded? && sent.Some? && fresh(sent.value) && Reports(sent.value.View(), e, host))
      ensures Screen(level, e).None? && connector.Some? && connector.value.Blocking? ==>
        var s := connector.value.simple;
        (verdict.accepted, s.Throttle()) == Deliver(old(s.Throttle()), s.config.IsSendable(), w)
      ensures Screen(level, e).None? && connector.Some? && connector.value.Blocking? ==>
        var s := connector.value.simple;
        var go := Proceeds(old(s.Throttle()), s.config.IsSendable(), w.checkedAt);
        (go ==> Stamped(sent.value.View(), gson, s.config.Snapshot(), None, body))
        && (!go ==> body.None? && sent.value.View() == EventFields(e, host))
      ensures Screen(level, e).None? && connector.Some? && connector.value.NonBlocking? ==>
        var q := connector.value.queued;
        (q.queue, verdict.accepted) == Offer(old(q.queue), q.capacity, sent.value) && body.None?
        && sent.value.View() == EventFields(e, host)
    {
      var screened := Screen(level, e);
      if screened.Some? {
        return screened.value, None, None;
      }
      var n := GenerateBaseNotification(e, gson, host);
      Describe(n, e);
      assert n.View() == EventFields(e, host);
      if connector.None? {
        return Failed(NullPointer), None, None;
      }
      var accepted;
      accepted, body := SendVia(connector.value, n, w);
      return Forwarded(accepted), Some(n), body;
    }
  }
}
