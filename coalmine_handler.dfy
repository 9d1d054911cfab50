/** The `java.util.logging` handler: the threshold it keeps itself, which
    records reach Coalmine, the severity they are reported with and the
    notification built from a record. */
module JulHandler {
  import opened Wrappers
  import opened Text
  import opened Notifications
  import opened Connectors
  import opened Transport
  import opened Dispatch
  import opened Forwarding

  // -------------------------------------------------------------- levels

  /** The standard `java.util.logging` levels, highest first, and any
      level an application defines with its own name and value. */
  datatype Level =
    | OFF | SEVERE | WARNING | INFO | CONFIG | FINE | FINER | FINEST | ALL
    | Custom(name: string, value: Int32)

  /** `Level.intValue()`. */
  function IntValue(l: Level): Int32 {
    match l
    case OFF => MaxInt32
    case SEVERE => 1000
    case WARNING => 900
    case INFO => 800
    case CONFIG => 700
    case FINE => 500
    case FINER => 400
    case FINEST => 300
    case ALL => MinInt32
    case Custom(_, v) => v
  }

  /** The threshold a handler starts with. */
  const DefaultLevel: Level := Level.WARNING

  /** `getSeverity`: compares with the standard level objects, so WARNING
      becomes WARN, INFO stays INFO, FINE, FINER and FINEST become DEBUG,
      and all other levels, custom ones included, become ERROR. */
  function GetSeverity(l: Level): (s: Severity)
    ensures s != Severity.TRACE
  {
    if l == Level.WARNING then Severity.WARN
    else if l == Level.INFO then Severity.INFO
    else if l == Level.FINE || l == Level.FINER || l == Level.FINEST then Severity.DEBUG
    else Severity.ERROR
  }

  /** Records the default threshold lets through that carry a standard
      level are reported as ERROR or WARN, and WARN only for WARNING. */
  lemma DefaultSeverities(l: Level)
    requires !l.Custom? && IntValue(l) >= IntValue(DefaultLevel)
    ensures l == Level.OFF || l == Level.SEVERE || l == Level.WARNING
    ensures GetSeverity(l) == (if l == Level.WARNING then Severity.WARN else Severity.ERROR)
  {
  }

  /** The mapping is not monotone: CONFIG ranks below INFO but is reported
      as ERROR, and a custom level is ERROR even at WARNING's value. */
  lemma SeverityNotMonotone()
    ensures IntValue(Level.CONFIG) < IntValue(Level.INFO)
    ensures SeverityRank(GetSeverity(Level.CONFIG)) > SeverityRank(GetSeverity(Level.INFO))
    ensures var c := Level.Custom("WARNING", 900);
      IntValue(c) == IntValue(Level.WARNING) && GetSeverity(c) == Severity.ERROR
  {
  }

  // ------------------------------------------------------------- records

  /** What `publish` reads of a `LogRecord`. */
  datatype LogRecord = LogRecord(
    level: Level,
    loggerName: Option<string>,
    message: Option<string>,
    sourceMethodName: Option<string>,
    sourceClassName: Option<string>,
    thrown: Option<Throwable>)

  /** The guards of `publish`: a record whose level is below the threshold
      is dropped, a record without a logger name throws when the name is
      searched, and one from the connector's own loggers is dropped; `None`
      lets the record through. */
  function Screen(threshold: Level, r: LogRecord): (v: Option<Verdict>)
    ensures v.None? <==> (IntValue(threshold) <= IntValue(r.level) && r.loggerName.Some?
      && forall i :: !OccursAt(r.loggerName.value, OwnPackage, i))
    ensures v == Some(Dropped(BelowThreshold)) <==> IntValue(threshold) > IntValue(r.level)
    ensures v == Some(Failed(NullPointer)) <==> IntValue(threshold) <= IntValue(r.level) && r.loggerName.None?
  {
    if IntValue(threshold) > IntValue(r.level) then Some(Dropped(BelowThreshold))
    else if r.loggerName.None? then Some(Failed(NullPointer))
    else
      FromOwnLoggerIff(r.loggerName.value);
      if FromOwnLogger(r.loggerName.value) then Some(Dropped(OwnLogger)) else None
  }

  /** A record at the threshold's own level gets past the threshold, and
      raising the threshold never lets more records through. */
  lemma ScreenThreshold(t1: Level, t2: Level, r: LogRecord)
    ensures Screen(r.level, r) != Some(Dropped(BelowThreshold))
    ensures IntValue(t1) <= IntValue(t2) && Screen(t2, r).None? ==> Screen(t1, r).None?
  {
  }

  /** The notification `publish` builds before it is sent: the one for
      the record's exception, with the severity mapped from the record's
      level, the record's message, and the record's source class and method
      in place of the first frame's. */
  function Published(r: LogRecord, host: Host): Fields {
    ThrowableFields(r.thrown, host).(severity := GetSeverity(r.level), message := r.message,
      methodName := r.sourceMethodName, className := r.sourceClassName)
  }

  /** What a forwarded record leaves on the notification beyond what the
      connector stamps. */
  predicate Publishes(f: Fields, r: LogRecord, host: Host) {
    Unstamped(f) == Unstamped(Published(r, host))
  }

  /** A published notification holds the record's severity, message and
      source even where those are null; file, line and stack trace stay the
      exception's; thread, host name and properties are the host's; nothing
      else is set. */
  lemma PublishedFields(r: LogRecord, host: Host)
    ensures var f := Published(r, host); var frames := if r.thrown.Some? then r.thrown.value.frames else [];
      f.severity == GetSeverity(r.level) && f.message == r.message
      && f.methodName == r.sourceMethodName && f.className == r.sourceClassName
      && f.stackTrace == (if r.thrown.Some? then Some(StackTraceText(frames)) else None)
      && f.file == (if |frames| > 0 then frames[0].fileName else None)
      && f.lineNumber == (if |frames| > 0 then frames[0].lineNumber else 0)
    ensures var f := Published(r, host);
      f.threadId == host.threadId && f.hostname == host.hostname && f.server == host.properties
      && f.environment == None && f.parameters == None && f.ipAddress == None && f.referrer == None
      && f.userAgent == None && f.url == None
      && f.applicationEnvironment == None && f.version == None && f.userId == None
  {
  }

  /** The notification `publish` builds: one for the record's exception,
      then the four setter calls that describe the record. */
  method Describe(r: LogRecord, gson: Renderer, host: Host) returns (n: LoggedNotification)
    ensures fresh(n) && n.gson == gson && n.View() == Published(r, host)
  {
    n := new LoggedNotification.FromThrowable(r.thrown, gson, host);
    n.SetSeverity(GetSeverity(r.level));
    n.SetMessage(r.message);
    n.SetMethodName(r.sourceMethodName);
    n.SetClassName(r.sourceClassName);
  }

  // ------------------------------------------------------------- handler

  class CoalmineHandler {
    const connector: AnyConnector
    var level: Level

    predicate Valid()
      reads this, connector.Repr()
    {
      connector.Valid()
    }

    /** A handler over a given connector, with threshold WARNING. */
    constructor (connector: AnyConnector)
      requires connector.Valid()
      ensures Valid() && this.connector == connector && level == DefaultLevel
    {
      this.connector := connector;
      level := DefaultLevel;
    }

    /** The handler declared in `logging.properties`: a blocking connector
        with the global signature, environment and version. */
    constructor Default(globals: Globals)
      ensures Valid() && connector.Blocking? && fresh(connector.Repr()) && level == DefaultLevel
      ensures connector.Config().signature == globals.signature
      ensures connector.Config().applicationEnvironment == globals.environment
      ensures connector.Config().version == globals.version
      ensures connector.Config().enabledEnvironments == DefaultEnabledEnvironments
      ensures connector.simple.Throttle() == ThrottleState(None, 0)
    {
      var s := new SimpleConnector(globals.signature);
      connector := Blocking(s);
      level := DefaultLevel;
      new;
      s.config.SetApplicationEnvironment(globals.environment);
      s.config.SetVersion(globals.version);
    }

    /** The threshold; it is what `GetLevel` reads back. */
    method SetLevel(l: Level)
      modifies this`level
      ensures level == l && GetLevel() == l
    {
      level := l;
    }

    function GetLevel(): Level
      reads this
    {
      level
    }

    /** The part of `publish` after the guards: the notification is built
        and handed to the connector. `body` is the text a blocking send
        built for posting it, if any. */
    method Forward(r: LogRecord, gson: Renderer, host: Host, w: Wire) returns (accepted: bool, n: LoggedNotification, body: Option<string>)
      requires Valid()
      modifies connector.Sending()
      ensures Valid() && fresh(n) && Publishes(n.View(), r, host)
      ensures connector.Blocking? ==>
        var s := connector.simple;
        (accepted, s.Throttle()) == Deliver(old(s.Throttle()), s.config.IsSendable(), w)
      ensures connector.Blocking? ==>
        var s := connector.simple;
        var go := Proceeds(old(s.Throttle()), s.config.IsSendable(), w.checkedAt);
        (go ==> Stamped(n.View(), gson, s.config.Snapshot(), None, body))
        && (!go ==> body.None? && n.View() == Published(r, host))
      ensures connector.NonBlocking? ==>
        var q := connector.queued;
        (q.queue, accepted) == Offer(old(q.queue), q.capacity, n) && body.None?
        && n.View() == Published(r, host)
    {
      n := Describe(r, gson, host);
      ghost var f := n.View();
      accepted, body := SendVia(connector, n, w);
      assert Unstamped(n.View()) == Unstamped(f);
    }

    /** `publish`: a record below the threshold, without a logger name or
        from the connector's own loggers goes no further; any other becomes
        one notification for its exception, described by the record and
        handed to the connector. */
    method Publish(r: LogRecord, gson: Renderer, host: Host, w: Wire) returns (verdict: Verdict, sent: Option<LoggedNotification>, body: Option<string>)
      requires Valid()
      modifies connector.Sending()
      ensures Valid()
      ensures Screen(level, r).Some? ==> verdict == Screen(level, r).value && sent.None? && body.None?
      ensures Screen(level, r).None? ==>
        (verdict.Forwarded? && sent.Some? && fresh(sent.value) && Publishes(sent.value.View(), r, host))
      ensures Screen(level, r).None? && connector.Blocking? ==>
        var s := connector.simple;
        (verdict.accepted, s.Throttle()) == Deliver(old(s.Throttle()), s.config.IsSendable(), w)
      ensures Screen(level, r).None? && connector.Blocking? ==>
        var s := connector.simple;
        var go := Proceeds(old(s.Throttle()), s.config.IsSendable(), w.checkedAt);
        (go ==> Stamped(sent.value.View(), gson, s.config.Snapshot(), None, body))
        && (!go ==> body.None? && sent.value.View() == Published(r, host))
      ensures Screen(level, r).None? && connector.NonBlocking? ==>
        var q := connector.queued;
        (q.queue, verdict.accepted) == Offer(old(q.queue), q.capacity, sent.value) && body.None?
        && sent.value.View() == Published(r, host)
    {
      var screened := Screen(GetLevel(), r);
      if screened.Some? {
        return screened.value, None, None;
      }
      var accepted, n;
      accepted, n, body := Forward(r, gson, host, w);
      return Forwarded(accepted), Some(n), body;
    }
  }
}
