/** The event record the connector posts: its severity scale, the stack
    frames and exceptions it is built from, the servlet request it can
    describe, and the mutable `LoggedNotification` object itself. */
module Notifications {
  import opened Wrappers
  import opened Text

  /** The five severities, most severe first. */
  datatype Severity = ERROR | WARN | INFO | DEBUG | TRACE

  /** How severe: 4 for ERROR down to 0 for TRACE, the declaration order. */
  function SeverityRank(s: Severity): nat {
    match s
    case ERROR => 4
    case WARN => 3
    case INFO => 2
    case DEBUG => 1
    case TRACE => 0
  }

  // -------------------------------------------------------------- frames

  /** The line number a stack frame reports for a native method. */
  const NativeMethodLine: int := -2

  /** One `StackTraceElement`: class, method, optional file, line number. */
  datatype Frame = Frame(className: string, methodName: string, fileName: Option<string>, lineNumber: Int32)

  /** The parenthesised location part of a frame's text. */
  function Location(f: Frame): string {
    if f.lineNumber == NativeMethodLine then "(Native Method)"
    else match f.fileName
      case Some(name) =>
        if f.lineNumber >= 0 then "(" + name + ":" + Decimal(f.lineNumber) + ")" else "(" + name + ")"
      case None => "(Unknown Source)"
  }

  /** `StackTraceElement.toString()`: `class.method(location)`. */
  function FrameText(f: Frame): (r: string)
    ensures |r| > |f.className| + |f.methodName| + 1
    ensures r[..|f.className|] == f.className
    ensures r[|f.className|] == '.'
  {
    f.className + "." + f.methodName + Location(f)
  }

  /** The text of each frame, in order. */
  function FrameTexts(frames: seq<Frame>): (r: seq<string>)
    ensures |r| == |frames|
    ensures forall i :: 0 <= i < |frames| ==> r[i] == FrameText(frames[i])
  {
    seq(|frames|, i requires 0 <= i < |frames| => FrameText(frames[i]))
  }

  /** The stack trace text: every frame's text followed by "\n". */
  function StackTraceText(frames: seq<Frame>): string {
    JoinLines(FrameTexts(frames))
  }

  /** A frame whose names hold no line break. */
  predicate SingleLine(f: Frame) {
    '\n' !in f.className && '\n' !in f.methodName
    && (f.fileName.Some? ==> '\n' !in f.fileName.value)
  }

  lemma FrameTextSingleLine(f: Frame)
    requires SingleLine(f)
    ensures '\n' !in FrameText(f)
  {
    if f.lineNumber != NativeMethodLine && f.fileName.Some? && f.lineNumber >= 0 {
      DigitsNoNewline(f.lineNumber);
    }
  }

  /** The stack trace text splits back into exactly one line per frame,
      so no frame is lost, merged or reordered by the join. */
  lemma StackTraceLines(frames: seq<Frame>)
    requires forall i :: 0 <= i < |frames| ==> SingleLine(frames[i])
    ensures SplitLines(StackTraceText(frames)) == FrameTexts(frames)
  {
    var texts := FrameTexts(frames);
    forall i | 0 <= i < |texts| ensures '\n' !in texts[i] {
      FrameTextSingleLine(frames[i]);
    }
    SplitJoinLines(texts);
  }

  /** The stack trace text is empty exactly when there are no frames. */
  lemma StackTraceEmpty(frames: seq<Frame>)
    ensures StackTraceText(frames) == "" <==> frames == []
  {
    if frames != [] {
      assert StackTraceText(frames)[|FrameText(frames[0])|] == '\n';
    }
  }

  // ---------------------------------------------------------- exceptions

  /** A `Throwable`: the simple name of its class, its localized message
      (null allowed) and its stack. */
  datatype Throwable = Throwable(simpleName: string, localizedMessage: Option<string>, frames: seq<Frame>)

  /** `String.format("[%s] %s", …)` of the class name and message; a null
      message is formatted as "null". */
  function ExceptionMessage(ex: Throwable): (r: string)
    ensures |r| >= |ex.simpleName| + 3
    ensures r[0] == '['
    ensures r[1..|ex.simpleName| + 1] == ex.simpleName
  {
    "[" + ex.simpleName + "] " + ex.localizedMessage.GetOr("null")
  }

  /** The bracketed class name can be read back off the message whenever
      the name holds no ']'. */
  lemma {:induction false} ExceptionMessageName(ex: Throwable)
    requires ']' !in ex.simpleName
    ensures SplitAt(ExceptionMessage(ex)[1..], ']') == Some(ex.simpleName)
  {
    var rest := ex.localizedMessage.GetOr("null");
    assert ExceptionMessage(ex)[1..] == ex.simpleName + "] " + rest;
    SplitAtPrefix(ex.simpleName, ']', " " + rest);
    assert ex.simpleName + "] " + rest == ex.simpleName + [']'] + (" " + rest);
  }

  /** The text before the first `sep`, if `sep` occurs. */
  function SplitAt(s: string, sep: char): Option<string>
    decreases |s|
  {
    if s == [] then None
    else if s[0] == sep then Some("")
    else match SplitAt(s[1..], sep)
      case Some(a) => Some([s[0]] + a)
      case None => None
  }

  lemma {:induction false} SplitAtPrefix(a: string, sep: char, b: string)
    requires sep !in a
    ensures SplitAt(a + [sep] + b, sep) == Some(a)
    decreases |a|
  {
    var s := a + [sep] + b;
    if a != [] {
      assert s[1..] == a[1..] + [sep] + b;
      SplitAtPrefix(a[1..], sep, b);
      assert [a[0]] + a[1..] == a;
    }
  }

  // ------------------------------------------------------------- request

  /** The HTTP part of a servlet request. `header` is the container's
      header lookup; `headerNames` is what `getHeaderNames` enumerates. */
  datatype HttpPart = HttpPart(
    header: string -> Option<string>,
    headerNames: seq<string>,
    requestUri: Option<string>,
    queryString: Option<string>,
    httpMethod: Option<string>,
    authType: Option<string>)

  /** A `ServletRequest`. Each parameter is its name with the text
      `StringBuilder.append` writes for its value array. */
  datatype ServletRequest = ServletRequest(
    parameterMap: seq<(string, string)>,
    characterEncoding: Option<string>,
    contentType: Option<string>,
    contentLength: Int32,
    localAddr: Option<string>,
    localName: Option<string>,
    localPort: Int32,
    protocol: Option<string>,
    remoteAddr: Option<string>,
    remoteHost: Option<string>,
    scheme: Option<string>,
    serverName: Option<string>,
    locale: Option<string>,
    http: Option<HttpPart>)

  /** `key=value` for every parameter, with no separator between them. */
  function ParameterChunks(ps: seq<(string, string)>): string {
    if ps == [] then "" else ParameterChunks(ps[..|ps| - 1]) + ps[|ps| - 1].0 + "=" + ps[|ps| - 1].1
  }

  /** The `parameters` field: the chunks with their last character cut off
      when there are more than one. */
  function ParametersText(ps: seq<(string, string)>): string {
    var all := ParameterChunks(ps);
    if |all| > 1 then all[..|all| - 1] else all
  }

  /** No parameters give the empty text. Otherwise the chunks hold at
      least the one "=", and unless they are that "=" alone the cut removes
      exactly their last character: the last character of the last value
      when that value is not empty, its "=" when it is. */
  lemma ParametersTextCut(ps: seq<(string, string)>)
    ensures ps == [] ==> ParametersText(ps) == ""
    ensures ps != [] ==> |ParameterChunks(ps)| >= 1
    ensures |ParameterChunks(ps)| > 1 ==>
      ParametersText(ps) + [ParameterChunks(ps)[|ParameterChunks(ps)| - 1]] == ParameterChunks(ps)
    ensures ps != [] && ps[|ps| - 1].1 != "" ==>
      ParametersText(ps) == ParameterChunks(ps[..|ps| - 1]) + ps[|ps| - 1].0 + "=" + ps[|ps| - 1].1[..|ps[|ps| - 1].1| - 1]
    ensures ps != [] && ps[|ps| - 1].1 == "" ==>
      ParametersText(ps) == ParameterChunks(ps[..|ps| - 1]) + ps[|ps| - 1].0 || ParametersText(ps) == "="
  {
    if ps != [] {
      var init := ParameterChunks(ps[..|ps| - 1]);
      var last := ps[|ps| - 1];
      var before := init + last.0 + "=";
      var all := ParameterChunks(ps);
      assert all == before + last.1;
      if |all| > 1 {
        CutLast(before, last.1);
        assert before[..|before| - 1] == init + last.0;
      } else {
        assert all == "=";
      }
    }
  }

  lemma CutLast(before: string, v: string)
    requires |before| > 0
    ensures (before + v)[..|before + v| - 1] + [(before + v)[|before + v| - 1]] == before + v
    ensures v != "" ==> (before + v)[..|before + v| - 1] == before + v[..|v| - 1]
    ensures v == "" ==> (before + v)[..|before + v| - 1] == before[..|before| - 1]
  {
  }

  /** The key the header `name` is stored under. */
  function HeaderKey(name: string): string {
    name + " Header"
  }

  predicate IsHeaderKey(k: string) {
    |k| >= 7 && k[|k| - 7..] == " Header"
  }

  /** The keys every request stores. */
  const BaseKeys: set<string> := {"Character Encoding", "Content Type", "Content Length", "Local Address",
    "Local Name", "Local Port", "Protocol", "Remote Address", "Remote Host", "Scheme", "Server Name"}

  /** The keys only an HTTP request stores before its headers. */
  const HttpKeys: set<string> := {"Query String", "HTTP Method", "Auth Type"}

  /** No stored key of a request collides with an HTTP key or a header key. */
  lemma KeysApart()
    ensures forall k :: k in HttpKeys ==> k !in BaseKeys && k != "Locale"
    ensures forall k :: k in BaseKeys + HttpKeys + {"Locale"} ==> !IsHeaderKey(k)
    ensures "Locale" !in BaseKeys
  {
    HttpKeysApart();
    HeaderKeysApart();
  }

  lemma HttpKeysApart()
    ensures forall k :: k in HttpKeys ==> k !in BaseKeys && k != "Locale"
    ensures "Locale" !in BaseKeys
  {
  }

  /** None of those keys ends in 'r', as every header key does. */
  lemma HeaderKeysApart()
    ensures forall k :: k in BaseKeys + HttpKeys + {"Locale"} ==> !IsHeaderKey(k)
  {
    forall k | k in BaseKeys + HttpKeys + {"Locale"} ensures !IsHeaderKey(k) {
      NotHeaderKey(k);
    }
  }

  lemma NotHeaderKey(k: string)
    requires |k| > 0 && k[|k| - 1] != 'r'
    ensures !IsHeaderKey(k)
  {
    if |k| >= 7 {
      assert k[|k| - 1] == k[|k| - 7..][6];
    }
  }

  /** The entries every request contributes. */
  function BaseEnvironment(r: ServletRequest): (m: map<string, Option<string>>)
    ensures m.Keys == BaseKeys + (if r.locale.Some? then {"Locale"} else {})
  {
    var m := map[
      "Character Encoding" := r.characterEncoding,
      "Content Type" := r.contentType,
      "Content Length" := Some(Decimal(r.contentLength)),
      "Local Address" := r.localAddr,
      "Local Name" := r.localName,
      "Local Port" := Some(Decimal(r.localPort)),
      "Protocol" := r.protocol,
      "Remote Address" := r.remoteAddr,
      "Remote Host" := r.remoteHost,
      "Scheme" := r.scheme,
      "Server Name" := r.serverName];
    if r.locale.Some? then m["Locale" := r.locale] else m
  }

  /** The entries an HTTP request adds before its headers. */
  function HttpEntries(m: map<string, Option<string>>, h: HttpPart): map<string, Option<string>> {
    m["Query String" := h.queryString]["HTTP Method" := h.httpMethod]["Auth Type" := h.authType]
  }

  /** Putting `name Header` for every enumerated header name, in order. */
  function PutHeaders(m: map<string, Option<string>>, header: string -> Option<string>, names: seq<string>): map<string, Option<string>>
    decreases |names|
  {
    if names == [] then m
    else
      var n := names[|names| - 1];
      PutHeaders(m, header, names[..|names| - 1])[HeaderKey(n) := header(n)]
  }

  /** The `environment` map `setRequest` builds. */
  function RequestEnvironment(r: ServletRequest): map<string, Option<string>> {
    match r.http
    case None => BaseEnvironment(r)
    case Some(h) => PutHeaders(HttpEntries(BaseEnvironment(r), h), h.header, h.headerNames)
  }

  /** Header entries keep every entry whose key is not a header key, and
      give every enumerated name the container's value for it. */
  lemma {:induction false} PutHeadersEntries(m: map<string, Option<string>>, header: string -> Option<string>, names: seq<string>)
    ensures forall k :: !IsHeaderKey(k) ==> (k in PutHeaders(m, header, names) <==> k in m)
    ensures forall k :: !IsHeaderKey(k) && k in m ==> PutHeaders(m, header, names)[k] == m[k]
    ensures forall i :: 0 <= i < |names| ==>
      HeaderKey(names[i]) in PutHeaders(m, header, names) && PutHeaders(m, header, names)[HeaderKey(names[i])] == header(names[i])
    decreases |names|
  {
    if names != [] {
      var init := names[..|names| - 1];
      var n := names[|names| - 1];
      PutHeadersEntries(m, header, init);
      var k := HeaderKey(n);
      assert IsHeaderKey(k) by { assert k[|k| - 7..] == " Header"; }
      forall i | 0 <= i < |names|
        ensures HeaderKey(names[i]) in PutHeaders(m, header, names)
        ensures PutHeaders(m, header, names)[HeaderKey(names[i])] == header(names[i])
      {
        if i < |names| - 1 {
          assert names[i] == init[i];
          if HeaderKey(names[i]) == k {
            assert names[i] == HeaderKey(names[i])[..|names[i]|] == k[..|n|] == n;
          }
        }
      }
    }
  }

  /** "Locale" is present exactly when the request has a locale, and then
      holds its text. */
  lemma LocaleEntry(r: ServletRequest)
    ensures "Locale" in RequestEnvironment(r) <==> r.locale.Some?
    ensures r.locale.Some? ==> RequestEnvironment(r)["Locale"] == r.locale
  {
    KeysApart();
    if r.http.Some? {
      var h := r.http.value;
      KeysApart();
      PutHeadersEntries(HttpEntries(BaseEnvironment(r), h), h.header, h.headerNames);
    }
  }

  /** The query string, method and authentication type are present exactly
      for HTTP requests. */
  lemma HttpEntriesPresent(r: ServletRequest)
    ensures forall k :: k in HttpKeys ==> (k in RequestEnvironment(r) <==> r.http.Some?)
  {
    KeysApart();
    if r.http.Some? {
      var h := r.http.value;
      PutHeadersEntries(HttpEntries(BaseEnvironment(r), h), h.header, h.headerNames);
    }
  }

  /** Header entries appear only for HTTP requests. */
  lemma NoHeadersWithoutHttp(r: ServletRequest)
    requires r.http.None?
    ensures forall k :: k in RequestEnvironment(r) ==> !IsHeaderKey(k)
  {
    KeysApart();
  }

  /** An HTTP request stores every enumerated header under `name Header`
      with the container's value for it. */
  lemma HeaderEntries(r: ServletRequest, i: int)
    requires r.http.Some? && 0 <= i < |r.http.value.headerNames|
    ensures HeaderKey(r.http.value.headerNames[i]) in RequestEnvironment(r)
    ensures RequestEnvironment(r)[HeaderKey(r.http.value.headerNames[i])] == r.http.value.header(r.http.value.headerNames[i])
  {
    var h := r.http.value;
    PutHeadersEntries(HttpEntries(BaseEnvironment(r), h), h.header, h.headerNames);
  }

  /** The parameters loop of `setRequest`, then the cut. */
  method BuildParameters(ps: seq<(string, string)>) returns (text: string)
    ensures text == ParametersText(ps)
  {
    var sb := "";
    for i := 0 to |ps|
      invariant sb == ParameterChunks(ps[..i])
    {
      assert ps[..i + 1][..i] == ps[..i];
      sb := sb + ps[i].0 + "=" + ps[i].1;
    }
    assert ps[..|ps|] == ps;
    text := if |sb| > 1 then sb[..|sb| - 1] else sb;
  }

  /** The header loop of `setRequest`. */
  method PutAllHeaders(m: map<string, Option<string>>, header: string -> Option<string>, names: seq<string>)
    returns (env: map<string, Option<string>>)
    ensures env == PutHeaders(m, header, names)
  {
    env := m;
    for j := 0 to |names|
      invariant env == PutHeaders(m, header, names[..j])
    {
      assert names[..j + 1][..j] == names[..j];
      env := env[HeaderKey(names[j]) := header(names[j])];
    }
    assert names[..|names|] == names;
  }

  // -------------------------------------------------------- notification

  /** What the JSON renderer sees of a notification: every serialized field. */
  datatype Fields = Fields(
    applicationEnvironment: Option<string>,
    version: Option<string>,
    message: Option<string>,
    stackTrace: Option<string>,
    threadId: int,
    hostname: Option<string>,
    className: Option<string>,
    severity: Severity,
    server: map<string, string>,
    environment: Option<map<string, Option<string>>>,
    file: Option<string>,
    lineNumber: Int32,
    methodName: Option<string>,
    parameters: Option<string>,
    ipAddress: Option<string>,
    referrer: Option<string>,
    userAgent: Option<string>,
    url: Option<string>,
    userId: Option<string>)

  /** What the constructing thread and machine supply: the thread id, the
      local host name (None where the lookup fails) and the system properties. */
  datatype Host = Host(threadId: int, hostname: Option<string>, properties: map<string, string>)

  /** A JSON renderer (Gson's `toJson`), supplied from outside. */
  type Renderer = Fields -> string

  /** The fields of a new notification: thread, host and system
      properties captured, severity ERROR, everything else unset. */
  function EmptyFields(host: Host): Fields {
    Fields(None, None, None, None, host.threadId, host.hostname, None, ERROR,
      host.properties, None, None, 0, None, None, None, None, None, None, None)
  }

  /** The fields `LoggedNotification(Throwable, Gson)` leaves: the empty
      notification, then for an exception its bracketed message, its stack
      text and the place its first frame names. */
  function ThrowableFields(ex: Option<Throwable>, host: Host): Fields {
    match ex
    case None => EmptyFields(host)
    case Some(e) =>
      var empty := EmptyFields(host);
      var placed :=
        if |e.frames| == 0 then empty
        else empty.(className := Some(e.frames[0].className), file := e.frames[0].fileName,
          lineNumber := e.frames[0].lineNumber, methodName := Some(e.frames[0].methodName));
      placed.(message := Some(ExceptionMessage(e)), stackTrace := Some(StackTraceText(e.frames)))
  }

  class LoggedNotification {
    const gson: Renderer
    var applicationEnvironment: Option<string>
    var version: Option<string>
    var message: Option<string>
    var stackTrace: Option<string>
    var threadId: int
    var hostname: Option<string>
    var className: Option<string>
    var severity: Severity
    var server: map<string, string>
    var environment: Option<map<string, Option<string>>>
    var file: Option<string>
    var lineNumber: Int32
    var methodName: Option<string>
    var parameters: Option<string>
    var ipAddress: Option<string>
    var referrer: Option<string>
    var userAgent: Option<string>
    var url: Option<string>
    var userId: Option<string>

    function View(): Fields
      reads this
    {
      Fields(applicationEnvironment, version, message, stackTrace, threadId, hostname, className,
        severity, server, environment, file, lineNumber, methodName, parameters, ipAddress, referrer,
        userAgent, url, userId)
    }

    /** An empty notification: thread, host and system properties captured,
        severity ERROR, everything else unset. */
    constructor Empty(gson: Renderer, host: Host)
      ensures this.gson == gson
      ensures View() == EmptyFields(host)
    {
      this.gson := gson;
      applicationEnvironment, version, message, stackTrace := None, None, None, None;
      threadId, hostname := host.threadId, host.hostname;
      className, severity, server, environment := None, ERROR, host.properties, None;
      file, lineNumber, methodName, parameters := None, 0, None, None;
      ipAddress, referrer, userAgent, url, userId := None, None, None, None, None;
    }

    /** A notification for an exception (or for none): severity ERROR; the
        message and the stack trace text from the exception; class, file,
        line and method from its first frame when it has one. */
    constructor FromThrowable(ex: Option<Throwable>, gson: Renderer, host: Host)
      ensures this.gson == gson
      ensures severity == ERROR
      ensures threadId == host.threadId && hostname == host.hostname && server == host.properties
      ensures message == (if ex.Some? then Some(ExceptionMessage(ex.value)) else None)
      ensures stackTrace == (if ex.Some? then Some(StackTraceText(ex.value.frames)) else None)
      ensures if ex.Some? && |ex.value.frames| > 0 then
          var f := ex.value.frames[0];
          className == Some(f.className) && file == f.fileName
          && lineNumber == f.lineNumber && methodName == Some(f.methodName)
        else
          className == None && file == None && lineNumber == 0 && methodName == None
      ensures applicationEnvironment == None && version == None && environment == None
      ensures parameters == None && ipAddress == None && referrer == None
      ensures userAgent == None && url == None && userId == None
      ensures View() == ThrowableFields(ex, host)
    {
      this.gson := gson;
      applicationEnvironment, version, message, stackTrace := None, None, None, None;
      threadId, hostname := host.threadId, host.hostname;
      className, severity, server, environment := None, ERROR, host.properties, None;
      file, lineNumber, methodName, parameters := None, 0, None, None;
      ipAddress, referrer, userAgent, url, userId := None, None, None, None, None;
      if ex.Some? {
        var e := ex.value;
        message := Some(ExceptionMessage(e));
        if |e.frames| > 0 {
          var f := e.frames[0];
          className, file, lineNumber, methodName := Some(f.className), f.fileName, f.lineNumber, Some(f.methodName);
        }
        var text := BuildLines(FrameTexts(e.frames));
        stackTrace := Some(text);
      }
    }

    /** The parameters posted for this notification: only "json", holding
        the rendering of every field. */
    function QueryParams(): (r: map<string, string>)
      reads this
      ensures r.Keys == {"json"}
      ensures r["json"] == gson(View())
    {
      map["json" := gson(View())]
    }

    method SetApplicationEnvironment(e: Option<string>)
      modifies this`applicationEnvironment
      ensures applicationEnvironment == e
    {
      applicationEnvironment := e;
    }

    method SetVersion(v: Option<string>)
      modifies this`version
      ensures version == v
    {
      version := v;
    }

    method SetMessage(m: Option<string>)
      modifies this`message
      ensures message == m
    {
      message := m;
    }

    method SetMethodName(m: Option<string>)
      modifies this`methodName
      ensures methodName == m
    {
      methodName := m;
    }

    method SetClassName(c: Option<string>)
      modifies this`className
      ensures className == c
    {
      className := c;
    }

    method SetSeverity(s: Severity)
      modifies this`severity
      ensures severity == s
    {
      severity := s;
    }

    method SetFile(f: Option<string>)
      modifies this`file
      ensures file == f
    {
      file := f;
    }

    method SetLineNumber(n: Int32)
      modifies this`lineNumber
      ensures lineNumber == n
    {
      lineNumber := n;
    }

    method SetStackTrace(t: Option<string>)
      modifies this`stackTrace
      ensures stackTrace == t
    {
      stackTrace := t;
    }

    method SetUserId(u: Option<string>)
      modifies this`userId
      ensures userId == u
    {
      userId := u;
    }

    method SetEnvironment(m: Option<map<string, Option<string>>>)
      modifies this`environment
      ensures environment == m
    {
      environment := m;
    }

    /** Records a servlet request: the parameters text, the remote address,
        the environment map and, for an HTTP request, referrer, user agent
        and URI. Nothing else changes. */
    method SetRequest(r: ServletRequest)
      modifies this`parameters, this`ipAddress, this`environment, this`referrer, this`userAgent, this`url
      ensures parameters == Some(ParametersText(r.parameterMap))
      ensures ipAddress == r.remoteAddr
      ensures environment == Some(RequestEnvironment(r))
      ensures r.http.Some? ==> (referrer == r.http.value.header("referer")
        && userAgent == r.http.value.header("User-Agent") && url == r.http.value.requestUri)
      ensures r.http.None? ==> referrer == old(referrer) && userAgent == old(userAgent) && url == old(url)
    {
      var text := BuildParameters(r.parameterMap);
      parameters := Some(text);
      ipAddress := r.remoteAddr;
      var env := BaseEnvironment(r);
      if r.http.Some? {
        var h := r.http.value;
        referrer := h.header("referer");
        userAgent := h.header("User-Agent");
        url := h.requestUri;
        env := PutAllHeaders(HttpEntries(env, h), h.header, h.headerNames);
      }
      environment := Some(env);
    }
  }
}
