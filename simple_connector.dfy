/** The blocking connector: client-side throttling, the send decision, and
    the form-encoded body it posts. The HTTP exchange is an input. */
module Transport {
  import opened Wrappers
  import opened Text
  import opened FormEncoding
  import opened Notifications
  import opened Connectors

  /** Seconds to wait after a throttled response without a usable
      Retry-After value. */
  const DefaultThrottleTimeout: Int32 := 60

  /** The status codes the connector tells apart. */
  const StatusOk: int := 200
  const StatusTooManyRequests: int := 429

  // ------------------------------------------------------------ throttle

  /** When the connector was last throttled (ms), if it still is, and for
      how many seconds. */
  datatype ThrottleState = ThrottleState(lastThrottled: Option<int>, timeoutSeconds: Int32)

  /** The cool-down in milliseconds, computed without overflow. */
  function CooldownMillis(t: Int32): int {
    t as int * 1000
  }

  /** The cool-down as the `int` product `throttleTimeout * 1000` yields it. */
  function CooldownMillisAsWritten(t: Int32): Int32 {
    Wrap32(t as int * 1000)
  }

  /** `isThrottled` against a cool-down function: idle stays idle; a
      throttle ends once strictly more than the cool-down has passed. */
  function CheckWith(s: ThrottleState, now: int, cooldown: int): (r: (bool, ThrottleState))
    ensures s.lastThrottled.None? ==> r == (false, s)
    ensures s.lastThrottled.Some? ==>
      (r.0 <==> now - s.lastThrottled.value <= cooldown)
      && r.1 == (if r.0 then s else s.(lastThrottled := None))
  {
    match s.lastThrottled
    case None => (false, s)
    case Some(at) => if now - at > cooldown then (false, s.(lastThrottled := None)) else (true, s)
  }

  /** `isThrottled` as intended, with the cool-down in long arithmetic. */
  function CheckThrottle(s: ThrottleState, now: int): (bool, ThrottleState) {
    CheckWith(s, now, CooldownMillis(s.timeoutSeconds))
  }

  /** `isThrottled` as written, with the 32-bit product widened only
      after it wraps. This is the check the connector runs. */
  function CheckThrottleAsWritten(s: ThrottleState, now: int): (bool, ThrottleState) {
    CheckWith(s, now, CooldownMillisAsWritten(s.timeoutSeconds))
  }

  /** `setTemporaryTimeout(int)`. */
  function RecordThrottle(now: int, t: Int32): ThrottleState {
    ThrottleState(Some(now), t)
  }

  /** The timeout `setTemporaryTimeout(String)` takes from a Retry-After
      value: the parsed number, or the default when the value is null,
      empty or not a number. */
  function RetryAfterSeconds(header: Option<string>): Int32 {
    if header.None? || header.value == "" then DefaultThrottleTimeout
    else match ParseInt(header.value)
      case Some(n) => n
      case None => DefaultThrottleTimeout
  }

  /** A throttle recorded at `at` for `t >= 0` seconds holds for every check
      up to and including `at + t*1000` ms, and a check after that ends it. */
  lemma ThrottleWindow(at: int, t: Int32, now: int)
    requires at <= now
    ensures CheckThrottle(RecordThrottle(at, t), now).0 <==> now <= at + t as int * 1000
    ensures !CheckThrottle(RecordThrottle(at, t), now).0 ==>
      CheckThrottle(RecordThrottle(at, t), now).1 == ThrottleState(None, t)
    ensures t >= 0 ==> CheckThrottle(RecordThrottle(at, t), at) == (true, RecordThrottle(at, t))
  {
  }

  /** A second check at the same moment answers the same and changes
      nothing, with either cool-down. */
  lemma CheckThrottleIdempotent(s: ThrottleState, now: int)
    ensures var (b, s1) := CheckThrottle(s, now); CheckThrottle(s1, now) == (b, s1)
    ensures var (b, s1) := CheckThrottleAsWritten(s, now); CheckThrottleAsWritten(s1, now) == (b, s1)
  {
  }

  /** Once a check finds the connector unthrottled, every later check does
      too, with no change, until a new throttle is recorded. */
  lemma UnthrottledStays(s: ThrottleState, now: int, later: int)
    ensures !CheckThrottle(s, now).0 ==>
      CheckThrottle(CheckThrottle(s, now).1, later) == (false, CheckThrottle(s, now).1)
    ensures !CheckThrottleAsWritten(s, now).0 ==>
      CheckThrottleAsWritten(CheckThrottleAsWritten(s, now).1, later) == (false, CheckThrottleAsWritten(s, now).1)
  {
  }

  /** The two cool-downs, and so the two checks, agree while the product
      fits in an `int`. */
  lemma CooldownAgreesInRange(t: Int32)
    requires -2147483 <= t <= 2147483
    ensures CooldownMillisAsWritten(t) == CooldownMillis(t)
    ensures forall s: ThrottleState, now: int :: s.timeoutSeconds == t ==>
      CheckThrottleAsWritten(s, now) == CheckThrottle(s, now)
  {
  }

  /** As written, a Retry-After of 2147484 seconds overflows to a negative
      cool-down, so the throttle recorded at `now` is over at `now`. */
  lemma CooldownOverflowCounterexample(now: int)
    ensures CooldownMillisAsWritten(2147484) == -2147483296
    ensures !CheckThrottleAsWritten(RecordThrottle(now, 2147484), now).0
    ensures CheckThrottle(RecordThrottle(now, 2147484), now).0
  {
    assert 2147484 * 1000 - 0x1_0000_0000 == -2147483296;
  }

  /** The Retry-After text of any `int` yields that `int`; a missing,
      empty or non-numeric one yields the default. */
  lemma RetryAfterParses(n: Int32)
    ensures RetryAfterSeconds(Some(Decimal(n))) == n
    ensures RetryAfterSeconds(None) == DefaultThrottleTimeout
    ensures RetryAfterSeconds(Some("")) == DefaultThrottleTimeout
    ensures RetryAfterSeconds(Some("soon")) == DefaultThrottleTimeout
  {
    ParseIntDecimal(n);
    DigitsRoundTrip(if n < 0 then -(n as int) else n as int);
    assert !IsDigit('s');
  }

  // ------------------------------------------------------------ exchange

  /** How the HTTP exchange ended: a response (status and Retry-After
      header), an I/O failure, or an unchecked exception along the way. */
  datatype Exchange =
    | Responded(status: int, retryAfter: Option<string>)
    | IoFailure
    | RuntimeFailure

  /** One send as the environment plays it: the clock when the throttle is
      checked, the exchange, and the clock when a throttle is recorded. */
  datatype Wire = Wire(checkedAt: int, exchange: Exchange, answeredAt: int)

  /** Whether a send gets as far as the HTTP exchange. */
  predicate Proceeds(s: ThrottleState, sendable: bool, now: int) {
    sendable && !CheckThrottleAsWritten(s, now).0
  }

  /** The send decision: whether the notification was delivered, and the
      throttle state afterwards. */
  function Deliver(s: ThrottleState, sendable: bool, w: Wire): (bool, ThrottleState) {
    if !sendable then (false, s)
    else
      var (throttled, s1) := CheckThrottleAsWritten(s, w.checkedAt);
      if throttled then (false, s1)
      else match w.exchange
        case Responded(status, header) =>
          if status == StatusOk then (true, s1)
          else if status == StatusTooManyRequests then (false, RecordThrottle(w.answeredAt, RetryAfterSeconds(header)))
          else (false, s1)
        case _ => (false, s1)
  }

  /** Delivery happens exactly when the gate passes, the throttle is off and
      the server answers 200. */
  lemma DeliveredIff(s: ThrottleState, sendable: bool, w: Wire)
    ensures Deliver(s, sendable, w).0 <==>
      Proceeds(s, sendable, w.checkedAt) && w.exchange.Responded? && w.exchange.status == StatusOk
  {
  }

  /** A gated or throttled send leaves the throttle as the check left it and
      delivers nothing; only a 429 records a new throttle. */
  lemma DeliverState(s: ThrottleState, sendable: bool, w: Wire)
    ensures !sendable ==> Deliver(s, sendable, w) == (false, s)
    ensures sendable && CheckThrottleAsWritten(s, w.checkedAt).0 ==> Deliver(s, sendable, w) == (false, s)
    ensures Proceeds(s, sendable, w.checkedAt) ==>
      Deliver(s, sendable, w).1 == (if w.exchange.Responded? && w.exchange.status == StatusTooManyRequests
        then RecordThrottle(w.answeredAt, RetryAfterSeconds(w.exchange.retryAfter))
        else CheckThrottleAsWritten(s, w.checkedAt).1)
  {
  }

  /** After a 429 whose Retry-After is `n` seconds, `0 <= n <= 2147483`, no
      send is delivered for `n*1000` ms, whatever the server would answer. */
  lemma TooManyRequestsBlocks(s: ThrottleState, w: Wire, n: Int32, next: Wire)
    requires w.exchange == Responded(StatusTooManyRequests, Some(Decimal(n))) && 0 <= n <= 2147483
    requires Proceeds(s, true, w.checkedAt)
    requires w.answeredAt <= next.checkedAt <= w.answeredAt + n as int * 1000
    ensures !Deliver(Deliver(s, true, w).1, true, next).0
  {
    RetryAfterParses(n);
    assert Deliver(s, true, w).1 == RecordThrottle(w.answeredAt, n);
    CooldownAgreesInRange(n);
    ThrottleWindow(w.answeredAt, n, next.checkedAt);
  }

  /** Beyond that bound the throttle does not hold: after a 429 with a
      Retry-After of 2147484 seconds, a send 1 ms later is delivered when
      the server answers 200. */
  lemma OverflowedRetryAfterDelivers(s: ThrottleState, w: Wire, next: Wire)
    requires w.exchange == Responded(StatusTooManyRequests, Some(Decimal(2147484)))
    requires Proceeds(s, true, w.checkedAt)
    requires next.checkedAt == w.answeredAt + 1 && next.exchange == Responded(StatusOk, None)
    ensures Deliver(Deliver(s, true, w).1, true, next).0
  {
    RetryAfterParses(2147484);
    assert Deliver(s, true, w).1 == RecordThrottle(w.answeredAt, 2147484);
    CooldownOverflowCounterexample(w.answeredAt);
  }

  // ---------------------------------------------------------------- body

  /** The parameters posted: the notification's "json" and the signature.
      `HashMap` enumerates "signature" (bucket 5 of 16) before "json"
      (bucket 9 of 16). */
  function SendParams(signature: Option<string>, json: string): seq<Param> {
    [("signature", signature), ("json", Some(json))]
  }

  /** The text posted for a signature and a JSON rendering. */
  function PostBody(signature: Option<string>, json: string): string {
    Assign("signature", match signature case Some(v) => Encode(v) case None => "") + "&" + Assign("json", Encode(json))
  }

  function Assign(name: string, value: string): string {
    name + "=" + value
  }

  /** The two parameter names are their own encodings. */
  lemma KeysEncodeUnchanged()
    ensures Encode("signature") == "signature" && Encode("json") == "json"
  {
    EncodeUnreserved("signature");
    EncodeUnreserved("json");
  }

  /** A pair whose name is its own encoding. */
  lemma PairWithPlainName(k: string, v: Option<string>)
    requires Encode(k) == k
    ensures EncodePair((k, v)) == Assign(k, match v case Some(x) => Encode(x) case None => "")
  {
  }

  /** A two-pair query is the two pairs joined by '&'. */
  lemma TwoPairQuery(p: Param, q: Param)
    ensures Query([p, q]) == EncodePair(p) + "&" + EncodePair(q)
  {
    assert [p, q][1..] == [q];
  }

  /** The query built from the two parameters is that text. */
  lemma PostBodyIsQuery(signature: Option<string>, json: string)
    ensures Query(SendParams(signature, json)) == PostBody(signature, json)
  {
    KeysEncodeUnchanged();
    TwoPairQuery(("signature", signature), ("json", Some(json)));
    PairWithPlainName("signature", signature);
    PairWithPlainName("json", Some(json));
  }


  /** What the string builder holds before the trailing '&' is cut. */
  function Terminated(ps: seq<Param>): string {
    if ps == [] then "" else Terminated(ps[..|ps| - 1]) + EncodePair(ps[|ps| - 1]) + "&"
  }

  lemma {:induction false} TerminatedQuery(ps: seq<Param>)
    requires |ps| > 0
    ensures Terminated(ps) == Query(ps) + "&"
    decreases |ps|
  {
    var init := ps[..|ps| - 1];
    var last := ps[|ps| - 1];
    assert Terminated(ps) == Terminated(init) + EncodePair(last) + "&";
    if |ps| == 1 {
      assert init == [];
      assert Query(ps) == EncodePair(last);
    } else {
      TerminatedQuery(init);
      QuerySnoc(init, last);
      assert init + [last] == ps;
      var q, e := Query(init), EncodePair(last);
      assert Query(ps) == q + "&" + e;
      assert Terminated(ps) == q + "&" + e + "&";
    }
  }

  /** The query loop: `Enc(k)=Enc(v)&` per parameter, then the last
      character cut off. With no parameters the cut fails (None). */
  method BuildQuery(ps: seq<Param>) returns (q: Option<string>)
    ensures ps == [] ==> q.None?
    ensures ps != [] ==> q == Some(Query(ps))
  {
    var sb := "";
    for i := 0 to |ps|
      invariant sb == Terminated(ps[..i])
    {
      assert ps[..i + 1][..i] == ps[..i];
      sb := sb + EncodePair(ps[i]) + "&";
    }
    assert ps[..|ps|] == ps;
    if |sb| == 0 {
      return None;
    }
    TerminatedQuery(ps);
    q := Some(sb[..|sb| - 1]);
  }

  /** A two-parameter query reads back as its two pairs. */
  lemma PairRoundTrip(a: Param, b: Param)
    ensures ParseQuery(Query([a, b])) == Some([(a.0, a.1.GetOr("")), (b.0, b.1.GetOr(""))])
  {
    var ps := [a, b];
    ParseQueryRoundTrip(ps);
    var tail := [b];
    assert ps[1..] == tail && tail[1..] == [];
    assert Received(tail) == [(b.0, b.1.GetOr(""))] + Received([]);
    assert Received(ps) == [(a.0, a.1.GetOr(""))] + Received(tail);
    assert Received(ps) == [(a.0, a.1.GetOr("")), (b.0, b.1.GetOr(""))];
  }

  /** The server reads back exactly the signature (empty when null) and
      the JSON from the posted body. */
  lemma SendBodyRoundTrip(signature: Option<string>, json: string)
    ensures ParseQuery(PostBody(signature, json)) == Some([("signature", signature.GetOr("")), ("json", json)])
  {
    PostBodyIsQuery(signature, json);
    PairRoundTrip(("signature", signature), ("json", Some(json)));
  }

  // ----------------------------------------------------------- connector

  /** A notification's fields apart from the three the connector stamps. */
  function Unstamped(f: Fields): Fields {
    f.(applicationEnvironment := None, version := None, userId := None)
  }

  /** A notification that went out: stamped with the connector's
      environment, version and (when there is a provider) user, and posted
      as the signature and the JSON rendering of the stamped fields. */
  predicate Stamped(f: Fields, gson: Renderer, c: Settings, priorUser: Option<string>, body: Option<string>) {
    f.applicationEnvironment == c.applicationEnvironment && f.version == c.version
    && f.userId == (if c.userProvider.Some? then c.userProvider.value.currentUser else priorUser)
    && body == Some(PostBody(c.signature, gson(f)))
  }

  class SimpleConnector {
    const config: Connector
    var lastThrottled: Option<int>
    var throttleTimeout: Int32

    function Throttle(): ThrottleState
      reads this
    {
      ThrottleState(lastThrottled, throttleTimeout)
    }

    constructor (signature: Option<string>)
      ensures fresh(config) && config.Valid() && config.signature == signature
      ensures config.url == DefaultApiUrl && config.timeout == DefaultTimeout
      ensures config.applicationEnvironment == Some(DefaultEnvironment) && config.version == Some(DefaultVersion)
      ensures config.enabledEnvironments == DefaultEnabledEnvironments && config.userProvider == None
      ensures Throttle() == ThrottleState(None, 0)
    {
      config := new Connector(signature);
      lastThrottled := None;
      throttleTimeout := 0;
    }

    /** `isThrottled`: the answer and the new state follow the check as
        written, with the 32-bit cool-down. */
    method IsThrottled(now: int) returns (throttled: bool)
      modifies this`lastThrottled
      ensures (throttled, Throttle()) == CheckThrottleAsWritten(old(Throttle()), now)
    {
      if lastThrottled.None? {
        return false;
      }
      var diff := now - lastThrottled.value;
      if diff > CooldownMillisAsWritten(throttleTimeout) as int {
        lastThrottled := None;
        return false;
      }
      return true;
    }

    /** `setTemporaryTimeout(int)`. */
    method SetTemporaryTimeout(t: Int32, now: int)
      modifies this`lastThrottled, this`throttleTimeout
      ensures Throttle() == RecordThrottle(now, t)
    {
      lastThrottled := Some(now);
      throttleTimeout := t;
    }

    /** `setTemporaryTimeout(String)`: never fails. */
    method SetTemporaryTimeoutFromHeader(header: Option<string>, now: int)
      modifies this`lastThrottled, this`throttleTimeout
      ensures Throttle() == RecordThrottle(now, RetryAfterSeconds(header))
    {
      if header.None? || header.value == "" {
        SetTemporaryTimeout(DefaultThrottleTimeout, now);
        return;
      }
      match ParseInt(header.value)
      case Some(n) => SetTemporaryTimeout(n, now);
      case None => SetTemporaryTimeout(DefaultThrottleTimeout, now);
    }

    /** The setter calls of `send` that stamp the connector's settings. */
    method Stamp(n: LoggedNotification)
      modifies n`applicationEnvironment, n`version, n`userId
      ensures n.applicationEnvironment == config.applicationEnvironment && n.version == config.version
      ensures n.userId == (if config.userProvider.Some? then config.userProvider.value.currentUser else old(n.userId))
    {
      n.SetApplicationEnvironment(config.applicationEnvironment);
      n.SetVersion(config.version);
      if config.userProvider.Some? {
        n.SetUserId(config.userProvider.value.currentUser);
      }
    }

    /** The body `send` posts for a notification: its parameters and the
        signature, form-encoded. */
    method Post(n: LoggedNotification) returns (body: Option<string>)
      ensures body == Some(PostBody(config.signature, n.gson(n.View())))
    {
      var params := n.QueryParams();
      body := BuildQuery(SendParams(config.signature, params["json"]));
      PostBodyIsQuery(config.signature, params["json"]);
    }

    /** `send`: the gate, then the throttle check, then the notification is
        stamped with environment, version and user, the body is built and
        the exchange decides. `body` is the text built for posting, if any. */
    method Send(n: LoggedNotification, w: Wire) returns (delivered: bool, body: Option<string>)
      requires config.Valid()
      modifies this`lastThrottled, this`throttleTimeout
      modifies n`applicationEnvironment, n`version, n`userId
      ensures (delivered, Throttle()) == Deliver(old(Throttle()), config.IsSendable(), w)
      ensures var go := Proceeds(old(Throttle()), config.IsSendable(), w.checkedAt);
        (go ==> Stamped(n.View(), n.gson, config.Snapshot(), old(n.userId), body)) && (!go ==> (unchanged(n) && body.None?))
      ensures Unstamped(n.View()) == old(Unstamped(n.View()))
    {
      if !config.IsSendable() {
        return false, None;
      }
      var throttled := IsThrottled(w.checkedAt);
      if throttled {
        return false, None;
      }
      Stamp(n);
      body := Post(n);
      match w.exchange
      case Responded(status, header) =>
        if status == StatusOk {
          return true, body;
        } else if status == StatusTooManyRequests {
          SetTemporaryTimeoutFromHeader(header, w.answeredAt);
          return false, body;
        }
        return false, body;
      case IoFailure => return false, body;
      case RuntimeFailure => return false, body;
    }
  }
}
