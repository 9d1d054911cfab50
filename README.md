# Coalmine Java connector: a verified model

This project models the client side of the Coalmine Java connector. That
is the library an application uses to report its errors and log events to
the Coalmine service. The model covers:

- the connector configuration and the environment gate, which decides
  whether notifications may leave this environment (`Connectors`);
- the blocking connector (`Transport`): the client-side throttle, the send
  decision, and the `application/x-www-form-urlencoded` body it posts;
- the non-blocking connector (`Dispatch`): a bounded queue that drops the
  newest notification when full, drained by a worker one step at a time;
- the notification record (`Notifications`): its fields derived from an
  exception, the stack-trace text, and the request parameters and
  environment map taken from a servlet request;
- the GWT notification's filter for runtime overhead frames
  (`GwtNotifications`);
- the two logging adapters: the Logback appender (`LogbackAppender`) and the
  `java.util.logging` handler (`JulHandler`). For each, the model covers
  the level threshold, the own-logger guard, the severity map and the
  notification handed to the connector. They share `Forwarding`;
- the Java platform primitives these rely on (`Text`, `FormEncoding`,
  `Wrappers`): `int` wrap-around, ASCII lower-casing, `String.contains`,
  `Integer.parseInt`/`toString`, `StringBuilder` line joins, and
  `URLEncoder` with a matching form decoder.

Objects the source mutates are classes with `modifies` frames:

- `Connector`, `SimpleConnector`, `NoneBlockingConnector`;
- `LoggedNotification`, `CoalmineAppender`, `CoalmineHandler`.

The inheritance chain `Connector` ← `SimpleConnector` ← `NoneBlockingConnector`
is modelled by composition:

- a `SimpleConnector` holds its `Connector` settings;
- a `NoneBlockingConnector` holds the `SimpleConnector` its worker sends
  through;
- a `Connector` reference with a virtual `send` is the datatype
  `AnyConnector`, which is `Blocking` or `NonBlocking`.

The environment is passed in as parameters:

- the clock and the HTTP exchange are a `Wire`: the time of the throttle
  check, the outcome of the exchange, and the time a throttle is recorded;
- the constructing thread and machine are a `Host`;
- Gson's `toJson` is a `Renderer` function over the notification's fields;
- the static `Coalmine` holder is a `Globals` value.

Three choices disagree with, or go beyond, what the Java files define:

- This version of `src/main/java/com/coalmine/connector/Connector.java`
  has no `isSendable`, `addEnabledEnvironment` or user provider, yet
  `SimpleConnector.java` and the tests call them.
  The gate is modelled from the tests:
  - enabled names are stored lower-cased, and a null or empty name is
    refused with an invalid-argument error;
  - the default enabled set is `production` and `staging`;
  - a null environment never passes.
- The default application environment is `"Production"`.
  `src/main/java/com/coalmine/connector/Connector.java:20` says
  `"Development"`, but then a fresh connector could not pass the gate.
  `SimpleConnectorTest.java:31-35` asserts that it does, and the servlet
  filter documents `"Production"` as the default (`CoalmineFilter.java:29`).
- `HashMap` enumerates the two posted parameters with `signature` first,
  then `json`. This is their bucket order in a 16-bucket table.

## Model

| member | source | states |
|---|---|---|
| Wrappers.Option.OrElse | src/main/java/com/coalmine/connector/logging/CoalmineAppender.java:56-63 | a value that is set wins; an unset one falls back to the other, as the appender falls back on the global settings |
| Text.Wrap32 | src/main/java/com/coalmine/connector/SimpleConnector.java:89 | the Java `int` result agrees with the exact value modulo 2^32, and equals it when it fits in 32 bits |
| Text.Lower | src/test/java/com/coalmine/connector/SimpleConnectorTest.java:43-47 | lower-casing keeps the length and lower-cases each character in place |
| Text.LowerIdempotent | src/test/java/com/coalmine/connector/SimpleConnectorTest.java:43-47 | lower-casing a lower-cased name changes nothing, so stored names compare with their own lower-cased form |
| Text.Contains | src/main/java/com/coalmine/connector/logging/CoalmineAppender.java:38 | `String.contains`, as the scan the logger-name guards run; `ContainsIff` proves it finds the text exactly when it occurs at some index |
| Text.ContainsIff | src/main/java/com/coalmine/connector/logging/CoalmineAppender.java:38 | the left-to-right `contains` scan succeeds exactly when the text occurs at some index |
| Text.DigitChar | src/main/java/com/coalmine/connector/notification/LoggedNotification.java:216 | every digit value yields a decimal digit character |
| Text.Decimal | src/main/java/com/coalmine/connector/notification/LoggedNotification.java:216 | `Integer.toString`: a sign for negatives, then the digits; `DigitsRoundTrip` and `ParseIntDecimal` read it back |
| Text.DigitsRoundTrip | src/main/java/com/coalmine/connector/notification/LoggedNotification.java:216 | the decimal text of a number is a non-empty digit string whose value is that number |
| Text.ParseInt | src/main/java/com/coalmine/connector/SimpleConnector.java:186 | `Integer.parseInt`: an optional sign and decimal digits in the `int` range, anything else a failure; `ParseIntDecimal` proves it inverts `Decimal` on every `int` |
| Text.ParseIntDecimal | src/main/java/com/coalmine/connector/SimpleConnector.java:186 | `parseInt` of the decimal text of any `int`, negatives and both extremes included, gives that `int` back |
| Text.JoinLinesSnoc | src/main/java/com/coalmine/connector/notification/LoggedNotification.java:103-109 | appending one more line and a newline extends the joined text at its end |
| Text.JoinLines | src/main/java/com/coalmine/connector/notification/LoggedNotification.java:103-109 | every line followed by "\n", in order; `BuildLines` proves the builder loop equal to it and `SplitJoinLines` splits it back |
| Text.BuildLines | src/main/java/com/coalmine/connector/notification/LoggedNotification.java:103-109 | the `StringBuilder` loop ends with every line followed by "\n", in order |
| Text.SplitLinesCons | src/main/java/com/coalmine/connector/notification/LoggedNotification.java:103-109 | splitting a newline-terminated first line peels off exactly that line |
| Text.SplitJoinLines | src/main/java/com/coalmine/connector/notification/LoggedNotification.java:103-109 | lines without their own newline split back out of the joined text unchanged: the join loses and merges nothing |
| Text.DigitsNoNewline | src/main/java/com/coalmine/connector/notification/LoggedNotification.java:105 | a line number's decimal text holds no newline |
| FormEncoding.HexDigit | src/main/java/com/coalmine/connector/SimpleConnector.java:127 | each hexadecimal digit URLEncoder writes is an unreserved character |
| FormEncoding.HexValue | src/main/java/com/coalmine/connector/SimpleConnector.java:127 | reading a hexadecimal digit yields a value below 16 |
| FormEncoding.HexRoundTrip | src/main/java/com/coalmine/connector/SimpleConnector.java:127 | reading back a written hexadecimal digit gives its value |
| FormEncoding.EscapeAll | src/main/java/com/coalmine/connector/SimpleConnector.java:127 | percent-escaping takes three characters per byte, all from the encoder's output alphabet |
| FormEncoding.EncodeChar | src/main/java/com/coalmine/connector/SimpleConnector.java:127 | encoding one character uses only the encoder's output alphabet |
| FormEncoding.Encode | src/main/java/com/coalmine/connector/SimpleConnector.java:124-127 | encoded text uses only the output alphabet and never holds '&' or '=', so the pair separators stay unambiguous |
| FormEncoding.EncodeUnreserved | src/main/java/com/coalmine/connector/SimpleConnector.java:124 | text made of unreserved characters, such as the two parameter names, is its own encoding |
| FormEncoding.ByteAtEscapeAll | src/main/java/com/coalmine/connector/SimpleConnector.java:127 | the j-th escape of a byte run reads back as the j-th byte |
| FormEncoding.ContinuationsEscapeAll | src/main/java/com/coalmine/connector/SimpleConnector.java:127 | escaped UTF-8 continuation bytes fold back into the code point bits they carry |
| FormEncoding.Utf8Fold | src/main/java/com/coalmine/connector/SimpleConnector.java:127 | the UTF-8 bytes of a character hold a lead byte announcing the number of continuation bytes, and together carry exactly that character's code point |
| FormEncoding.DecodeEscapeUtf8 | src/main/java/com/coalmine/connector/SimpleConnector.java:127 | the escaped UTF-8 of a character decodes to that character, consuming exactly its escapes |
| FormEncoding.DecodeEncodeChar | src/main/java/com/coalmine/connector/SimpleConnector.java:127 | decoding reads exactly one encoded character off the front of the text |
| FormEncoding.DecodeEncode | src/main/java/com/coalmine/connector/SimpleConnector.java:124-127 | form decoding undoes URLEncoder for every string of Unicode scalar values: decode(encode(s)) == s |
| FormEncoding.Query | src/main/java/com/coalmine/connector/SimpleConnector.java:121-133 | the posted query: encoded pairs joined by '&'; `QuerySnoc`, `BuildQuery` and `ParseQueryRoundTrip` state how it grows, how it is built and that it parses back |
| FormEncoding.QuerySnoc | src/main/java/com/coalmine/connector/SimpleConnector.java:123-130 | one more parameter appends "&" and its encoded pair to the query |
| FormEncoding.Split | src/main/java/com/coalmine/connector/SimpleConnector.java:129 | cutting a query at '&' always yields at least one segment |
| FormEncoding.DecodeEncodePair | src/main/java/com/coalmine/connector/SimpleConnector.java:124-128 | a posted pair reads back as its name and its value, empty where the value was null |
| FormEncoding.ParseQueryRoundTrip | src/main/java/com/coalmine/connector/SimpleConnector.java:121-133 | any query the connector builds parses back pair by pair, in order, with null values as empty |
| Notifications.FrameText | src/main/java/com/coalmine/connector/notification/LoggedNotification.java:105 | a frame's text starts with its class name and a '.', and is longer than class and method name together |
| Notifications.FrameTexts | src/main/java/com/coalmine/connector/notification/LoggedNotification.java:104-107 | one text per frame, in frame order |
| Notifications.FrameTextSingleLine | src/main/java/com/coalmine/connector/notification/LoggedNotification.java:105 | a frame whose names hold no newline renders as a single line |
| Notifications.StackTraceLines | src/main/java/com/coalmine/connector/notification/LoggedNotification.java:103-109 | the stack trace text splits back into exactly one line per frame, in order |
| Notifications.StackTraceEmpty | src/main/java/com/coalmine/connector/notification/LoggedNotification.java:103-109 | the stack trace text is empty exactly when the stack has no frames |
| Notifications.ExceptionMessage | src/main/java/com/coalmine/connector/notification/LoggedNotification.java:93 | the message starts with '[' followed by the exception's simple class name |
| Notifications.ExceptionMessageName | src/main/java/com/coalmine/connector/notification/LoggedNotification.java:93 | the class name can be read back off the message up to the first ']', whenever the name holds no ']' |
| Notifications.SplitAtPrefix | src/main/java/com/coalmine/connector/notification/LoggedNotification.java:93 | the text before the first separator is the prefix that holds no separator |
| Notifications.ParametersTextCut | src/main/java/com/coalmine/connector/notification/LoggedNotification.java:198-209 | no parameters give ""; otherwise the cut drops exactly the last character of the unseparated `key=value` chunks, which is the last value's last character, or its '=' when that value is empty |
| Notifications.CutLast | src/main/java/com/coalmine/connector/notification/LoggedNotification.java:207-209 | cutting the last character of `before + v` cuts into `v` when `v` is not empty, and into `before` otherwise |
| Notifications.KeysApart | src/main/java/com/coalmine/connector/notification/LoggedNotification.java:213-243 | the request keys, the HTTP-only keys, "Locale" and the header keys never collide |
| Notifications.HttpKeysApart | src/main/java/com/coalmine/connector/notification/LoggedNotification.java:213-236 | the HTTP-only keys are none of the base keys and not "Locale" |
| Notifications.HeaderKeysApart | src/main/java/com/coalmine/connector/notification/LoggedNotification.java:242 | no base, HTTP or "Locale" key has the form `name Header` |
| Notifications.NotHeaderKey | src/main/java/com/coalmine/connector/notification/LoggedNotification.java:242 | a key that does not end in 'r' is not a header key |
| Notifications.RequestEnvironment | src/main/java/com/coalmine/connector/notification/LoggedNotification.java:213-243 | the environment map a request leaves: the base keys, then for HTTP requests the HTTP entries and one entry per header; the lemmas beside it state each part |
| Notifications.BaseEnvironment | src/main/java/com/coalmine/connector/notification/LoggedNotification.java:213-227 | every request stores the eleven base keys, plus "Locale" exactly when it has a locale |
| Notifications.PutHeadersEntries | src/main/java/com/coalmine/connector/notification/LoggedNotification.java:238-243 | the header loop keeps every key that is not a header key, and stores every enumerated header under `name Header` with the container's value |
| Notifications.LocaleEntry | src/main/java/com/coalmine/connector/notification/LoggedNotification.java:225-227 | "Locale" is in the environment map exactly when the request has a locale, and then holds its text |
| Notifications.HttpEntriesPresent | src/main/java/com/coalmine/connector/notification/LoggedNotification.java:229-236 | query string, method and authentication type are stored exactly for HTTP requests |
| Notifications.NoHeadersWithoutHttp | src/main/java/com/coalmine/connector/notification/LoggedNotification.java:229-244 | a request that is not HTTP stores no header entries |
| Notifications.HeaderEntries | src/main/java/com/coalmine/connector/notification/LoggedNotification.java:238-243 | an HTTP request stores each enumerated header under `name Header` with its value |
| Notifications.ParametersText | src/main/java/com/coalmine/connector/notification/LoggedNotification.java:198-209 | the parameters text with its last character cut, as written; `BuildParameters` proves the loop equal to it and `ParametersTextCut` states what the cut removes |
| Notifications.BuildParameters | src/main/java/com/coalmine/connector/notification/LoggedNotification.java:198-209 | the parameters loop and its cut produce the parameters text |
| Notifications.PutAllHeaders | src/main/java/com/coalmine/connector/notification/LoggedNotification.java:238-243 | the header loop produces the map with every enumerated header put in order |
| Notifications.LoggedNotification.Empty | src/main/java/com/coalmine/connector/notification/LoggedNotification.java:127-139 | a new notification holds the thread id, host name and system properties, severity ERROR, and nothing else |
| Notifications.ThrowableFields | src/main/java/com/coalmine/connector/notification/LoggedNotification.java:87-111 | the fields a notification for an exception starts with; `FromThrowable` is proved equal to it and `JulHandler.PublishedFields` states what it leaves after `publish` |
| Notifications.LoggedNotification.FromThrowable | src/main/java/com/coalmine/connector/notification/LoggedNotification.java:87-111 | severity ERROR; for an exception, the bracketed message and the stack text, with class, file, line and method from frame 0 when there is one; for no exception, no message and no stack trace; all other fields unset; the whole view is `ThrowableFields` of the exception and the host |
| Notifications.LoggedNotification.QueryParams | src/main/java/com/coalmine/connector/notification/LoggedNotification.java:148-153 | exactly one parameter, "json", holding the rendering of the whole notification |
| Notifications.LoggedNotification.SetApplicationEnvironment | src/main/java/com/coalmine/connector/notification/LoggedNotification.java:155-158 | sets the environment field and no other |
| Notifications.LoggedNotification.SetVersion | src/main/java/com/coalmine/connector/notification/Notification.java:39-41 | sets the version field and no other |
| Notifications.LoggedNotification.SetMessage | src/main/java/com/coalmine/connector/notification/LoggedNotification.java:165-167 | sets the message and no other field |
| Notifications.LoggedNotification.SetMethodName | src/main/java/com/coalmine/connector/notification/LoggedNotification.java:172-174 | sets the method name and no other field |
| Notifications.LoggedNotification.SetClassName | src/main/java/com/coalmine/connector/notification/LoggedNotification.java:179-181 | sets the class name and no other field |
| Notifications.LoggedNotification.SetSeverity | src/main/java/com/coalmine/connector/notification/LoggedNotification.java:186-188 | sets the severity and no other field |
| Notifications.LoggedNotification.SetFile | src/main/java/com/coalmine/connector/logging/CoalmineAppender.java:88 | sets the file and no other field |
| Notifications.LoggedNotification.SetLineNumber | src/main/java/com/coalmine/connector/logging/CoalmineAppender.java:89 | sets the line number and no other field |
| Notifications.LoggedNotification.SetStackTrace | src/main/java/com/coalmine/connector/logging/CoalmineAppender.java:99 | sets the stack trace and no other field |
| Notifications.LoggedNotification.SetUserId | src/main/java/com/coalmine/connector/SimpleConnector.java:107 | sets the user id and no other field |
| Notifications.LoggedNotification.SetEnvironment | src/main/java/com/coalmine/connector/logging/CoalmineAppender.java:47 | sets the environment map and no other field |
| Notifications.LoggedNotification.SetRequest | src/main/java/com/coalmine/connector/notification/LoggedNotification.java:196-245 | records the parameters text, remote address and environment map; referrer, user agent and URI only for an HTTP request; nothing else changes |
| GwtNotifications.IsGwtOverhead | src/main/java/com/coalmine/connector/notification/GwtLoggedNotification.java:40-49 | true exactly when the frame's file is one of the two ignored GWT files; never for a frame without a file |
| GwtNotifications.WithoutOverhead | src/main/java/com/coalmine/connector/notification/GwtLoggedNotification.java:29-38 | the frames that are present and not GWT overhead, in order; the `WithoutOverhead` lemmas state membership, length, order and idempotence |
| GwtNotifications.ExtractStackTraceElements | src/main/java/com/coalmine/connector/notification/GwtLoggedNotification.java:29-38 | the loop keeps exactly the frames that are not overhead, in order |
| GwtNotifications.WithoutOverheadAppend | src/main/java/com/coalmine/connector/notification/GwtLoggedNotification.java:31-35 | filtering a concatenation filters each part |
| GwtNotifications.WithoutOverheadMembers | src/main/java/com/coalmine/connector/notification/GwtLoggedNotification.java:31-35 | a frame is in the result exactly when it was in the stack and is not overhead |
| GwtNotifications.WithoutOverheadLength | src/main/java/com/coalmine/connector/notification/GwtLoggedNotification.java:29-38 | the result is never longer than the stack, and as long exactly when no frame is overhead |
| GwtNotifications.WithoutOverheadIdempotent | src/main/java/com/coalmine/connector/notification/GwtLoggedNotification.java:29-38 | filtering a filtered stack changes nothing |
| GwtNotifications.WithoutOverheadOrder | src/main/java/com/coalmine/connector/notification/GwtLoggedNotification.java:30-37 | any two kept frames come from two stack positions in the same order |
| Connectors.SendableIgnoresCase | src/test/java/com/coalmine/connector/SimpleConnectorTest.java:43-47 | two environment names equal up to case pass or fail the gate together |
| Connectors.SendableMatchesName | src/test/java/com/coalmine/connector/SimpleConnectorTest.java:37-47 | with lower-cased names stored, an environment passes exactly when it equals some enabled name up to case; an empty name never passes |
| Connectors.DefaultGate | src/test/java/com/coalmine/connector/SimpleConnectorTest.java:31-47 | the default environment and "PrOductioN" pass the default gate, "development" and a null environment do not, and the defaults are stored lower-cased |
| Connectors.EnableExtendsGate | src/test/java/com/coalmine/connector/SimpleConnectorTest.java:21-47 | enabling one name lets through exactly the environments equal to it up to case, in addition to those already enabled |
| Connectors.Connector.constructor | src/main/java/com/coalmine/connector/Connector.java:20-28 | the given signature, the default URL, a 5000 ms timeout, version 1.0.0, the default environment and enabled set, and no user provider |
| Connectors.Connector.SetUrl | src/main/java/com/coalmine/connector/Connector.java:32-34 | sets the URL and no other field |
| Connectors.Connector.GetUrl | src/main/java/com/coalmine/connector/Connector.java:36-38 | reads back the URL last set |
| Connectors.Connector.SetTimeout | src/main/java/com/coalmine/connector/Connector.java:40-42 | sets the timeout and no other field |
| Connectors.Connector.SetApplicationEnvironment | src/main/java/com/coalmine/connector/Connector.java:44-46 | sets the environment and no other field |
| Connectors.Connector.SetVersion | src/main/java/com/coalmine/connector/Connector.java:48-50 | sets the version and no other field |
| Connectors.Connector.SetUserProvider | src/main/java/com/coalmine/connector/SimpleConnector.java:106-108 | sets the user provider and no other field |
| Connectors.Connector.AddEnabledEnvironment | src/test/java/com/coalmine/connector/SimpleConnectorTest.java:21-29 | a null or empty name fails with an invalid-argument error and changes nothing; any other name is added lower-cased, and the stored names stay lower-cased |
| Connectors.Connector.IsSendable | src/main/java/com/coalmine/connector/SimpleConnector.java:68 | the gate passes exactly when the environment is set and enabled up to case, and then it is not empty |
| Transport.CheckWith | src/main/java/com/coalmine/connector/SimpleConnector.java:83-95 | idle stays idle; a throttle holds while at most the cool-down has passed and is cleared once strictly more has |
| Transport.ThrottleWindow | src/main/java/com/coalmine/connector/SimpleConnector.java:83-95 | a throttle recorded at `at` holds exactly up to `at + t*1000` ms inclusive, a check past that clears it, and for `t >= 0` a check at `at` still finds it |
| Transport.CheckThrottleIdempotent | src/main/java/com/coalmine/connector/SimpleConnector.java:83-95 | a second check at the same moment gives the same answer and changes nothing, with the exact and with the 32-bit cool-down |
| Transport.UnthrottledStays | src/main/java/com/coalmine/connector/SimpleConnector.java:84-91 | once a check, exact or 32-bit, finds the connector unthrottled, every later check of the same kind does too, until a new throttle is recorded |
| Transport.CooldownAgreesInRange | src/main/java/com/coalmine/connector/SimpleConnector.java:89 | the 32-bit and the exact cool-down, and so the two throttle checks, agree while the product fits in an `int` |
| Transport.CooldownOverflowCounterexample | src/main/java/com/coalmine/connector/SimpleConnector.java:89 | as written, a timeout of 2147484 s gives a negative cool-down, so a throttle is over the moment it is recorded |
| Transport.OverflowedRetryAfterDelivers | src/main/java/com/coalmine/connector/SimpleConnector.java:83-147 | as written, after a 429 with a Retry-After of 2147484 s, a send 1 ms later that gets a 200 is delivered |
| Transport.RetryAfterSeconds | src/main/java/com/coalmine/connector/SimpleConnector.java:179-191 | the Retry-After header as seconds: 60 when it is missing, empty or unparseable; `RetryAfterParses` states both cases |
| Transport.RecordThrottle | src/main/java/com/coalmine/connector/SimpleConnector.java:199-202 | `setTemporaryTimeout(int)`: throttled since now, for the given seconds; `ThrottleWindow` states how long that holds |
| Transport.CooldownMillisAsWritten | src/main/java/com/coalmine/connector/SimpleConnector.java:89 | the cool-down as the code computes it, `throttleTimeout * 1000` wrapped to 32 bits; `CooldownAgreesInRange` and `CooldownOverflowCounterexample` relate it to the exact product |
| Transport.CheckThrottleAsWritten | src/main/java/com/coalmine/connector/SimpleConnector.java:83-95 | `isThrottled` as written, over the 32-bit cool-down; `CheckThrottleIdempotent` and `UnthrottledStays` hold of it |
| Transport.Proceeds | src/main/java/com/coalmine/connector/SimpleConnector.java:66-101 | a send gets past the environment gate and the 32-bit throttle check; `DeliveredIff`, `Send` and `WorkerStep` state their results in terms of it |
| Transport.Deliver | src/main/java/com/coalmine/connector/SimpleConnector.java:66-171 | the send decision: gate, throttle check, then the exchange's outcome; `DeliveredIff` and `DeliverState` state its verdict and its new throttle state |
| Transport.RetryAfterParses | src/main/java/com/coalmine/connector/SimpleConnector.java:179-191 | the Retry-After text of any `int` yields that `int`; a missing, empty or non-numeric value yields 60 |
| Transport.DeliveredIff | src/main/java/com/coalmine/connector/SimpleConnector.java:66-171 | a send is delivered exactly when the gate passes, the 32-bit throttle check finds no throttle and the server answers 200 |
| Transport.DeliverState | src/main/java/com/coalmine/connector/SimpleConnector.java:66-171 | a gated send leaves the throttle untouched and a throttled one leaves it as the 32-bit check found it; a send past both keeps what that check left unless a 429 records a new throttle, with the Retry-After timeout |
| Transport.TooManyRequestsBlocks | src/main/java/com/coalmine/connector/SimpleConnector.java:144-147 | after a 429 with a Retry-After of n seconds, 0 <= n <= 2147483, no send is delivered for the next n*1000 ms, whatever the server would answer |
| Transport.KeysEncodeUnchanged | src/main/java/com/coalmine/connector/SimpleConnector.java:124 | the names "signature" and "json" are written unencoded |
| Transport.PairWithPlainName | src/main/java/com/coalmine/connector/SimpleConnector.java:124-128 | a pair whose name encodes to itself is written as the name, '=' and the encoded value (empty for null) |
| Transport.TwoPairQuery | src/main/java/com/coalmine/connector/SimpleConnector.java:121-133 | a two-parameter query is the two pairs joined by one '&' |
| Transport.PostBodyIsQuery | src/main/java/com/coalmine/connector/SimpleConnector.java:120-133 | the query built from the signature and the JSON is `signature=…&json=…` |
| Transport.TerminatedQuery | src/main/java/com/coalmine/connector/SimpleConnector.java:122-133 | the builder's text before the cut is the query followed by exactly one trailing '&' |
| Transport.BuildQuery | src/main/java/com/coalmine/connector/SimpleConnector.java:122-133 | the query loop and cut yield the pairs joined by '&' with no trailing '&'; with no parameters the cut has nothing to cut |
| Transport.PairRoundTrip | src/main/java/com/coalmine/connector/SimpleConnector.java:121-133 | a two-parameter query parses back into its two pairs |
| Transport.SendBodyRoundTrip | src/main/java/com/coalmine/connector/SimpleConnector.java:120-133 | the server reads back the signature (empty when null) and the notification's JSON from the posted body, for texts of Unicode scalar values |
| Transport.SimpleConnector.constructor | src/main/java/com/coalmine/connector/SimpleConnector.java:51-53 | default settings for the given signature, and no throttle |
| Transport.SimpleConnector.IsThrottled | src/main/java/com/coalmine/connector/SimpleConnector.java:83-95 | the answer and the new throttle state are those of the throttle check as written, with the 32-bit cool-down |
| Transport.SimpleConnector.SetTemporaryTimeout | src/main/java/com/coalmine/connector/SimpleConnector.java:199-202 | records a throttle at the current time for the given seconds |
| Transport.SimpleConnector.SetTemporaryTimeoutFromHeader | src/main/java/com/coalmine/connector/SimpleConnector.java:179-191 | records a throttle for the Retry-After timeout, 60 s where the value is missing, empty or unparseable; it never fails |
| Transport.SimpleConnector.Stamp | src/main/java/com/coalmine/connector/SimpleConnector.java:104-108 | the notification takes the connector's environment and version, and the provider's user when there is a provider |
| Transport.SimpleConnector.Post | src/main/java/com/coalmine/connector/SimpleConnector.java:120-133 | the posted body is the signature and the JSON rendering of the notification as it now stands |
| Transport.SimpleConnector.Send | src/main/java/com/coalmine/connector/SimpleConnector.java:66-171 | delivery and the new throttle state follow the send decision; a send that gets past gate and throttle stamps the notification and builds the body of its signature and JSON; any other send leaves the notification untouched and builds no body; no field beyond the three stamped ones changes |
| Dispatch.Offer | src/main/java/com/coalmine/connector/NoneBlockingConnector.java:33-41 | accepted exactly when the queue has room; then the notification joins at the tail, otherwise the queue is unchanged |
| Dispatch.OfferPrefix | src/main/java/com/coalmine/connector/NoneBlockingConnector.java:33-41 | offers never overfill the queue: a run of offers into an empty queue keeps the first `capacity` notifications, in order |
| Dispatch.NoneBlockingConnector.constructor | src/main/java/com/coalmine/connector/NoneBlockingConnector.java:23-25 | an empty queue of capacity 128, a worker not yet started, and default settings |
| Dispatch.NoneBlockingConnector.WithCapacity | src/main/java/com/coalmine/connector/NoneBlockingConnector.java:27-31 | an empty queue of the given capacity and a worker not yet started |
| Dispatch.NoneBlockingConnector.Send | src/main/java/com/coalmine/connector/NoneBlockingConnector.java:33-41 | enqueues without any environment gate, by the drop-newest offer, and the queue stays within capacity |
| Dispatch.NoneBlockingConnector.Start | src/main/java/com/coalmine/connector/NoneBlockingConnector.java:43-46 | starts the worker; a second start fails with an illegal-thread-state error |
| Dispatch.NoneBlockingConnector.Stop | src/main/java/com/coalmine/connector/NoneBlockingConnector.java:48-51 | the worker is no longer active |
| Dispatch.NoneBlockingConnector.WorkerStep | src/main/java/com/coalmine/connector/NoneBlockingConnector.java:59-76 | a step runs exactly when the worker is started, active and the queue is non-empty; it removes only the head, the rest keeps its order, and the head goes through the blocking send, which stamps it and returns its body exactly when gate and throttle pass; only its environment, version and user can change; the worker stays as active as it was |
| Dispatch.SendVia | src/main/java/com/coalmine/connector/logging/CoalmineAppender.java:49 | a blocking connector sends now, by the send decision, stamping the notification and returning its body exactly when gate and throttle pass; a non-blocking one only enqueues, leaves the notification and the worker's state untouched and returns no body; either way only the notification's environment, version and user can change |
| Dispatch.StartVia | src/main/java/com/coalmine/connector/logging/CoalmineAppender.java:64 | starting a blocking connector does nothing; a non-blocking one starts its worker, once |
| Dispatch.StopVia | src/main/java/com/coalmine/connector/logging/CoalmineAppender.java:71 | stopping a non-blocking connector deactivates its worker and keeps its queue |
| Forwarding.FromOwnLoggerIff | src/main/java/com/coalmine/connector/logging/CoalmineAppender.java:38 | a logger name is caught exactly when "com.coalmine" occurs somewhere in it |
| Forwarding.OwnPackageInside | src/main/java/com/coalmine/connector/logging/CoalmineHandler.java:88-90 | every name with "com.coalmine" inside it is caught |
| Forwarding.ShortNamesPass | src/main/java/com/coalmine/connector/logging/CoalmineHandler.java:88-90 | a name shorter than "com.coalmine" is never caught |
| LogbackAppender.LevelInt | src/main/java/com/coalmine/connector/logging/CoalmineAppender.java:33 | Logback's `levelInt` values, from `Integer.MAX_VALUE` for OFF down; `IsGreaterOrEqualRank` proves they follow declaration order |
| LogbackAppender.IsGreaterOrEqual | src/main/java/com/coalmine/connector/logging/CoalmineAppender.java:33 | `isGreaterOrEqual`, a comparison of `levelInt` values; `IsGreaterOrEqualRank` and `DefaultLevelPasses` state what passes |
| LogbackAppender.IsGreaterOrEqualRank | src/main/java/com/coalmine/connector/logging/CoalmineAppender.java:33 | the level comparison orders the levels as they are declared |
| LogbackAppender.DefaultLevelPasses | src/main/java/com/coalmine/connector/logging/CoalmineAppender.java:24 | under the default threshold, only ERROR events (and OFF) get through |
| LogbackAppender.GetSeverity | src/main/java/com/coalmine/connector/logging/CoalmineAppender.java:104-114 | no level is reported as TRACE |
| LogbackAppender.GetSeverityMonotone | src/main/java/com/coalmine/connector/logging/CoalmineAppender.java:104-114 | a more severe event is never reported as less severe; each event level lands on the matching severity, and TRACE shares DEBUG's |
| LogbackAppender.Screen | src/main/java/com/coalmine/connector/logging/CoalmineAppender.java:32-40 | an event goes through exactly when it reaches the threshold and its logger name nowhere contains "com.coalmine"; below the threshold it is dropped for that reason; no guard ever fails |
| LogbackAppender.ProxyTexts | src/main/java/com/coalmine/connector/logging/CoalmineAppender.java:94-97 | one "at "-prefixed frame text per proxy, in order |
| LogbackAppender.ProxyStackLines | src/main/java/com/coalmine/connector/logging/CoalmineAppender.java:93-99 | the appender's stack trace splits back into one "at " line per frame, in order |
| LogbackAppender.BaseFieldsFrames | src/main/java/com/coalmine/connector/logging/CoalmineAppender.java:75-102 | a stack trace exactly when there is a throwable, empty exactly when it has no frames; frame 0's place when there is one; the rest of the notification as new |
| LogbackAppender.EventFields | src/main/java/com/coalmine/connector/logging/CoalmineAppender.java:29-50 | the notification `append` builds for an event before sending: the base fields with the event's severity, message and MDC map |
| LogbackAppender.EventFieldsValues | src/main/java/com/coalmine/connector/logging/CoalmineAppender.java:42-47 | that notification holds the event's severity, message and MDC map, the throwable's place and stack, the host's thread, host name and properties, and nothing else |
| LogbackAppender.Describe | src/main/java/com/coalmine/connector/logging/CoalmineAppender.java:44-47 | the notification takes the mapped severity, the event's message and its MDC map, and nothing else changes |
| LogbackAppender.SetPlace | src/main/java/com/coalmine/connector/logging/CoalmineAppender.java:87-90 | the notification takes the frame's class, file, line and method, and nothing else changes |
| LogbackAppender.CoalmineAppender.constructor | src/main/java/com/coalmine/connector/logging/CoalmineAppender.java:20-27 | no local settings, threshold ERROR, asynchronous, and no connector |
| LogbackAppender.CoalmineAppender.SetAsync | src/main/java/com/coalmine/connector/logging/CoalmineAppender.java:116-118 | sets the async flag and no other field |
| LogbackAppender.CoalmineAppender.SetSignature | src/main/java/com/coalmine/connector/logging/CoalmineAppender.java:119-121 | sets the signature and no other field |
| LogbackAppender.CoalmineAppender.SetEnvironment | src/main/java/com/coalmine/connector/logging/CoalmineAppender.java:122-124 | sets the environment and no other field |
| LogbackAppender.CoalmineAppender.SetVersion | src/main/java/com/coalmine/connector/logging/CoalmineAppender.java:125-127 | sets the version and no other field |
| LogbackAppender.CoalmineAppender.SetLevel | src/main/java/com/coalmine/connector/logging/CoalmineAppender.java:128-130 | sets the threshold and no other field |
| LogbackAppender.CoalmineAppender.Start | src/main/java/com/coalmine/connector/logging/CoalmineAppender.java:52-67 | a new connector, non-blocking exactly when async, with the appender's signature, environment and version, or the global ones where those are unset; a new blocking connector has no throttle; a non-blocking one has a capacity of 128 and no throttle, and its worker is started with an empty queue; the appender is started |
| LogbackAppender.CoalmineAppender.Stop | src/main/java/com/coalmine/connector/logging/CoalmineAppender.java:69-73 | before any start there is no connector and the call fails with a null-pointer error; otherwise the connector is stopped and so is the appender |
| LogbackAppender.BaseFields | src/main/java/com/coalmine/connector/logging/CoalmineAppender.java:75-102 | the fields `generateBaseNotification` leaves; `GenerateBaseNotification` is proved equal to it and `BaseFieldsFrames` states what it holds |
| LogbackAppender.CoalmineAppender.GenerateBaseNotification | src/main/java/com/coalmine/connector/logging/CoalmineAppender.java:75-102 | a new notification with the base fields of the event's throwable |
| LogbackAppender.CoalmineAppender.Append | src/main/java/com/coalmine/connector/logging/CoalmineAppender.java:29-50 | a screened event ends with its screen verdict and no notification; without a connector the call fails with a null-pointer error; otherwise exactly one new notification goes to the connector, by the send decision or the drop-newest offer; every field it does not get stamped with is that of `EventFields`; a blocking send past gate and throttle stamps exactly that notification and returns its body; on any other path it is exactly `EventFields` and no body is returned |
| JulHandler.GetSeverity | src/main/java/com/coalmine/connector/logging/CoalmineHandler.java:107-117 | no level is reported as TRACE |
| JulHandler.DefaultSeverities | src/main/java/com/coalmine/connector/logging/CoalmineHandler.java:36-37 | the standard levels the default WARNING threshold lets through are OFF, SEVERE and WARNING; they are reported as ERROR, except WARNING as WARN |
| JulHandler.SeverityNotMonotone | src/main/java/com/coalmine/connector/logging/CoalmineHandler.java:107-117 | the map is not monotone: CONFIG ranks below INFO but is reported as ERROR, and a custom level is ERROR even at WARNING's value |
| JulHandler.Screen | src/main/java/com/coalmine/connector/logging/CoalmineHandler.java:83-90 | a record goes through exactly when it reaches the threshold, has a logger name and that name nowhere contains "com.coalmine"; below the threshold it is dropped for that reason; a missing name fails with a null-pointer error |
| JulHandler.IntValue | src/main/java/com/coalmine/connector/logging/CoalmineHandler.java:83 | `Level.intValue` of the standard levels, and a custom level's own value; `ScreenThreshold` states the threshold comparison built on it |
| JulHandler.ScreenThreshold | src/main/java/com/coalmine/connector/logging/CoalmineHandler.java:83-85 | a record at the threshold's own level passes the threshold, and lowering the threshold never stops a record |
| JulHandler.Published | src/main/java/com/coalmine/connector/logging/CoalmineHandler.java:94-98 | the notification `publish` builds before sending: the one for the record's exception, with the record's severity, message, source class and source method |
| JulHandler.PublishedFields | src/main/java/com/coalmine/connector/logging/CoalmineHandler.java:94-98 | that notification holds the record's severity, message and source, the exception's file, line and stack, the host's thread, host name and properties, and nothing else |
| JulHandler.Describe | src/main/java/com/coalmine/connector/logging/CoalmineHandler.java:94-98 | a new notification whose whole view is `Published`: the one for the record's exception, with the mapped severity and the record's message, source method and source class |
| JulHandler.CoalmineHandler.constructor | src/main/java/com/coalmine/connector/logging/CoalmineHandler.java:33-38 | the given connector with threshold WARNING |
| JulHandler.CoalmineHandler.Default | src/main/java/com/coalmine/connector/logging/CoalmineHandler.java:53-57 | a new blocking connector with the global signature, environment and version, no throttle, and threshold WARNING |
| JulHandler.CoalmineHandler.SetLevel | src/main/java/com/coalmine/connector/logging/CoalmineHandler.java:63-73 | the level set is the level `GetLevel` reads back |
| JulHandler.CoalmineHandler.Forward | src/main/java/com/coalmine/connector/logging/CoalmineHandler.java:94-99 | the record's notification goes to the connector, by the send decision or the drop-newest offer; every field it does not get stamped with is that of `Published`; a blocking send past gate and throttle stamps exactly that notification and returns its body; on any other path it is exactly `Published` and no body is returned |
| JulHandler.CoalmineHandler.Publish | src/main/java/com/coalmine/connector/logging/CoalmineHandler.java:81-100 | a screened record ends with its screen verdict and no notification; otherwise exactly one new notification goes to the connector, by the send decision or the drop-newest offer; every field it does not get stamped with is that of `Published`; a blocking send past gate and throttle stamps exactly that notification and returns its body; on any other path it is exactly `Published` and no body is returned |

## Left out

- HTTP I/O is not modelled: the `HttpURLConnection` setup, the
  content-type, cache and timeout properties, the output stream, reading
  the error body, and `disconnect`. An exchange is only its outcome: a
  status with a Retry-After header, an I/O failure, or an unchecked
  exception. The URL and the connect timeout are stored but do not affect
  sending.
- Logging through SLF4J is not modelled; it has no effect the model could
  observe.
- Threads are not modelled. The worker loop is a sequence of
  `WorkerStep` calls. A step on an empty queue does nothing instead of
  blocking in `take`. The overridden `interrupt` never wakes a worker
  that is blocked in `take`, and this is not represented either.
- Gson is a function supplied from outside. The JSON field names and
  Gson's omission of null fields are not modelled.
- The thread id, the host name lookup and the captured system properties
  are inputs (`Host`).
- `UserProvider` is a snapshot of its current answer rather than a
  callback.
- `Notifications.LoggedNotification.SetRequest`: each parameter value is
  taken as the text `StringBuilder.append` writes for its value array,
  because Java's array `toString` (type and identity hash) is not
  modelled.
- The `applicationEnvironment` field that `LoggedNotification` shadows in
  `Notification` is left out. The override of the setter means it is
  never set.
- The convenience constructors that build their own `Gson`, and the four
  constructors of `GwtLoggedNotification` that only forward to the parent,
  are not separate members.
- `GwtNotifications.ExtractStackTraceElements` is not wired into the
  notification's construction. `LoggedNotification.java` defines no
  `extractStackTraceElements` method: the name occurs only at
  `GwtLoggedNotification.java:29,31`, so the override has nothing to
  override and its `super` call has nothing to resolve to.
  `LoggedNotification` reads the stack directly.
- `Notifications.FrameText` renders `StackTraceElement.toString` in its
  Java 8 form. From Java 9 on, a frame of a named module or of a class
  loader with a name carries a prefix such as `java.base/`, and the text
  then no longer starts with the class name.
- `setFile`, `setLineNumber`, `setStackTrace`, `setUserId` and
  `setEnvironment` are called on notifications, but this version of
  `LoggedNotification.java` and of `Notification.java` defines none of
  them. They are modelled as plain setters.
- A connector's `start` and `stop` are modelled only through `StartVia`
  and `StopVia` for the blocking connector, where both do nothing.
- `Dispatch.NoneBlockingConnector.WithCapacity` requires a capacity of at
  least 1. `ArrayBlockingQueue` refuses a smaller one, or a null one, with
  an exception that a constructor here cannot return.
- `Transport.TooManyRequestsBlocks` holds only for a Retry-After of at
  most 2147483 seconds. Past that the 32-bit cool-down wraps and the
  source does not keep the throttle (see Findings).
- Strings are sequences of Unicode scalar values. A Java `String` may hold
  an unpaired surrogate, which `URLEncoder` writes as `%3F`, so
  `FormEncoding.DecodeEncode` and `Transport.SendBodyRoundTrip` do not
  cover such strings. Lengths are counted in characters, not in UTF-16
  code units.
- A send that gets past gate and throttle is taken to build its body
  before anything can fail: an I/O or runtime failure in the exchange
  happens after the notification is stamped and the body is built. An
  exception from `getUser()`, from Gson, or while opening the connection,
  which leaves the notification partly stamped or no body built, is not
  modelled separately.
- `Text.Lower` only lower-cases ASCII letters. `Text.ParseInt` only reads
  ASCII digits. Java's full Unicode case mapping and digit classes are
  not modelled.
- The `long` subtraction `now - lastThrottled` is exact, because clock
  values never get near the 64-bit range.
- The Logback appender: `AppenderBase.doAppend` only calls `append` on a
  started appender. That check, and Logback's own lifecycle, are not
  modelled: `Append` is `append` itself.
- An event's logger name is never null in Logback, so it is a plain
  string. The MDC map is taken as given, with nullable values.
- `setLevel(null)` is not modelled, for the `java.util.logging` handler or
  for the Logback appender: their levels are always a value. In the
  appender (`CoalmineAppender.java:128-130`) a null level is accepted, and
  the next `append` then throws a NullPointerException at
  `CoalmineAppender.java:33`; that path is not represented.
- The handler's `flush` and `close` do nothing in the source and are left
  out.
- The servlet filters, the uncaught-exception handler, the App Engine
  handlers and the static `Coalmine` holder are thin wiring. The holder is
  the `Globals` parameter.

## Findings

| source | as written | input that shows it | evidently intended | confidence | as-written member | corrected member |
|---|---|---|---|---|---|---|
| src/main/java/com/coalmine/connector/SimpleConnector.java:89 | `diff > throttleTimeout * 1000` multiplies in 32-bit `int`, so a timeout above 2147483 seconds wraps around | a 429 with `Retry-After: 2147484` gives a cool-down of -2147483296 ms; the throttle recorded at `now` is already over at `now` | the cool-down is `throttleTimeout * 1000` in `long` arithmetic, so the connector waits the full Retry-After period | not executed | Transport.CooldownOverflowCounterexample | Transport.ThrottleWindow |

The as-written check is `Transport.CheckThrottleAsWritten`, which uses
`Transport.CooldownMillisAsWritten`. The corrected check is
`Transport.CheckThrottle`, which uses the exact product; `ThrottleWindow`,
`CheckThrottleIdempotent` and `UnthrottledStays` state the intended
behaviour about it. The connector's `IsThrottled`, and with it the send
decision (`Proceeds`, `Deliver`, `Send`, `WorkerStep`), follow the code as
written, so that the model of the connector behaves as the code does.
`Transport.OverflowedRetryAfterDelivers` shows the effect on a send: after
a 429 with `Retry-After: 2147484`, a send 1 ms later is delivered.
`Transport.CooldownAgreesInRange` shows that the two agree for every timeout
up to 2147483 seconds.
