/** The configuration every connector carries (API URL, connect timeout,
    signature, application environment, version, user provider) and the
    environment gate that decides whether notifications may be sent. */
module Connectors {
  import opened Wrappers
  import opened Text

  const DefaultApiUrl: string := "https://coalmineapp.com/notify"
  const DefaultTimeout: Int32 := 5000
  const DefaultEnvironment: string := "Production"
  const DefaultVersion: string := "1.0.0"

  /** The environments notifications are sent from unless more are
      enabled, stored lower-cased. */
  const DefaultEnabledEnvironments: set<string> := {"production", "staging"}

  /** What `UserProvider.getUser()` answers: the id of the logged-in user. */
  datatype UserProvider = UserProvider(currentUser: Option<string>)

  /** The process-wide settings of the static `Coalmine` holder. */
  datatype Globals = Globals(signature: Option<string>, environment: Option<string>, version: Option<string>)

  /** Stored environment names: lower-cased and not empty. */
  predicate LowerCased(names: set<string>) {
    forall e :: e in names ==> e != "" && Lower(e) == e
  }

  /** The gate: the environment is set and, ignoring case, enabled. */
  predicate Sendable(env: Option<string>, enabled: set<string>) {
    env.Some? && Lower(env.value) in enabled
  }

  /** The gate ignores the case of the environment name. */
  lemma SendableIgnoresCase(a: string, b: string, enabled: set<string>)
    requires Lower(a) == Lower(b)
    ensures Sendable(Some(a), enabled) <==> Sendable(Some(b), enabled)
  {
  }

  /** With lower-cased names stored, an environment passes the gate exactly
      when it equals, ignoring case, a stored name; an empty name never does. */
  lemma SendableMatchesName(env: string, enabled: set<string>)
    requires LowerCased(enabled)
    ensures Sendable(Some(env), enabled) <==> exists e :: e in enabled && Lower(env) == Lower(e)
    ensures env == "" ==> !Sendable(Some(env), enabled)
  {
    if exists e :: e in enabled && Lower(env) == Lower(e) {
      var e :| e in enabled && Lower(env) == Lower(e);
      assert Lower(e) == e;
    }
    if Sendable(Some(env), enabled) {
      var e := Lower(env);
      assert Lower(e) == e by { LowerIdempotent(env); }
    }
  }

  /** The default environment is enabled by default, in any spelling of
      its case, and "development" is not. */
  lemma DefaultGate()
    ensures Sendable(Some(DefaultEnvironment), DefaultEnabledEnvironments)
    ensures Sendable(Some("PrOductioN"), DefaultEnabledEnvironments)
    ensures !Sendable(Some("development"), DefaultEnabledEnvironments)
    ensures !Sendable(None, DefaultEnabledEnvironments)
    ensures LowerCased(DefaultEnabledEnvironments)
  {
    assert Lower(DefaultEnvironment) == "production";
    assert Lower("PrOductioN") == "production";
    assert Lower("development") == "development";
    assert Lower("production") == "production";
    assert Lower("staging") == "staging";
  }

  /** Enabling a name adds exactly the environments equal to it ignoring case. */
  lemma EnableExtendsGate(enabled: set<string>, name: string, env: Option<string>)
    ensures Sendable(env, enabled + {Lower(name)})
      <==> Sendable(env, enabled) || (env.Some? && Lower(env.value) == Lower(name))
  {
  }

  /** What a connector stamps on and posts with every notification. */
  datatype Settings = Settings(
    signature: Option<string>,
    applicationEnvironment: Option<string>,
    version: Option<string>,
    userProvider: Option<UserProvider>)

  /** Connector settings. The constructor installs the defaults; each
      setter changes only its own field. */
  class Connector {
    var url: string
    var timeout: Int32
    const signature: Option<string>
    var applicationEnvironment: Option<string>
    var version: Option<string>
    var enabledEnvironments: set<string>
    var userProvider: Option<UserProvider>

    /** The enabled names are stored lower-cased and never empty. */
    predicate Valid()
      reads this
    {
      LowerCased(enabledEnvironments)
    }

    function Snapshot(): Settings
      reads this
    {
      Settings(signature, applicationEnvironment, version, userProvider)
    }

    constructor (signature: Option<string>)
      ensures Valid()
      ensures this.signature == signature
      ensures url == DefaultApiUrl && timeout == DefaultTimeout
      ensures applicationEnvironment == Some(DefaultEnvironment) && version == Some(DefaultVersion)
      ensures enabledEnvironments == DefaultEnabledEnvironments && userProvider == None
    {
      this.signature := signature;
      url := DefaultApiUrl;
      timeout := DefaultTimeout;
      applicationEnvironment := Some(DefaultEnvironment);
      version := Some(DefaultVersion);
      enabledEnvironments := DefaultEnabledEnvironments;
      userProvider := None;
      DefaultGate();
    }

    method SetUrl(u: string)
      modifies this`url
      ensures url == u
    {
      url := u;
    }

    /** The URL last set. */
    function GetUrl(): (u: string)
      reads this
      ensures u == url
    {
      url
    }

    method SetTimeout(t: Int32)
      modifies this`timeout
      ensures timeout == t
    {
      timeout := t;
    }

    method SetApplicationEnvironment(e: Option<string>)
      modifies this`applicationEnvironment
      ensures applicationEnvironment == e
    {
      applicationEnvironment := e;
    }

    method SetVersion(v: Option<string>)
      modifies this`version
      ensures version == v
    {
      version := v;
    }

    method SetUserProvider(p: Option<UserProvider>)
      modifies this`userProvider
      ensures userProvider == p
    {
      userProvider := p;
    }

    /** Enables one more environment. A null or empty name is refused with
        an invalid-argument error and changes nothing. */
    method AddEnabledEnvironment(name: Option<string>) returns (outcome: Outcome)
      requires Valid()
      modifies this`enabledEnvironments
      ensures Valid()
      ensures outcome == (if name.None? || name.value == "" then Fail(IllegalArgument) else Pass)
      ensures outcome.Pass? ==> enabledEnvironments == old(enabledEnvironments) + {Lower(name.value)}
      ensures outcome.Fail? ==> enabledEnvironments == old(enabledEnvironments)
    {
      if name.None? || name.value == "" {
        return Fail(IllegalArgument);
      }
      var e := Lower(name.value);
      LowerIdempotent(name.value);
      enabledEnvironments := enabledEnvironments + {e};
      return Pass;
    }

    /** Whether notifications may be sent from the current environment;
        never for a null or empty environment. */
    function IsSendable(): (ok: bool)
      reads this
      requires Valid()
      ensures ok <==> Sendable(applicationEnvironment, enabledEnvironments)
      ensures ok ==> applicationEnvironment.Some? && applicationEnvironment.value != ""
    {
      applicationEnvironment.Some? && Lower(applicationEnvironment.value) in enabledEnvironments
    }
  }
}
