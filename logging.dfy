/** What the two logging adapters share: how an event can end, and the
    test that keeps the connector's own log output from looping back. */
module Forwarding {
  import opened Wrappers
  import opened Text

  /** Loggers whose name contains this are never forwarded. */
  const OwnPackage: string := "com.coalmine"

  /** Why an event was not forwarded. */
  datatype Drop = BelowThreshold | OwnLogger

  /** What became of one event: dropped, failed with an exception before
      any send, or handed to the connector, which accepted it or not. */
  datatype Verdict = Dropped(why: Drop) | Failed(error: Fault) | Forwarded(accepted: bool)

  /** `loggerName.contains("com.coalmine")`. */
  predicate FromOwnLogger(name: string) {
    Contains(name, OwnPackage)
  }

  /** A logger name is the connector's own exactly when the package name
      occurs somewhere in it. */
  lemma FromOwnLoggerIff(name: string)
    ensures FromOwnLogger(name) <==> exists i :: OccursAt(name, OwnPackage, i)
  {
    ContainsIff(name, OwnPackage);
  }

  /** Every name with the package name inside it is caught, the connector's
      own classes (names that start with it) among them. */
  lemma OwnPackageInside(before: string, after: string)
    ensures FromOwnLogger(before + OwnPackage + after)
  {
    var name := before + OwnPackage + after;
    assert name[|before|..|before| + |OwnPackage|] == OwnPackage;
    assert OccursAt(name, OwnPackage, |before|);
    FromOwnLoggerIff(name);
  }

  /** A name shorter than the package name is never caught. */
  lemma ShortNamesPass(name: string)
    requires |name| < |OwnPackage|
    ensures !FromOwnLogger(name)
  {
    FromOwnLoggerIff(name);
  }
}
