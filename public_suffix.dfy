/**
 * The domain-name check the options class relies on: Guava's
 * `InternetDomainName.from(d).hasPublicSuffix()`. Guava and the Public Suffix
 * List are not part of this model; this module replaces them with a concrete
 * predicate over a small, fixed excerpt of the list, so that the check has a
 * body and its consequences can be proved.
 */
module PublicSuffix {

  /** An excerpt of the Public Suffix List (plain entries only). */
  const Suffixes: set<string> :=
    {"com", "org", "net", "edu", "gov", "io", "uk", "co.uk", "org.uk", "de", "jp", "co.jp"}

  /**
   * The name splits into labels that are all non-empty: it is not empty and
   * has no leading, trailing or doubled dot. `InternetDomainName.from`
   * rejects names that fail this.
   */
  predicate WellFormed(d: string) {
    0 < |d| && d[0] != '.' && d[|d| - 1] != '.' &&
    forall i :: 0 < i < |d| && d[i] == '.' ==> d[i - 1] != '.'
  }

  /** `d` is `suffix` itself or ends with "." followed by `suffix`. */
  predicate EndsWithLabels(d: string, suffix: string) {
    d == suffix ||
    (|suffix| < |d| && d[|d| - |suffix| - 1] == '.' && d[|d| - |suffix|..] == suffix)
  }

  /** The name is well formed and its trailing labels form a listed public suffix. */
  predicate HasPublicSuffix(d: string) {
    WellFormed(d) && exists suffix :: suffix in Suffixes && EndsWithLabels(d, suffix)
  }

  /** Registered domains pass the check. */
  lemma RegisteredNamesPass()
    ensures HasPublicSuffix("jclouds.org")
    ensures HasPublicSuffix("example.com")
    ensures HasPublicSuffix("sub.example.co.uk")
  {
    assert EndsWithLabels("jclouds.org", "org");
    assert EndsWithLabels("example.com", "com");
    assert EndsWithLabels("sub.example.co.uk", "co.uk");
  }

  /** A bare host name has no public suffix. */
  lemma BareHostFails()
    ensures !HasPublicSuffix("localhost")
  {
  }

  /** Names with an empty label are rejected. */
  lemma EmptyLabelFails()
    ensures !HasPublicSuffix("")
    ensures !HasPublicSuffix("example..com")
  {
    assert "example..com"[8] == '.' && "example..com"[7] == '.';
  }
}
