/**
 CertificatePolicyCache and CertPolicy (web/security/certificate_policy_cache.cc,
 web/security/cert_policy.cc) against the log of what was allowed.
 */
module CertificatePolicy {
  import opened Prelude

  type Host = string
  type Fingerprint = string
  type CertStatus = bv32

  datatype Judgment = UNKNOWN | ALLOWED

  type Policy = map<Fingerprint, CertStatus>
  type Cache = map<Host, Policy>

  /** The bit test of CertPolicy::Check. */
  predicate Passes(allowed: CertStatus, error: CertStatus) {
    (allowed & error) != 0 && ((!(allowed & error)) ^ (!error)) == 0
  }

  function Check(policy: Policy, cert: Fingerprint, error: CertStatus): Judgment {
    if cert in policy && Passes(policy[cert], error) then ALLOWED else UNKNOWN
  }

  /** One error flag. */
  predicate Flag(b: CertStatus) {
    b != 0 && b & (b - 1) == 0
  }

  predicate Has(s: CertStatus, flag: CertStatus) {
    s & flag != 0
  }

  ghost predicate AnyFlag(s: CertStatus) {
    exists b :: Flag(b) && Has(s, b)
  }

  /** Every flag of the error is among the allowed ones. */
  ghost predicate SubsetOf(error: CertStatus, allowed: CertStatus) {
    forall b :: Flag(b) && Has(error, b) ==> Has(allowed, b)
  }

  lemma XorOfComplements(allowed: CertStatus, error: CertStatus)
    ensures ((!(allowed & error)) ^ (!error)) == 0 <==> error & !allowed == 0
  {
  }

  lemma LowestFlag(s: CertStatus)
    requires s != 0
    ensures Flag(s & (0 - s)) && Has(s, s & (0 - s))
  {
  }

  lemma FlagAllOrNothing(s: CertStatus, b: CertStatus)
    requires Flag(b)
    ensures s & b == 0 || s & b == b
  {
  }

  lemma MaskSplits(error: CertStatus, allowed: CertStatus, b: CertStatus)
    ensures (error & !allowed) & b == (error & b) & !(allowed & b)
  {
  }

  lemma MaskedAway(x: CertStatus)
    ensures x & !x == 0 && 0 & !x == 0 && x & !(0 as CertStatus) == x
  {
  }

  lemma DifferenceMasked(error: CertStatus, allowed: CertStatus, b: CertStatus)
    requires b != 0 && (error & b == 0 || error & b == b) && (allowed & b == 0 || allowed & b == b)
    ensures (error & !allowed) & b != 0 <==> error & b != 0 && !(allowed & b != 0)
  {
    MaskSplits(error, allowed, b);
    MaskedAway(b);
    MaskedAway(0);
  }

  lemma FlagOfDifference(error: CertStatus, allowed: CertStatus, b: CertStatus)
    requires Flag(b)
    ensures Has(error & !allowed, b) <==> Has(error, b) && !Has(allowed, b)
  {
    FlagAllOrNothing(error, b);
    FlagAllOrNothing(allowed, b);
    DifferenceMasked(error, allowed, b);
  }

  lemma FlagsOf(s: CertStatus)
    ensures s != 0 <==> AnyFlag(s)
  {
    if s != 0 { LowestFlag(s); }
  }

  lemma SubsetFlags(error: CertStatus, allowed: CertStatus)
    ensures error & !allowed == 0 <==> SubsetOf(error, allowed)
  {
    var d := error & !allowed;
    if d == 0 {
      forall b | Flag(b) && Has(error, b) ensures Has(allowed, b) { FlagOfDifference(error, allowed, b); }
    } else {
      LowestFlag(d);
      FlagOfDifference(error, allowed, d & (0 - d));
    }
  }

  lemma CoveredOverlaps(allowed: CertStatus, error: CertStatus)
    ensures error & !allowed == 0 ==> allowed & error == error
  {
  }

  /** The complement-and-xor test passes exactly when the error is not empty and the
      allowed status covers every flag of it. */
  lemma PassesIsSubsetTest(allowed: CertStatus, error: CertStatus)
    ensures Passes(allowed, error) <==> AnyFlag(error) && SubsetOf(error, allowed)
  {
    XorOfComplements(allowed, error);
    SubsetFlags(error, allowed);
    FlagsOf(error);
    CoveredOverlaps(allowed, error);
  }

  // ---- the cache against its log ----

  datatype Event =
    | Allow(host: Host, cert: Fingerprint, error: CertStatus)
    | Query(host: Host, cert: Fingerprint, error: CertStatus)
    | Clear

  /** operator[]: an absent host gets an empty policy. */
  function Touch(cache: Cache, host: Host): Cache {
    if host in cache then cache else cache[host := map[]]
  }

  function After(cache: Cache, e: Event): Cache {
    match e
    case Allow(host, cert, error) => Touch(cache, host)[host := Touch(cache, host)[host][cert := error]]
    case Query(host, _, _) => Touch(cache, host)
    case Clear => map[]
  }

  function Run(log: seq<Event>): Cache {
    if log == [] then map[] else After(Run(log[..|log| - 1]), log[|log| - 1])
  }

  function Judge(cache: Cache, host: Host, cert: Fingerprint, error: CertStatus): Judgment {
    Check(Touch(cache, host)[host], cert, error)
  }

  /** The most recent allowance for this host and chain since the last clear. */
  function LastAllowed(log: seq<Event>, host: Host, cert: Fingerprint): Option<CertStatus> {
    if log == [] then None
    else
      var last := log[|log| - 1];
      if last.Clear? then None
      else if last.Allow? && last.host == host && last.cert == cert then Some(last.error)
      else LastAllowed(log[..|log| - 1], host, cert)
  }

  function Entry(cache: Cache, host: Host, cert: Fingerprint): Option<CertStatus> {
    if host in cache && cert in cache[host] then Some(cache[host][cert]) else None
  }

  lemma {:induction false} EntryIsLastAllowed(log: seq<Event>, host: Host, cert: Fingerprint)
    ensures Entry(Run(log), host, cert) == LastAllowed(log, host, cert)
  {
    if log != [] {
      EntryIsLastAllowed(log[..|log| - 1], host, cert);
    }
  }

  /** Over every run, a query is allowed exactly when its errors are non-empty and all
      among those most recently allowed for that host and chain since the last clear. */
  lemma JudgedByTheLog(log: seq<Event>, host: Host, cert: Fingerprint, error: CertStatus)
    ensures Judge(Run(log), host, cert, error) == ALLOWED <==>
      && LastAllowed(log, host, cert).Some?
      && AnyFlag(error)
      && SubsetOf(error, LastAllowed(log, host, cert).value)
  {
    EntryIsLastAllowed(log, host, cert);
    if LastAllowed(log, host, cert).Some? {
      PassesIsSubsetTest(LastAllowed(log, host, cert).value, error);
    }
  }

  function WithoutQueries(log: seq<Event>): seq<Event> {
    if log == [] then []
    else
      var front, last := WithoutQueries(log[..|log| - 1]), log[|log| - 1];
      if last.Query? then front else front + [last]
  }

  lemma {:induction false} LastWithoutQueries(log: seq<Event>, host: Host, cert: Fingerprint)
    ensures LastAllowed(WithoutQueries(log), host, cert) == LastAllowed(log, host, cert)
  {
    if log != [] {
      var front, last := log[..|log| - 1], log[|log| - 1];
      LastWithoutQueries(front, host, cert);
      if !last.Query? {
        assert WithoutQueries(log)[..|WithoutQueries(front)|] == WithoutQueries(front);
      }
    }
  }

  /** Queries insert default entries but never change a later answer. */
  lemma {:induction false} QueriesAreSilent(log: seq<Event>, host: Host, cert: Fingerprint, error: CertStatus)
    ensures Judge(Run(log), host, cert, error) == Judge(Run(WithoutQueries(log)), host, cert, error)
  {
    LastWithoutQueries(log, host, cert);
    EntryIsLastAllowed(log, host, cert);
    EntryIsLastAllowed(WithoutQueries(log), host, cert);
  }

  class CertificatePolicyCache {
    var certPolicyForHost: Cache
    ghost var log: seq<Event>

    ghost predicate Valid()
      reads this
    {
      certPolicyForHost == Run(log)
    }

    constructor ()
      ensures Valid() && log == []
    {
      certPolicyForHost, log := map[], [];
    }

    method AllowCertForHost(cert: Fingerprint, host: Host, error: CertStatus)
      requires Valid()
      modifies this
      ensures Valid() && log == old(log) + [Allow(host, cert, error)]
    {
      if host !in certPolicyForHost {
        certPolicyForHost := certPolicyForHost[host := map[]];
      }
      certPolicyForHost := certPolicyForHost[host := certPolicyForHost[host][cert := error]];
      assert (log + [Allow(host, cert, error)])[..|log|] == log;
      log := log + [Allow(host, cert, error)];
    }

    method QueryPolicy(cert: Fingerprint, host: Host, error: CertStatus) returns (judgment: Judgment)
      requires Valid()
      modifies this
      ensures Valid() && log == old(log) + [Query(host, cert, error)]
      ensures judgment == ALLOWED <==>
        && LastAllowed(old(log), host, cert).Some?
        && AnyFlag(error)
        && SubsetOf(error, LastAllowed(old(log), host, cert).value)
    {
      JudgedByTheLog(log, host, cert, error);
      if host !in certPolicyForHost {
        certPolicyForHost := certPolicyForHost[host := map[]];
      }
      judgment := Check(certPolicyForHost[host], cert, error);
      assert (log + [Query(host, cert, error)])[..|log|] == log;
      log := log + [Query(host, cert, error)];
    }

    method ClearCertificatePolicies()
      requires Valid()
      modifies this
      ensures Valid() && log == old(log) + [Clear]
    {
      certPolicyForHost := map[];
      log := log + [Clear];
    }
  }
}
