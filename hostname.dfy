/** The two regular expressions the relay handler applies to host names,
    written as character tests: `/-[0-9]{1,2}-[0-1]/` on the local host name
    (is this pod a secondary replica?) and `/-[0-9]{1,2}\./` on the request's
    host (rewrite it to the primary's). Both are unanchored and find their
    leftmost match; `{1,2}` is greedy. */
module PodHostname {
  import opened Common

  /** `-[0-9]{1,2}-[0-1]` matches at position `i` of `h`. */
  predicate OrdinalRevisionAt(h: string, i: nat) {
    && i + 4 <= |h| && h[i] == '-' && IsDigit(h[i + 1])
    && (|| (h[i + 2] == '-' && '0' <= h[i + 3] <= '1')
        || (i + 5 <= |h| && IsDigit(h[i + 2]) && h[i + 3] == '-' && '0' <= h[i + 4] <= '1'))
  }

  /** `h.match(/-[0-9]{1,2}-[0-1]/)` finds a match at or after `from`. */
  function MatchesOrdinalRevision(h: string, from: nat): (r: bool)
    ensures r <==> exists i | from <= i < |h| :: OrdinalRevisionAt(h, i)
    decreases |h| - from
  {
    if from >= |h| then false
    else OrdinalRevisionAt(h, from) || MatchesOrdinalRevision(h, from + 1)
  }

  /** The local host name names a secondary replica: it is non-empty, ends
      with `-1`, and holds the ordinal-revision pattern somewhere. */
  predicate IsSecondaryReplica(localHostname: string) {
    && localHostname != ""
    && EndsWith(localHostname, "-1")
    && MatchesOrdinalRevision(localHostname, 0)
  }

  /** A host name that ends with `-` and one or two digits, then `-1`, is a
      secondary replica's, whatever precedes it. */
  lemma OrdinalSuffixIsSecondary(prefix: string, ordinal: string)
    requires 1 <= |ordinal| <= 2 && forall k | 0 <= k < |ordinal| :: IsDigit(ordinal[k])
    ensures IsSecondaryReplica(prefix + "-" + ordinal + "-1")
  {
    var h := prefix + "-" + ordinal + "-1";
    assert h[|h| - 2..] == "-1";
    assert OrdinalRevisionAt(h, |prefix|);
  }

  /** A host name ending in `-0` is never a secondary replica's. */
  lemma PrimaryIsNotSecondary(h: string)
    requires EndsWith(h, "-0")
    ensures !IsSecondaryReplica(h)
  {
  }

  /** The pod names of the broker's own deployment. */
  lemma DeploymentPodNames()
    ensures IsSecondaryReplica("broker-snyk-server-v2-10-1")
    ensures !IsSecondaryReplica("broker-snyk-server-v2-10-0")
    ensures !IsSecondaryReplica("broker-1")
  {
    OrdinalSuffixIsSecondary("broker-snyk-server-v2", "10");
    assert "broker-snyk-server-v2" + "-" + "10" + "-1" == "broker-snyk-server-v2-10-1";
    assert !OrdinalRevisionAt("broker-1", 6);
  }

  /** `-[0-9]{1,2}\.` matches at position `i` of `h` with `d` digits. */
  predicate OrdinalDotWith(h: string, i: nat, d: nat) {
    && 1 <= d <= 2 && i + d + 2 <= |h|
    && h[i] == '-' && h[i + d + 1] == '.'
    && forall k | i < k <= i + d :: IsDigit(h[k])
  }

  /** `-[0-9]{1,2}\.` matches at position `i` of `h`. */
  predicate OrdinalDotAt(h: string, i: nat) {
    OrdinalDotWith(h, i, 1) || OrdinalDotWith(h, i, 2)
  }

  /** The length of the match of `-[0-9]{1,2}\.` at position `i` of `h`, or
      0 when there is none. At most one of the two lengths can match, since
      the character after the first digit is either a dot or a digit. */
  function OrdinalDotLength(h: string, i: nat): (n: nat)
    ensures n != 0 <==> OrdinalDotAt(h, i)
    ensures n == 3 <==> OrdinalDotWith(h, i, 1)
    ensures n == 4 <==> OrdinalDotWith(h, i, 2)
    ensures n == 0 || n == 3 || n == 4
  {
    if i + 3 <= |h| && h[i] == '-' && IsDigit(h[i + 1]) then
      if h[i + 2] == '.' then 3
      else if i + 4 <= |h| && IsDigit(h[i + 2]) && h[i + 3] == '.' then 4
      else 0
    else 0
  }

  /** The leftmost match of `-[0-9]{1,2}\.` at or after `from`. */
  function FindOrdinalDot(h: string, from: nat): (r: Option<nat>)
    ensures r.Some? ==> from <= r.value < |h| && OrdinalDotAt(h, r.value)
    ensures r.Some? ==> forall j | from <= j < r.value :: !OrdinalDotAt(h, j)
    ensures r.None? ==> forall j | from <= j < |h| :: !OrdinalDotAt(h, j)
    decreases |h| - from
  {
    if from >= |h| then None
    else if OrdinalDotLength(h, from) != 0 then Some(from)
    else FindOrdinalDot(h, from + 1)
  }

  /** `host.replace(/-[0-9]{1,2}\./, '.')`: the first match, if any, becomes
      a single dot. */
  function RewriteHost(host: string): (r: string)
  {
    match FindOrdinalDot(host, 0)
    case None => host
    case Some(i) => host[..i] + "." + host[i + OrdinalDotLength(host, i)..]
  }

  /** A host with no match is unchanged; otherwise exactly the first match
      is replaced, and the text around it is kept. */
  lemma RewriteHostReplacesFirstMatch(host: string)
    ensures (forall j | 0 <= j < |host| :: !OrdinalDotAt(host, j)) ==> RewriteHost(host) == host
    ensures forall i, d | 0 <= i < |host| && OrdinalDotWith(host, i, d)
                        && (forall j | 0 <= j < i :: !OrdinalDotAt(host, j)) ::
              RewriteHost(host) == host[..i] + "." + host[i + d + 2..]
  {
    forall i, d | 0 <= i < |host| && OrdinalDotWith(host, i, d)
      ensures OrdinalDotAt(host, i)
    {
      assert d == 1 || d == 2;
    }
    match FindOrdinalDot(host, 0)
    case None =>
    case Some(i) =>
  }

  /** A host without `-` (such as an IP address) is never rewritten. */
  lemma RewriteHostWithoutDash(host: string)
    requires '-' !in host
    ensures RewriteHost(host) == host
  {
    assert forall j | 0 <= j < |host| :: host[j] != '-';
  }

  /** A secondary pod's service name loses its ordinal: `a-N.b` becomes
      `a.b` when the first label `a` has no dot. */
  lemma RewriteHostDropsOrdinal(a: string, ordinal: string, b: string)
    requires '.' !in a
    requires 1 <= |ordinal| <= 2 && forall k | 0 <= k < |ordinal| :: IsDigit(ordinal[k])
    ensures RewriteHost(a + "-" + ordinal + "." + b) == a + "." + b
  {
    var h := a + "-" + ordinal + "." + b;
    assert forall j | 0 <= j < |a| :: h[j] == a[j];
    assert h[|a|] == '-';
    // no match starts inside `a`: its dot would lie in `a`, or the `-`
    // after `a` would have to be its dot or one of its digits
    forall j, d | 0 <= j < |a| && 1 <= d <= 2
      ensures !OrdinalDotWith(h, j, d)
    {
      if j + d + 1 < |a| {
        assert h[j + d + 1] == a[j + d + 1] != '.';
      } else if j + d + 1 == |a| {
        assert h[j + d + 1] != '.';
      } else {
        assert j < |a| <= j + d && !IsDigit(h[|a|]);
      }
    }
    assert OrdinalDotWith(h, |a|, |ordinal|);
    assert OrdinalDotLength(h, |a|) == |ordinal| + 2;
    assert h[..|a|] == a;
    assert h[|a| + |ordinal| + 2..] == b;
  }

  /** The service name of the deployment's tenth pod, under any domain,
      is rewritten to the primary's service name. */
  lemma DeploymentServiceName(domain: string)
    ensures RewriteHost("broker-snyk-server-v2" + "-10." + domain) == "broker-snyk-server-v2" + "." + domain
  {
    assert '.' !in "broker-snyk-server-v2";
    RewriteHostDropsOrdinal("broker-snyk-server-v2", "10", domain);
    assert "broker-snyk-server-v2" + "-" + "10" + "." + domain == "broker-snyk-server-v2" + "-10." + domain;
  }
}
