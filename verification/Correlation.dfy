/** Declared independence checked against observed infrastructure. */
module Correlation {
  import opened Collections
  import opened Sorting
  import opened Connectivity
  import opened Independence
  import opened FailureDomains

  datatype Endpoint = Endpoint(
    endpointId: string,
    trustDomain: string,
    secretRef: string,
    hostname: Option<string>,
    addresses: seq<string>,
    cnames: seq<string>)

  datatype Signal = SameSecretRef | SameHostname | SharedAddress | SharedCname

  datatype Finding = Finding(signal: Signal, conclusive: bool, ids: (string, string), domains: (string, string), sharedDigest: string)

  /** `localeCompare`, as the order it sorts by. */
  type Collation = Order<string>

  /** The lowest shared member. */
  function Overlap(le: Collation, a: seq<string>, b: seq<string>): Option<string> {
    var shared := Sort(le, Filter((v: string) => v in b, a));
    if shared == [] then None else Some(shared[0])
  }

  /** Strongest signal only. */
  function StrongestSignal(le: Collation, a: Endpoint, b: Endpoint): Option<(Signal, string)> {
    if a.secretRef == b.secretRef then Some((SameSecretRef, a.secretRef))
    else if a.hostname.Some? && a.hostname == b.hostname then Some((SameHostname, a.hostname.value))
    else
      var address := Overlap(le, a.addresses, b.addresses);
      if address.Some? then Some((SharedAddress, address.value))
      else
        var cname := Overlap(le, a.cnames, b.cnames);
        if cname.Some? then Some((SharedCname, cname.value)) else None
  }

  predicate Conclusive(signal: Signal) {
    signal == SameSecretRef || signal == SameHostname
  }

  function PairMerge(le: Collation, a: Endpoint, b: Endpoint): Pairs {
    if a.trustDomain == b.trustDomain then []
    else
      match StrongestSignal(le, a, b)
      case None => []
      case Some((signal, _)) => if Conclusive(signal) then [(a.endpointId, b.endpointId)] else []
  }

  function PairFinding(le: Collation, hash: (Signal, string) -> string, a: Endpoint, b: Endpoint): seq<Finding> {
    if a.trustDomain == b.trustDomain then []
    else
      match StrongestSignal(le, a, b)
      case None => []
      case Some((signal, value)) =>
        [Finding(signal, Conclusive(signal), (a.endpointId, b.endpointId), (a.trustDomain, b.trustDomain), hash(signal, value))]
  }

  /** What row `i` of the pair loop has pushed before column `j`. */
  function Row<R>(f: (Endpoint, Endpoint) -> seq<R>, s: seq<Endpoint>, i: nat, j: nat): seq<R>
    requires i < j <= |s|
  {
    if j == i + 1 then [] else Row(f, s, i, j - 1) + f(s[i], s[j - 1])
  }

  function Rows<R>(f: (Endpoint, Endpoint) -> seq<R>, s: seq<Endpoint>, i: nat): seq<R>
    requires i <= |s|
  {
    if i == 0 then [] else Rows(f, s, i - 1) + Row(f, s, i - 1, |s|)
  }

  function ById(le: Collation): Order<Endpoint> {
    (a: Endpoint, b: Endpoint) => le(a.endpointId, b.endpointId)
  }

  function MergesOf(le: Collation): (Endpoint, Endpoint) -> Pairs {
    (a, b) => PairMerge(le, a, b)
  }

  function FindingsOf(le: Collation, hash: (Signal, string) -> string): (Endpoint, Endpoint) -> seq<Finding> {
    (a, b) => PairFinding(le, hash, a, b)
  }

  function Merges(le: Collation, inputs: seq<Endpoint>): Pairs {
    var ordered := Sort(ById(le), inputs);
    Rows(MergesOf(le), ordered, |ordered|)
  }

  /** The nested pair loops, for any two things a pair may push. */
  method PairLoops<R, S>(f: (Endpoint, Endpoint) -> seq<R>, g: (Endpoint, Endpoint) -> seq<S>, ordered: seq<Endpoint>) returns (rs: seq<R>, ss: seq<S>)
    ensures rs == Rows(f, ordered, |ordered|) && ss == Rows(g, ordered, |ordered|)
  {
    rs, ss := [], [];
    for i := 0 to |ordered|
      invariant rs == Rows(f, ordered, i) && ss == Rows(g, ordered, i)
    {
      var row: seq<R>, row': seq<S> := [], [];
      for j := i + 1 to |ordered|
        invariant row == Row(f, ordered, i, j) && row' == Row(g, ordered, i, j)
      {
        row, row' := row + f(ordered[i], ordered[j]), row' + g(ordered[i], ordered[j]);
      }
      rs, ss := rs + row, ss + row';
    }
  }

  method CorrelateEndpoints(le: Collation, hash: (Signal, string) -> string, inputs: seq<Endpoint>)
    returns (findings: seq<Finding>, merges: Pairs)
    ensures merges == Merges(le, inputs)
    ensures var ordered := Sort(ById(le), inputs); findings == Rows(FindingsOf(le, hash), ordered, |ordered|)
  {
    findings, merges := PairLoops(FindingsOf(le, hash), MergesOf(le), Sort(ById(le), inputs));
  }

  lemma {:induction false} RowContains<R(!new)>(f: (Endpoint, Endpoint) -> seq<R>, s: seq<Endpoint>, i: nat, k: nat, j: nat, x: R)
    requires i < k < j <= |s| && x in f(s[i], s[k])
    ensures x in Row(f, s, i, j)
  {
    if k < j - 1 {
      RowContains(f, s, i, k, j - 1, x);
    }
  }

  lemma {:induction false} RowsContain<R(!new)>(f: (Endpoint, Endpoint) -> seq<R>, s: seq<Endpoint>, n: nat, i: nat, k: nat, x: R)
    requires i < n <= |s| && i < k < |s| && x in f(s[i], s[k])
    ensures x in Rows(f, s, n)
  {
    if i == n - 1 {
      RowContains(f, s, i, k, |s|, x);
    } else {
      RowsContain(f, s, n - 1, i, k, x);
    }
  }

  /** One endpoint under two names: the same secret reference, or the same known hostname. */
  predicate OneEndpoint(a: Endpoint, b: Endpoint) {
    a.secretRef == b.secretRef || (a.hostname.Some? && a.hostname == b.hostname)
  }

  lemma ConclusivePair(le: Collation, a: Endpoint, b: Endpoint)
    requires OneEndpoint(a, b) && a.trustDomain != b.trustDomain
    ensures PairMerge(le, a, b) == [(a.endpointId, b.endpointId)]
  {
  }

  lemma ConclusiveInOrder(le: Collation, s: seq<Endpoint>, i: nat, j: nat)
    requires i < j < |s| && OneEndpoint(s[i], s[j]) && s[i].trustDomain != s[j].trustDomain
    ensures (s[i].endpointId, s[j].endpointId) in Rows(MergesOf(le), s, |s|)
  {
    ConclusivePair(le, s[i], s[j]);
    RowsContain(MergesOf(le), s, |s|, i, j, (s[i].endpointId, s[j].endpointId));
  }

  /** Every conclusive pair that was declared independent is reported for merging, whatever the order of the inputs. */
  lemma ConclusivePairsMerged(le: Collation, inputs: seq<Endpoint>, a: Endpoint, b: Endpoint)
    requires a in inputs && b in inputs && OneEndpoint(a, b)
    ensures a.trustDomain == b.trustDomain || IsMerge(Merges(le, inputs), a.endpointId, b.endpointId)
  {
    var s := Sort(ById(le), inputs);
    SameElements(s, inputs);
    assert a in s && b in s;
    var i :| 0 <= i < |s| && s[i] == a;
    var j :| 0 <= j < |s| && s[j] == b;
    if a.trustDomain != b.trustDomain && i < j {
      ConclusiveInOrder(le, s, i, j);
    } else if a.trustDomain != b.trustDomain {
      ConclusiveInOrder(le, s, j, i);
    }
  }

  ghost predicate InGroup<T>(groups: seq<seq<T>>, i: nat, x: T) {
    i < |groups| && x in groups[i]
  }

  /** Composed with the grouping: two witnesses behind one endpoint never count as two failure domains. */
  lemma OneEndpointOneDomain<T(!new)>(
    le: Collation, inputs: seq<Endpoint>, items: seq<WitnessClaim<T>>, a: Endpoint, b: Endpoint, x: WitnessClaim<T>, y: WitnessClaim<T>, i: nat, j: nat)
    requires UniqueIds(items) && a in inputs && b in inputs && OneEndpoint(a, b)
    requires x in items && x.item.id == a.endpointId && x.trustDomain == a.trustDomain
    requires y in items && y.item.id == b.endpointId && y.trustDomain == b.trustDomain
    requires InGroup(CollapsedGroups(items, Merges(le, inputs)), i, x) && InGroup(CollapsedGroups(items, Merges(le, inputs)), j, y)
    ensures i == j
  {
    var merges := Merges(le, inputs);
    ConclusivePairsMerged(le, inputs, a, b);
    Edge(Enlarged(merges), items, x, y);
    CollapsedAreComponents(items, merges);
  }
}
