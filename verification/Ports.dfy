/** A node's port mapping: what the Controller's facts must satisfy, the public port each local port
    gets, and the configuration revision an entry is verified under. */
module Ports {
  import opened Facts
  import opened Counting

  datatype Mode = IdentityMode | Explicit | OtherMode(name: string)

  datatype Mapping = Mapping(local: int, public: int)

  // `hostValid` and `ipValid` are what the host and address patterns answer.
  datatype NetworkFacts = NetworkFacts(
    host: string, ip: string, hostValid: bool, ipValid: bool, lo: int, hi: int, mode: Mode, mappings: seq<Mapping>, a2s: bool)

  predicate MappingOk(n: NetworkFacts, m: Mapping) {
    n.lo <= m.local <= n.hi && 1 <= m.public <= 65535
  }

  predicate OneToOne(ms: seq<Mapping>) {
    forall i, j :: 0 <= i < j < |ms| ==> ms[i].local != ms[j].local && ms[i].public != ms[j].public
  }

  // What NetworkFacts.Validate accepts.
  predicate Valid(n: NetworkFacts, hardMax: int) {
    && hardMax >= 0 && n.hostValid && n.ipValid
    && 1 <= n.lo <= n.hi <= 65535 && n.hi - n.lo + 1 <= 4096 && hardMax <= n.hi - n.lo + 1
    && match n.mode
       case IdentityMode => n.mappings == []
       case Explicit => |n.mappings| == n.hi - n.lo + 1 && OneToOne(n.mappings) && forall i :: 0 <= i < |n.mappings| ==> MappingOk(n, n.mappings[i])
       case OtherMode(_) => false
  }

  method Validate(n: NetworkFacts, hardMax: int) returns (ok: bool)
    ensures ok <==> Valid(n, hardMax)
  {
    if hardMax < 0 || !n.hostValid || !n.ipValid { return false; }
    if n.lo < 1 || n.hi > 65535 || n.lo > n.hi { return false; }
    var count := n.hi - n.lo + 1;
    if count > 4096 || hardMax > count { return false; }
    if n.mode.OtherMode? { return false; }
    if n.mode.IdentityMode? { return n.mappings == []; }
    if |n.mappings| != count { return false; }
    var locals: set<int> := {};
    var publics: set<int> := {};
    for k := 0 to |n.mappings|
      invariant forall x :: x in locals <==> exists i :: 0 <= i < k && n.mappings[i].local == x
      invariant forall x :: x in publics <==> exists i :: 0 <= i < k && n.mappings[i].public == x
      invariant OneToOne(n.mappings[..k])
      invariant forall i :: 0 <= i < k ==> MappingOk(n, n.mappings[i])
    {
      var m := n.mappings[k];
      if m.local < n.lo || m.local > n.hi || m.public < 1 || m.public > 65535 {
        assert !MappingOk(n, n.mappings[k]);
        return false;
      }
      if m.local in locals {
        var i :| 0 <= i < k && n.mappings[i].local == m.local;
        assert !OneToOne(n.mappings);
        return false;
      }
      if m.public in publics {
        var i :| 0 <= i < k && n.mappings[i].public == m.public;
        assert !OneToOne(n.mappings);
        return false;
      }
      locals, publics := locals + {m.local}, publics + {m.public};
    }
    assert n.mappings[..|n.mappings|] == n.mappings;
    return true;
  }

  // ---- JoinInfo ----

  datatype Join = Joined(local: int, public: int, host: string, ip: string, revision: Revision) | Unavailable | Invalid

  // The public port the mapping gives, as a relation.
  predicate Maps(n: NetworkFacts, local: int, public: int) {
    match n.mode
    case IdentityMode => public == local
    case Explicit => exists i :: 0 <= i < |n.mappings| && n.mappings[i] == Mapping(local, public)
    case OtherMode(_) => false
  }

  method JoinInfo(n: NetworkFacts, local: int) returns (j: Join)
    ensures j.Joined? ==> n.lo <= local <= n.hi && j.local == local && Maps(n, local, j.public) && 1 <= j.public <= 65535
                          && j.host == n.host && j.ip == n.ip && j.revision == RevisionOf(n)
    ensures forall p :: OneToOne(n.mappings) && n.hostValid && n.ipValid && n.lo <= local <= n.hi
                        && 1 <= p <= 65535 && 1 <= local <= 65535 && Maps(n, local, p) ==>
              j == Joined(local, p, n.host, n.ip, RevisionOf(n))
  {
    if local < n.lo || local > n.hi { return Unavailable; }
    var public := 0;
    match n.mode {
      case IdentityMode => public := local;
      case Explicit =>
        var k := 0;
        while k < |n.mappings|
          invariant 0 <= k <= |n.mappings| && public == 0
          invariant forall i :: 0 <= i < k ==> n.mappings[i].local != local
        {
          if n.mappings[k].local == local {
            public := n.mappings[k].public;
            assert n.mappings[k] == Mapping(local, public);
            break;
          }
          k := k + 1;
        }
      case OtherMode(_) =>
    }
    if public < 1 || public > 65535 { return Unavailable; }
    var revision := EntryConfigRevision(n);
    if !(1 <= local <= 65535) || !n.hostValid || !n.ipValid { return Invalid; }
    return Joined(local, public, n.host, n.ip, revision);
  }

  function Locals(ms: seq<Mapping>): set<int> {
    if ms == [] then {} else Locals(ms[..|ms|-1]) + {ms[|ms|-1].local}
  }

  lemma {:induction false} LocalsOf(ms: seq<Mapping>, p: int)
    ensures p in Locals(ms) <==> exists i :: 0 <= i < |ms| && ms[i].local == p
    decreases |ms|
  {
    if ms != [] {
      var front, last := ms[..|ms|-1], |ms| - 1;
      LocalsOf(front, p);
      if p in Locals(front) {
        var i :| 0 <= i < |front| && front[i].local == p;
        assert ms[i].local == p;
      } else {
        forall i | 0 <= i < last
          ensures ms[i].local != p
        {
          assert ms[i] == front[i];
        }
        assert ms[last].local == p ==> p in Locals(ms);
      }
    }
  }

  lemma {:induction false} LocalsCount(ms: seq<Mapping>)
    requires OneToOne(ms)
    ensures |Locals(ms)| == |ms|
    decreases |ms|
  {
    if ms != [] {
      var front, last := ms[..|ms|-1], ms[|ms|-1].local;
      LocalsCount(front);
      LocalsOf(front, last);
      assert last !in Locals(front);
    }
  }

  // As many distinct locals as ports: every port of the pool is one of them.
  lemma EveryLocal(ms: seq<Mapping>, lo: int, hi: int, p: int)
    requires OneToOne(ms) && |ms| == hi - lo + 1 && lo <= p <= hi
    requires forall i :: 0 <= i < |ms| ==> lo <= ms[i].local <= hi
    ensures exists i :: 0 <= i < |ms| && ms[i].local == p
  {
    LocalsCount(ms);
    forall x
      ensures x in Locals(ms) <==> exists i :: 0 <= i < |ms| && ms[i].local == x
    {
      LocalsOf(ms, x);
    }
    IntervalSize(lo, hi + 1);
    hide OneToOne, Interval, Locals;
    var pool, locals := Interval(lo, hi + 1), Locals(ms);
    var missing := pool - locals;
    assert locals <= pool;
    assert pool == locals + missing;
    assert |missing| == 0;
    assert p !in missing;
    assert p in locals;
  }

  lemma MappingTotal(n: NetworkFacts, hardMax: int, p: int)
    requires Valid(n, hardMax) && n.lo <= p <= n.hi
    ensures exists q :: 1 <= q <= 65535 && Maps(n, p, q)
  {
    if n.mode.Explicit? {
      forall i | 0 <= i < |n.mappings|
        ensures n.lo <= n.mappings[i].local <= n.hi
      {
        assert MappingOk(n, n.mappings[i]);
      }
      EveryLocal(n.mappings, n.lo, n.hi, p);
      var i :| 0 <= i < |n.mappings| && n.mappings[i].local == p;
      assert MappingOk(n, n.mappings[i]);
      assert n.mappings[i] == Mapping(p, n.mappings[i].public);
      assert Maps(n, p, n.mappings[i].public);
    } else {
      assert Maps(n, p, p);
    }
  }

  // A port maps to one public port, and distinct ports to distinct ones.
  lemma MappingOneToOne(n: NetworkFacts, hardMax: int, p: int, q: int, x: int, y: int)
    requires Valid(n, hardMax) && Maps(n, p, x) && Maps(n, q, y)
    ensures p == q <==> x == y
  {
    if n.mode.Explicit? {
      var i :| 0 <= i < |n.mappings| && n.mappings[i] == Mapping(p, x);
      var j :| 0 <= j < |n.mappings| && n.mappings[j] == Mapping(q, y);
      assert i < j || j < i || i == j;
    }
  }

  // Facts the Platform accepts give every port of the pool its entry.
  method EveryPortJoins(n: NetworkFacts, hardMax: int, p: int) returns (j: Join)
    requires Valid(n, hardMax) && n.lo <= p <= n.hi
    ensures j.Joined? && j.local == p && Maps(n, p, j.public) && j.revision == RevisionOf(n)
  {
    MappingTotal(n, hardMax, p);
    j := JoinInfo(n, p);
  }

  // ---- The entry configuration revision ----

  // The text that is hashed: every field, with the mappings sorted by local port.
  datatype Revision = Revision(host: string, ip: string, lo: int, hi: int, mode: Mode, mappings: seq<Mapping>, a2s: bool)

  predicate SortedByLocal(ms: seq<Mapping>) {
    forall i, j :: 0 <= i < j < |ms| ==> ms[i].local <= ms[j].local
  }

  function Insert(ms: seq<Mapping>, m: Mapping): seq<Mapping> {
    if ms == [] || m.local < ms[0].local then [m] + ms else [ms[0]] + Insert(ms[1..], m)
  }

  function SortMappings(ms: seq<Mapping>): seq<Mapping> {
    if ms == [] then [] else Insert(SortMappings(ms[..|ms|-1]), ms[|ms|-1])
  }

  function RevisionOf(n: NetworkFacts): Revision {
    Revision(n.host, n.ip, n.lo, n.hi, n.mode, SortMappings(n.mappings), n.a2s)
  }

  // Sorting the copied slice, each mapping into its place.
  method EntryConfigRevision(n: NetworkFacts) returns (r: Revision)
    ensures r == RevisionOf(n)
    ensures SortedByLocal(r.mappings) && multiset(r.mappings) == multiset(n.mappings)
  {
    SortMappingsSorts(n.mappings);
    var sorted: seq<Mapping> := [];
    for k := 0 to |n.mappings|
      invariant sorted == SortMappings(n.mappings[..k])
    {
      assert n.mappings[..k+1][..k] == n.mappings[..k];
      sorted := Insert(sorted, n.mappings[k]);
    }
    assert n.mappings[..|n.mappings|] == n.mappings;
    return Revision(n.host, n.ip, n.lo, n.hi, n.mode, sorted, n.a2s);
  }

  lemma {:induction false} InsertCounts(ms: seq<Mapping>, m: Mapping)
    ensures multiset(Insert(ms, m)) == multiset(ms) + multiset{m}
    decreases |ms|
  {
    if ms != [] && m.local >= ms[0].local {
      InsertCounts(ms[1..], m);
      assert ms == [ms[0]] + ms[1..];
    }
  }

  lemma {:induction false} InsertSorted(ms: seq<Mapping>, m: Mapping)
    requires SortedByLocal(ms)
    ensures SortedByLocal(Insert(ms, m)) && multiset(Insert(ms, m)) == multiset(ms) + multiset{m}
    decreases |ms|
  {
    InsertCounts(ms, m);
    if ms != [] && m.local >= ms[0].local {
      var rest := Insert(ms[1..], m);
      InsertSorted(ms[1..], m);
      forall i | 0 <= i < |rest|
        ensures ms[0].local <= rest[i].local
      {
        InsertMember(ms[1..], m, rest[i]);
      }
    }
  }

  lemma InsertMember(ms: seq<Mapping>, m: Mapping, x: Mapping)
    requires x in Insert(ms, m)
    ensures x == m || x in ms
  {
    InsertCounts(ms, m);
    assert x in multiset(Insert(ms, m));
  }

  lemma {:induction false} SortMappingsSorts(ms: seq<Mapping>)
    ensures SortedByLocal(SortMappings(ms)) && multiset(SortMappings(ms)) == multiset(ms)
    decreases |ms|
  {
    if ms != [] {
      SortMappingsSorts(ms[..|ms|-1]);
      InsertSorted(SortMappings(ms[..|ms|-1]), ms[|ms|-1]);
      assert ms == ms[..|ms|-1] + [ms[|ms|-1]];
    }
  }

  // With distinct local ports there is one sorted order.
  lemma {:induction false} SortedOnce(s: seq<Mapping>, t: seq<Mapping>)
    requires SortedByLocal(s) && SortedByLocal(t) && multiset(s) == multiset(t)
    requires forall x, y :: x in s && y in s && x.local == y.local ==> x == y
    ensures s == t
    decreases |s|
  {
    hide SortedByLocal;
    assert |multiset(s)| == |s| && |multiset(t)| == |t|;
    if s != [] {
      SameHead(s, t);
      TailCounts(s);
      TailCounts(t);
      TailSorted(s);
      TailSorted(t);
      forall x | x in s[1..]
        ensures x in s
      {
      }
      SortedOnce(s[1..], t[1..]);
      assert s == [s[0]] + s[1..] && t == [t[0]] + t[1..];
    }
  }

  lemma TailSorted(s: seq<Mapping>)
    requires s != [] && SortedByLocal(s)
    ensures SortedByLocal(s[1..]) && forall x :: x in s[1..] ==> x in s
  {
  }

  lemma TailCounts(s: seq<Mapping>)
    requires s != []
    ensures multiset(s[1..]) == multiset(s) - multiset{s[0]}
  {
    assert s == [s[0]] + s[1..];
  }

  lemma SameHead(s: seq<Mapping>, t: seq<Mapping>)
    requires SortedByLocal(s) && SortedByLocal(t) && multiset(s) == multiset(t) && s != [] && t != []
    requires forall x, y :: x in s && y in s && x.local == y.local ==> x == y
    ensures s[0] == t[0]
  {
    assert s[0] in multiset(t);
    assert t[0] in multiset(s);
    var i :| 0 <= i < |t| && t[i] == s[0];
    var j :| 0 <= j < |s| && s[j] == t[0];
  }

  // The revision of valid facts does not depend on the order their mappings are listed in.
  lemma RevisionIgnoresOrder(n: NetworkFacts, hardMax: int, ms: seq<Mapping>)
    requires Valid(n, hardMax) && multiset(ms) == multiset(n.mappings)
    ensures RevisionOf(n.(mappings := ms)) == RevisionOf(n)
  {
    SortMappingsSorts(n.mappings);
    SortMappingsSorts(ms);
    var s := SortMappings(n.mappings);
    forall x, y | x in s && y in s && x.local == y.local
      ensures x == y
    {
      assert x in multiset(n.mappings) && y in multiset(n.mappings);
      var i :| 0 <= i < |n.mappings| && n.mappings[i] == x;
      var j :| 0 <= j < |n.mappings| && n.mappings[j] == y;
      assert n.mode.Explicit?;
      assert i < j || j < i || i == j;
    }
    SortedOnce(s, SortMappings(ms));
  }

  // And it tells configurations apart: equal revisions mean equal fields and equal mappings.
  lemma RevisionIsFaithful(n: NetworkFacts, m: NetworkFacts)
    requires RevisionOf(n) == RevisionOf(m)
    ensures n.host == m.host && n.ip == m.ip && n.lo == m.lo && n.hi == m.hi && n.mode == m.mode && n.a2s == m.a2s
    ensures multiset(n.mappings) == multiset(m.mappings)
  {
    SortMappingsSorts(n.mappings);
    SortMappingsSorts(m.mappings);
  }
}
