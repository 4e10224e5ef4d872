/** Which third-party packages a release ships (`shipped_packages` in
    `scripts/third-party-notices.py`): everything the shipped binaries reach
    through normal dependencies, less the workspace itself. */
module Notices {

  type Id = string

  datatype Option<+T> = None | Some(value: T)

  datatype Package = Package(id: Id, name: string, version: string, source: Option<string>)

  /** A dependency, with the kinds it is needed as; the normal kind has no name. */
  datatype Dependency = Dependency(pkg: Id, kinds: seq<Option<string>>)

  datatype Metadata = Metadata(packages: map<Id, Package>, nodes: map<Id, seq<Dependency>>, members: set<Id>)
  {
    /** Packages are filed under their own ids. */
    ghost predicate Filed() {
      forall id :: id in packages ==> packages[id].id == id
    }
  }

  /** `WrongRoots` leaves with a message; `Missing` is a failed lookup. */
  datatype Outcome = Shipped(packages: seq<Package>) | WrongRoots | Missing

  const ROOTS: seq<string> := ["client", "server", "updater"]

  predicate IsNormal(d: Dependency) {
    None in d.kinds
  }

  /** What `id` needs in the binary. */
  predicate Needs(m: Metadata, id: Id, other: Id) {
    id in m.nodes && exists d :: d in m.nodes[id] && IsNormal(d) && d.pkg == other
  }

  predicate IsRoot(m: Metadata, id: Id) {
    id in m.members && id in m.packages && m.packages[id].name in ROOTS
  }

  // ----- Reachability -----

  ghost predicate IsPath(m: Metadata, path: seq<Id>) {
    && |path| > 0 && IsRoot(m, path[0])
    && forall i :: 0 < i < |path| ==> Needs(m, path[i - 1], path[i])
  }

  ghost predicate Reaches(m: Metadata, path: seq<Id>, id: Id) {
    IsPath(m, path) && path[|path| - 1] == id
  }

  /** A chain of normal dependencies leads from a shipped binary to `id`. */
  ghost predicate Reachable(m: Metadata, id: Id) {
    exists path :: Reaches(m, path, id)
  }

  lemma RootReachable(m: Metadata, id: Id)
    requires IsRoot(m, id)
    ensures Reachable(m, id)
  {
    assert Reaches(m, [id], id);
  }

  lemma NeededReachable(m: Metadata, id: Id, other: Id)
    requires Reachable(m, id) && Needs(m, id, other)
    ensures Reachable(m, other)
  {
    var path :| Reaches(m, path, id);
    var longer := path + [other];
    forall i | 0 < i < |longer| ensures Needs(m, longer[i - 1], longer[i]) {
      if i < |path| { assert Needs(m, path[i - 1], path[i]); }
    }
    assert Reaches(m, longer, other);
  }

  /** A set that holds the roots and what each of its own needs. */
  ghost predicate Closed(m: Metadata, seen: set<Id>) {
    && (forall id :: IsRoot(m, id) ==> id in seen)
    && (forall id, other :: id in seen && Needs(m, id, other) ==> other in seen)
  }

  lemma {:induction false} PathInside(m: Metadata, seen: set<Id>, path: seq<Id>)
    requires Closed(m, seen) && IsPath(m, path)
    ensures path[|path| - 1] in seen
    decreases |path|
  {
    var n := |path| - 1;
    if n > 0 {
      var front := path[..n];
      forall i | 0 < i < n ensures Needs(m, front[i - 1], front[i]) {
        assert Needs(m, path[i - 1], path[i]);
      }
      PathInside(m, seen, front);
      assert Needs(m, path[n - 1], path[n]);
    }
  }

  lemma ClosedHoldsAll(m: Metadata, seen: set<Id>, id: Id)
    requires Closed(m, seen) && Reachable(m, id)
    ensures id in seen
  {
    var path :| Reaches(m, path, id);
    PathInside(m, seen, path);
  }

  // ----- The walk -----

  /** The worklist's invariant: nothing unreachable is touched, and whatever a
      seen package needs is seen or waiting. */
  ghost predicate Walking(m: Metadata, seen: set<Id>, stack: seq<Id>) {
    && seen <= m.nodes.Keys
    && (forall id :: id in seen || id in stack ==> Reachable(m, id))
    && (forall id :: IsRoot(m, id) ==> id in seen || id in stack)
    && (forall id, other :: id in seen && Needs(m, id, other) ==> other in seen || other in stack)
  }

  /** The normal dependencies among the first `n`. */
  function Normal(deps: seq<Dependency>, n: nat): seq<Id>
    requires n <= |deps|
  {
    if n == 0 then []
    else if IsNormal(deps[n - 1]) then Normal(deps, n - 1) + [deps[n - 1].pkg]
    else Normal(deps, n - 1)
  }

  lemma {:induction false} NormalMeans(deps: seq<Dependency>, n: nat, other: Id)
    requires n <= |deps|
    ensures other in Normal(deps, n) <==> exists d :: d in deps[..n] && IsNormal(d) && d.pkg == other
  {
    if n > 0 {
      NormalMeans(deps, n - 1, other);
      assert deps[..n] == deps[..n - 1] + [deps[n - 1]];
    }
  }

  lemma Expanded(m: Metadata, seen: set<Id>, stack: seq<Id>, id: Id)
    requires Walking(m, seen, stack + [id]) && id in m.nodes
    ensures Walking(m, seen + {id}, stack + Normal(m.nodes[id], |m.nodes[id]|))
  {
    var deps := m.nodes[id];
    var after := stack + Normal(deps, |deps|);
    assert Reachable(m, id);
    forall other ensures other in Normal(deps, |deps|) <==> Needs(m, id, other) {
      NormalMeans(deps, |deps|, other);
      assert deps[..|deps|] == deps;
    }
    forall other | other in seen + {id} || other in after ensures Reachable(m, other) {
      if other in Normal(deps, |deps|) {
        NeededReachable(m, id, other);
      } else {
        assert other in seen || other in stack + [id];
      }
    }
    forall root | IsRoot(m, root) ensures root in seen + {id} || root in after {
      assert root in seen || root in stack + [id];
    }
    forall a, b | a in seen + {id} && Needs(m, a, b) ensures b in seen + {id} || b in after {
      if a != id { assert b in seen || b in stack + [id]; }
    }
  }

  lemma Revisited(m: Metadata, seen: set<Id>, stack: seq<Id>, id: Id)
    requires Walking(m, seen, stack + [id]) && id in seen
    ensures Walking(m, seen, stack)
  {
  }

  lemma Starting(m: Metadata, roots: seq<Id>)
    requires forall id :: id in roots <==> IsRoot(m, id)
    ensures Walking(m, {}, roots)
  {
    forall id | id in roots ensures Reachable(m, id) { RootReachable(m, id); }
  }

  lemma Waiting(m: Metadata, seen: set<Id>, stack: seq<Id>)
    requires Walking(m, seen, stack) && |stack| > 0
    ensures Reachable(m, stack[|stack| - 1])
  {
  }

  lemma Walked(m: Metadata, seen: set<Id>)
    requires Walking(m, seen, [])
    ensures forall id :: id in seen <==> Reachable(m, id)
    ensures seen <= m.nodes.Keys
  {
    forall id | Reachable(m, id) ensures id in seen { ClosedHoldsAll(m, seen, id); }
  }

  method PushNormal(stack: seq<Id>, deps: seq<Dependency>) returns (r: seq<Id>)
    ensures r == stack + Normal(deps, |deps|)
  {
    r := stack;
    for i := 0 to |deps|
      invariant r == stack + Normal(deps, i)
    {
      if IsNormal(deps[i]) {
        r := r + [deps[i].pkg];
      }
    }
  }

  /** One turn of the walk: the package on top is one already seen, or is seen
      now and what it needs is put on, or is missing from the graph. */
  method Visit(m: Metadata, seen: set<Id>, stack: seq<Id>) returns (found: bool, seen': set<Id>, stack': seq<Id>)
    requires Walking(m, seen, stack) && |stack| > 0
    ensures !found ==> exists id :: Reachable(m, id) && id !in m.nodes
    ensures found ==> Walking(m, seen', stack')
    ensures found ==> |m.nodes.Keys - seen'| < |m.nodes.Keys - seen| || (seen' == seen && |stack'| < |stack|)
  {
    var id, rest := stack[|stack| - 1], stack[..|stack| - 1];
    Waiting(m, seen, stack);
    assert stack == rest + [id];
    if id in seen {
      Revisited(m, seen, rest, id);
      return true, seen, rest;
    }
    if id !in m.nodes {
      return false, seen, stack;
    }
    Expanded(m, seen, rest, id);
    Smaller(m.nodes.Keys, seen, id);
    found, seen' := true, seen + {id};
    stack' := PushNormal(rest, m.nodes[id]);
  }

  /** The walk ends on every graph, cycles and all, with exactly the reachable
      packages; it fails exactly when the graph lacks a node it reaches. */
  method Walk(m: Metadata, roots: seq<Id>) returns (found: Option<set<Id>>)
    requires forall id :: id in roots <==> IsRoot(m, id)
    ensures found.None? ==> exists id :: Reachable(m, id) && id !in m.nodes
    ensures found.Some? ==> forall id :: id in found.value <==> Reachable(m, id)
    ensures found.Some? ==> found.value <= m.nodes.Keys
  {
    var seen: set<Id>, stack := {}, roots;
    Starting(m, roots);
    while |stack| > 0
      invariant Walking(m, seen, stack)
      decreases |m.nodes.Keys - seen|, |stack|
    {
      var ok;
      ok, seen, stack := Visit(m, seen, stack);
      if !ok {
        return None;
      }
    }
    assert stack == [];
    Walked(m, seen);
    found := Some(seen);
  }

  lemma Smaller(all: set<Id>, seen: set<Id>, id: Id)
    requires id in all && id !in seen
    ensures |all - (seen + {id})| < |all - seen|
  {
    assert all - seen == (all - (seen + {id})) + {id};
  }

  // ----- The order -----

  predicate AtMost(a: string, b: string)
    decreases |a|
  {
    |a| == 0 || (|b| > 0 && (a[0] < b[0] || (a[0] == b[0] && AtMost(a[1..], b[1..]))))
  }

  /** By name, then by version, as text. */
  predicate Before(p: Package, q: Package) {
    if p.name == q.name then AtMost(p.version, q.version) else AtMost(p.name, q.name)
  }

  lemma {:induction false} AtMostTotal(a: string, b: string)
    ensures AtMost(a, b) || AtMost(b, a)
    ensures AtMost(a, b) && AtMost(b, a) ==> a == b
    decreases |a|
  {
    if |a| > 0 && |b| > 0 && a[0] == b[0] {
      AtMostTotal(a[1..], b[1..]);
      assert a == [a[0]] + a[1..] && b == [b[0]] + b[1..];
    }
  }

  lemma {:induction false} AtMostTransitive(a: string, b: string, c: string)
    requires AtMost(a, b) && AtMost(b, c)
    ensures AtMost(a, c)
    decreases |a|
  {
    if |a| > 0 && a[0] == b[0] == c[0] {
      AtMostTransitive(a[1..], b[1..], c[1..]);
    }
  }

  lemma BeforeTotal(p: Package, q: Package)
    ensures Before(p, q) || Before(q, p)
  {
    AtMostTotal(p.name, q.name);
    AtMostTotal(p.version, q.version);
  }

  lemma BeforeTransitive(p: Package, q: Package, r: Package)
    requires Before(p, q) && Before(q, r)
    ensures Before(p, r)
  {
    if p.name == q.name == r.name {
      AtMostTransitive(p.version, q.version, r.version);
    } else if p.name != q.name && q.name != r.name {
      AtMostTransitive(p.name, q.name, r.name);
      AtMostTotal(p.name, q.name);
    }
  }

  ghost predicate Ordered(ps: seq<Package>) {
    forall i, j :: 0 <= i < j < |ps| ==> Before(ps[i], ps[j])
  }

  ghost predicate Distinct(ps: seq<Package>) {
    forall i, j :: 0 <= i < j < |ps| ==> ps[i] != ps[j]
  }

  method Place(ps: seq<Package>, p: Package) returns (r: seq<Package>)
    requires Ordered(ps) && Distinct(ps) && p !in ps
    ensures Ordered(r) && Distinct(r)
    ensures forall q :: q in r <==> q in ps || q == p
  {
    var at := 0;
    while at < |ps| && Before(ps[at], p)
      invariant 0 <= at <= |ps|
      invariant forall i :: 0 <= i < at ==> Before(ps[i], p)
    {
      at := at + 1;
    }
    forall j | at <= j < |ps| ensures Before(p, ps[j]) {
      BeforeTotal(ps[at], p);
      if at < j { BeforeTransitive(p, ps[at], ps[j]); }
    }
    r := ps[..at] + [p] + ps[at..];
    Placed(ps, p, at);
  }

  lemma Placed(ps: seq<Package>, p: Package, at: nat)
    requires at <= |ps| && Ordered(ps) && Distinct(ps) && p !in ps
    requires forall i :: 0 <= i < at ==> Before(ps[i], p)
    requires forall j :: at <= j < |ps| ==> Before(p, ps[j])
    ensures var r := ps[..at] + [p] + ps[at..];
      Ordered(r) && Distinct(r) && forall q :: q in r <==> q in ps || q == p
  {
  }

  // ----- The whole -----

  /** Outside the workspace, and fetched from somewhere. */
  predicate IsShipped(m: Metadata, id: Id)
    requires id in m.packages
  {
    id !in m.members && m.packages[id].source.Some? && m.packages[id].source.value != ""
  }

  /** Everything looked up is there, and the binaries are the expected three. */
  ghost predicate WellFormed(m: Metadata) {
    && m.members <= m.packages.Keys
    && (forall id :: Reachable(m, id) ==> id in m.nodes)
    && (forall id :: Reachable(m, id) && id !in m.members ==> id in m.packages)
  }

  function RootsOf(m: Metadata): set<Id> {
    set id | id in m.members && IsRoot(m, id)
  }

  ghost predicate IsShipment(m: Metadata, ps: seq<Package>) {
    && Ordered(ps) && Distinct(ps)
    && (forall p :: p in ps <==>
         exists id :: id in m.packages && Reachable(m, id) && IsShipped(m, id) && m.packages[id] == p)
  }

  method Enumerated(s: set<Id>) returns (r: seq<Id>)
    ensures forall id :: id in r <==> id in s
    ensures |r| == |s|
  {
    r := [];
    var rest := s;
    while rest != {}
      invariant rest <= s && |r| + |rest| == |s|
      invariant forall id :: id in r <==> id in s && id !in rest
      decreases |rest|
    {
      var id :| id in rest;
      r := r + [id];
      rest := rest - {id};
    }
  }

  method Collect(m: Metadata, seen: set<Id>) returns (r: Option<seq<Package>>)
    requires m.Filed()
    ensures r.None? <==> exists id :: id in seen && id !in m.members && id !in m.packages
    ensures r.Some? ==> Ordered(r.value) && Distinct(r.value)
    ensures r.Some? ==> forall p :: p in r.value <==>
      exists id :: id in seen && id in m.packages && IsShipped(m, id) && m.packages[id] == p
  {
    var ps: seq<Package> := [];
    var rest := seen;
    while rest != {}
      invariant rest <= seen && Ordered(ps) && Distinct(ps)
      invariant forall id :: id in seen - rest ==> id in m.members || id in m.packages
      invariant forall p :: p in ps <==>
        exists id :: id in seen - rest && id in m.packages && IsShipped(m, id) && m.packages[id] == p
      decreases |rest|
    {
      var id :| id in rest;
      if id !in m.members && id !in m.packages {
        return None;
      }
      if id in m.packages && IsShipped(m, id) {
        assert m.packages[id] !in ps;
        ps := Place(ps, m.packages[id]);
      }
      assert seen - (rest - {id}) == (seen - rest) + {id};
      rest := rest - {id};
    }
    r := Some(ps);
  }

  /** The list is there exactly when every lookup succeeds and the three binaries
      are found, and then it is the reachable packages from outside, each once,
      by name and version. */
  method ShippedPackages(m: Metadata) returns (r: Outcome)
    requires m.Filed()
    ensures r.Shipped? <==> WellFormed(m) && |RootsOf(m)| == |ROOTS|
    ensures r.Shipped? ==> IsShipment(m, r.packages)
    ensures r.WrongRoots? <==> m.members <= m.packages.Keys && |RootsOf(m)| != |ROOTS|
  {
    if !(m.members <= m.packages.Keys) {
      return Missing;
    }
    var roots := Enumerated(RootsOf(m));
    if |roots| != |ROOTS| {
      return WrongRoots;
    }
    var seen := Walk(m, roots);
    if seen.None? {
      return Missing;
    }
    var listed := Collect(m, seen.value);
    if listed.None? {
      return Missing;
    }
    r := Shipped(listed.value);
  }
}
