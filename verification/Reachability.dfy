/** The public-API leak search over a rustdoc document. */
module Reachability {
  import opened Common

  type Id = string

  /** An indexed item, with every identifier its body mentions. */
  datatype Item = Item(blanketImpl: bool, mentions: seq<Id>)

  datatype Summary = Summary(crateId: Option<nat>, path: seq<string>)

  /** The parts of the JSON document the search reads; a part may be missing. */
  datatype Document = Document(
    formatVersion: Option<nat>,
    index: Option<map<Id, Item>>,
    paths: Option<map<Id, Summary>>)

  datatype Graph = Graph(index: map<Id, Item>, paths: map<Id, Summary>)

  datatype Outcome = Leaks(found: set<string>) | Unsupported(version: Option<nat>) | MissingField

  const SUPPORTED_FORMAT_VERSION: nat := 61
  const FORBIDDEN_ROOTS: set<string> := {"fastrand", "shelterwood_runtime", "tokio", "tokio_util"}

  predicate IsLocal(summary: Summary) { summary.crateId == Some(0) }

  function Join(path: seq<string>): string {
    if path == [] then ""
    else if |path| == 1 then path[0]
    else path[0] + "::" + Join(path[1..])
  }

  function DisplayPath(summary: Summary): string {
    if summary.path == [] then "<unnamed-local-item>" else Join(summary.path)
  }

  function Line(rootPath: string, target: Summary): string {
    rootPath + " -> " + Join(target.path)
  }

  // ---------------------------------------------------------- what a leak is

  predicate Known(g: Graph, id: Id) { id in g.index || id in g.paths }

  /** The search looks inside indexed items other than blanket impls. */
  predicate Expands(g: Graph, id: Id) {
    id in g.index && !g.index[id].blanketImpl
  }

  /** `from` mentions the known identifier `to`. */
  predicate Refers(g: Graph, from: Id, to: Id) {
    Expands(g, from) && to in g.index[from].mentions && Known(g, to)
  }

  /** Local items, and indexed items without a path, are searched further. */
  predicate Follows(g: Graph, id: Id) {
    if id in g.paths then IsLocal(g.paths[id]) else id in g.index
  }

  predicate Edge(g: Graph, from: Id, to: Id) {
    Refers(g, from, to) && Follows(g, to)
  }

  /** A foreign item from a forbidden crate. */
  predicate Forbidden(g: Graph, id: Id) {
    && id in g.paths && !IsLocal(g.paths[id])
    && g.paths[id].path != [] && g.paths[id].path[0] in FORBIDDEN_ROOTS
  }

  predicate IsPath(g: Graph, p: seq<Id>) {
    p != [] && forall i :: 0 <= i < |p| - 1 ==> Edge(g, p[i], p[i + 1])
  }

  ghost predicate Reaches(g: Graph, root: Id, id: Id) {
    exists p :: IsPath(g, p) && p[0] == root && p[|p| - 1] == id
  }

  predicate IsRoot(g: Graph, root: Id) {
    root in g.paths && IsLocal(g.paths[root])
  }

  /** The line is owed: some local root reaches an item that refers to a
      forbidden one. */
  ghost predicate Owed(g: Graph, line: string) {
    exists root, from, target :: OwedBy(g, root, from, target, line)
  }

  ghost predicate OwedBy(g: Graph, root: Id, from: Id, target: Id, line: string) {
    && IsRoot(g, root) && Reaches(g, root, from)
    && Refers(g, from, target) && Forbidden(g, target)
    && line == Line(DisplayPath(g.paths[root]), g.paths[target])
  }

  /** What an ordinary item mentions is found: the search goes on to a local or
      unnamed item, and owes a line for an item of one of the four crates. */
  lemma MentionIsFound(g: Graph, root: Id, from: Id, to: Id)
    requires root in g.paths && g.paths[root].crateId == Some(0) && Reaches(g, root, from)
    requires from in g.index && !g.index[from].blanketImpl && to in g.index[from].mentions
    ensures to in g.paths && g.paths[to].crateId == Some(0) ==> Reaches(g, root, to)
    ensures to !in g.paths && to in g.index ==> Reaches(g, root, to)
    ensures to in g.paths && g.paths[to].crateId != Some(0) && g.paths[to].path != []
            && g.paths[to].path[0] in {"fastrand", "shelterwood_runtime", "tokio", "tokio_util"} ==>
              Owed(g, Line(DisplayPath(g.paths[root]), g.paths[to]))
  {
    hide Reaches;
    if Edge(g, from, to) {
      ReachesNext(g, root, from, to);
    }
    if Forbidden(g, to) {
      assert OwedBy(g, root, from, to, Line(DisplayPath(g.paths[root]), g.paths[to]));
    }
  }

  /** The search never enters a foreign item. */
  lemma ForeignIsNotSearched(g: Graph, root: Id, id: Id)
    requires IsRoot(g, root) && Reaches(g, root, id) && id in g.paths
    ensures g.paths[id].crateId == Some(0)
  {
    var p :| IsPath(g, p) && p[0] == root && p[|p| - 1] == id;
    if |p| > 1 {
      assert Edge(g, p[|p| - 2], p[|p| - 1]);
    }
  }

  /** The two documents differ at most in what blanket impls mention. */
  predicate SameButBlankets(g: Graph, h: Graph) {
    && g.paths == h.paths && g.index.Keys == h.index.Keys
    && forall id :: id in g.index ==>
         && g.index[id].blanketImpl == h.index[id].blanketImpl
         && (!g.index[id].blanketImpl ==> g.index[id] == h.index[id])
  }

  lemma BlanketsHide(g: Graph, h: Graph, line: string)
    requires SameButBlankets(g, h)
    ensures Owed(g, line) ==> Owed(h, line)
  {
    if root, from, target :| OwedBy(g, root, from, target, line) {
      var p :| IsPath(g, p) && p[0] == root && p[|p| - 1] == from;
      assert IsPath(h, p) by {
        forall i | 0 <= i < |p| - 1 ensures Edge(h, p[i], p[i + 1]) {
          assert Edge(g, p[i], p[i + 1]);
        }
      }
      assert OwedBy(h, root, from, target, line);
    }
  }

  /** What blanket impls mention makes no difference to the report. */
  lemma BlanketsDoNotLeak(g: Graph, h: Graph, line: string)
    requires SameButBlankets(g, h)
    ensures Owed(g, line) <==> Owed(h, line)
  {
    hide Owed;
    BlanketsHide(g, h, line);
    BlanketsHide(h, g, line);
  }

  // -------------------------------------------------------------- one root

  /** The lines one visited item contributes. */
  function Reported(g: Graph, rootPath: string, from: Id): set<string> {
    if !Expands(g, from) then {}
    else set t | t in g.index[from].mentions && Forbidden(g, t) :: Line(rootPath, g.paths[t])
  }

  /** The lines of every visited item, and no others. */
  ghost predicate Collected(g: Graph, rootPath: string, visited: set<Id>, found: set<string>) {
    && (forall v :: v in visited ==> Reported(g, rootPath, v) <= found)
    && (forall line :: line in found ==> exists v :: v in visited && line in Reported(g, rootPath, v))
  }

  lemma CollectedMore(g: Graph, rootPath: string, visited: set<Id>, found: set<string>, id: Id)
    requires Collected(g, rootPath, visited, found)
    ensures Collected(g, rootPath, visited + {id}, found + Reported(g, rootPath, id))
  {
  }

  lemma ReachesRoot(g: Graph, root: Id)
    ensures Reaches(g, root, root)
  {
    assert IsPath(g, [root]);
  }

  lemma ReachesNext(g: Graph, root: Id, from: Id, to: Id)
    requires Reaches(g, root, from) && Edge(g, from, to)
    ensures Reaches(g, root, to)
  {
    var p :| IsPath(g, p) && p[0] == root && p[|p| - 1] == from;
    assert IsPath(g, p + [to]);
  }

  /** A set holding the root and closed under edges holds everything reachable. */
  lemma {:induction false} ClosedHoldsPath(g: Graph, closed: set<Id>, p: seq<Id>)
    requires IsPath(g, p) && p[0] in closed
    requires forall v, w :: v in closed && Edge(g, v, w) ==> w in closed
    ensures p[|p| - 1] in closed
    decreases |p|
  {
    if |p| > 1 {
      assert Edge(g, p[0], p[1]);
      assert IsPath(g, p[1..]) by {
        forall i | 0 <= i < |p[1..]| - 1 ensures Edge(g, p[1..][i], p[1..][i + 1]) {
          assert Edge(g, p[i + 1], p[i + 2]);
        }
      }
      ClosedHoldsPath(g, closed, p[1..]);
    }
  }

  lemma ClosedHoldsReachable(g: Graph, closed: set<Id>, root: Id)
    requires root in closed
    requires forall v, w :: v in closed && Edge(g, v, w) ==> w in closed
    ensures forall id :: Reaches(g, root, id) ==> id in closed
  {
    forall id | Reaches(g, root, id) ensures id in closed {
      var p :| IsPath(g, p) && p[0] == root && p[|p| - 1] == id;
      ClosedHoldsPath(g, closed, p);
    }
  }

  function KnownIds(g: Graph): set<Id> {
    g.index.Keys + g.paths.Keys
  }

  /** The state of the worklist search from one root. */
  ghost predicate Frontier(g: Graph, root: Id, visited: set<Id>, queue: seq<Id>) {
    && visited <= KnownIds(g)
    && (root in visited || root in queue)
    && (forall id :: id in visited ==> Reaches(g, root, id))
    && (forall id :: id in queue ==> Reaches(g, root, id) && Known(g, id))
    && (forall v, w :: v in visited && Edge(g, v, w) ==> w in visited || w in queue)
  }

  /** Skipping an identifier already visited, or not expandable, loses nothing. */
  lemma FrontierSkip(g: Graph, root: Id, visited: set<Id>, queue: seq<Id>)
    requires queue != [] && Frontier(g, root, visited, queue)
    requires queue[0] in visited || !Expands(g, queue[0])
    ensures Frontier(g, root, visited + {queue[0]}, queue[1..])
  {
    hide Reaches;
    assert Known(g, queue[0]);
    assert forall id :: id in queue ==> id == queue[0] || id in queue[1..];
    assert forall id :: id in queue[1..] ==> id in queue;
    forall v, w | v in visited + {queue[0]} && Edge(g, v, w)
      ensures w in visited + {queue[0]} || w in queue[1..]
    {
      assert v in visited;
    }
  }

  lemma FrontierExpand(g: Graph, root: Id, visited: set<Id>, queue: seq<Id>, pushed: seq<Id>)
    requires queue != [] && Frontier(g, root, visited, queue)
    requires forall w :: w in pushed <==> Edge(g, queue[0], w)
    ensures Frontier(g, root, visited + {queue[0]}, queue[1..] + pushed)
  {
    var rest := queue[1..] + pushed;
    InKnown(g, root, visited, queue);
    assert forall id :: id in queue ==> id == queue[0] || id in rest;
    forall id | id in rest ensures Reaches(g, root, id) && Known(g, id) {
      if id in pushed {
        ReachesNext(g, root, queue[0], id);
      }
    }
    assert forall w :: w in pushed ==> w in rest;
  }

  lemma FrontierDone(g: Graph, root: Id, visited: set<Id>)
    requires Frontier(g, root, visited, [])
    ensures forall id :: id in visited <==> Reaches(g, root, id)
  {
    ClosedHoldsReachable(g, visited, root);
  }

  /** The search from one root visits exactly what the root reaches. */
  method SearchRoot(g: Graph, root: Id) returns (found: set<string>, visited: set<Id>)
    requires IsRoot(g, root)
    ensures forall id :: id in visited <==> Reaches(g, root, id)
    ensures Collected(g, DisplayPath(g.paths[root]), visited, found)
  {
    hide Reported, Collected, Frontier, Reaches, Edge;
    var rootPath := DisplayPath(g.paths[root]);
    var queue := [root];
    var seen: set<Id> := {};
    found := {};
    StartsOut(g, root, rootPath);
    while queue != []
      invariant seen <= KnownIds(g)
      invariant Frontier(g, root, seen, queue)
      invariant Collected(g, rootPath, seen, found)
      decreases |KnownIds(g) - seen|, |queue|
    {
      var id := queue[0];
      if id in seen {
        FrontierSkip(g, root, seen, queue);
        assert seen + {id} == seen;
        queue := queue[1..];
        continue;
      }
      InKnown(g, root, seen, queue);
      Fewer(KnownIds(g), seen, id);
      CollectedMore(g, rootPath, seen, found, id);
      if !Expands(g, id) {
        FrontierSkip(g, root, seen, queue);
        assert Reported(g, rootPath, id) == {} by { NothingReported(g, rootPath, id); }
        assert found + {} == found;
        seen := seen + {id};
        queue := queue[1..];
        continue;
      }
      var pushed, lines := VisitItem(g, rootPath, id);
      FrontierExpand(g, root, seen, queue, pushed);
      seen := seen + {id};
      queue := queue[1..] + pushed;
      found := found + lines;
    }
    visited := seen;
    FrontierDone(g, root, seen);
  }

  /** Sorts one item's mentions into identifiers to follow and lines to report. */
  method VisitItem(g: Graph, rootPath: string, id: Id) returns (pushed: seq<Id>, lines: set<string>)
    requires Expands(g, id)
    ensures forall w :: w in pushed <==> Edge(g, id, w)
    ensures lines == Reported(g, rootPath, id)
  {
    pushed, lines := [], {};
    var mentions := g.index[id].mentions;
    for i := 0 to |mentions|
      invariant forall w :: w in pushed <==> w in mentions[..i] && Edge(g, id, w)
      invariant lines == set t | t in mentions[..i] && Forbidden(g, t) :: Line(rootPath, g.paths[t])
    {
      var reference := mentions[i];
      assert mentions[..i + 1] == mentions[..i] + [reference];
      if reference !in g.paths {
        if reference in g.index {
          pushed := pushed + [reference];
        }
        continue;
      }
      var summary := g.paths[reference];
      if IsLocal(summary) {
        pushed := pushed + [reference];
        continue;
      }
      if summary.path != [] && summary.path[0] in FORBIDDEN_ROOTS {
        lines := lines + {Line(rootPath, summary)};
      }
    }
    assert mentions[..|mentions|] == mentions;
  }

  lemma StartsOut(g: Graph, root: Id, rootPath: string)
    requires IsRoot(g, root)
    ensures Frontier(g, root, {}, [root]) && Collected(g, rootPath, {}, {})
  {
    ReachesRoot(g, root);
  }

  lemma InKnown(g: Graph, root: Id, visited: set<Id>, queue: seq<Id>)
    requires queue != [] && Frontier(g, root, visited, queue)
    ensures queue[0] in KnownIds(g)
  {
    assert queue[0] in queue;
  }

  lemma Fewer(known: set<Id>, seen: set<Id>, id: Id)
    requires id in known && id !in seen
    ensures |known - (seen + {id})| < |known - seen|
  {
    assert known - seen == (known - (seen + {id})) + {id};
  }

  lemma NothingReported(g: Graph, rootPath: string, id: Id)
    requires !Expands(g, id)
    ensures Reported(g, rootPath, id) == {}
  {
  }

  // ----------------------------------------------------------- the whole search

  lemma RootReports(g: Graph, root: Id, visited: set<Id>, found: set<string>, line: string)
    requires IsRoot(g, root)
    requires forall id :: id in visited <==> Reaches(g, root, id)
    requires Collected(g, DisplayPath(g.paths[root]), visited, found)
    ensures line in found <==> exists from, target :: OwedBy(g, root, from, target, line)
  {
    var rootPath := DisplayPath(g.paths[root]);
    if line in found {
      var v :| v in visited && line in Reported(g, rootPath, v);
      var t :| t in g.index[v].mentions && Forbidden(g, t) && line == Line(rootPath, g.paths[t]);
      assert OwedBy(g, root, v, t, line);
    }
    if from, target :| OwedBy(g, root, from, target, line) {
      assert line in Reported(g, rootPath, from);
    }
  }

  /** The search is total, reports exactly the lines owed, and refuses a
      document of another format version or without its two tables. */
  method FindLeaks(document: Document) returns (outcome: Outcome)
    ensures document.formatVersion != Some(SUPPORTED_FORMAT_VERSION) ==>
              outcome == Unsupported(document.formatVersion)
    ensures document.formatVersion == Some(SUPPORTED_FORMAT_VERSION) ==>
              if document.index.None? || document.paths.None? then outcome == MissingField
              else outcome.Leaks?
                   && forall line :: line in outcome.found
                                     <==> Owed(Graph(document.index.value, document.paths.value), line)
  {
    if document.formatVersion != Some(SUPPORTED_FORMAT_VERSION) {
      return Unsupported(document.formatVersion);
    }
    if document.index.None? || document.paths.None? {
      return MissingField;
    }
    hide Reaches, Collected, Refers, Forbidden;
    var g := Graph(document.index.value, document.paths.value);
    var roots := set id | id in g.paths && IsLocal(g.paths[id]);
    var rest := roots;
    var leaks: set<string> := {};
    while rest != {}
      invariant rest <= roots
      invariant forall line :: line in leaks <==>
                  exists root, from, target :: root in roots - rest && OwedBy(g, root, from, target, line)
      decreases rest
    {
      var root :| root in rest;
      var found, visited := SearchRoot(g, root);
      forall line ensures line in leaks + found <==>
        exists r, from, target :: r in roots - (rest - {root}) && OwedBy(g, r, from, target, line)
      {
        RootReports(g, root, visited, found, line);
      }
      leaks := leaks + found;
      rest := rest - {root};
    }
    outcome := Leaks(leaks);
    forall line ensures line in leaks <==> Owed(g, line) {
      if root, from, target :| OwedBy(g, root, from, target, line) {
        assert root in roots;
      }
    }
  }
}
