/** The circular-dependency check of the workspace: a depth-first search over its packages. */
module CycleCheck {
  type Name = string

  // Package names in the map's insertion order, each with its declared dependencies.
  datatype Workspace = Workspace(names: seq<Name>, dependencies: map<Name, seq<Name>>) {
    ghost predicate Valid() {
      forall n :: n in dependencies <==> n in names
    }

    // External packages are not followed.
    predicate Edge(a: Name, b: Name) {
      a in dependencies && b in dependencies && b in dependencies[a]
    }
  }

  ghost predicate IsWalk(w: Workspace, path: seq<Name>) {
    && (forall i :: 0 <= i < |path| ==> path[i] in w.dependencies)
    && (forall i :: 0 < i < |path| ==> w.Edge(path[i - 1], path[i]))
  }

  ghost predicate IsCycle(w: Workspace, path: seq<Name>) {
    |path| >= 2 && IsWalk(w, path) && path[0] == path[|path| - 1]
  }

  ghost predicate HasCycle(w: Workspace) {
    exists path :: IsCycle(w, path)
  }

  // A reported path: a real walk that ends where some suffix of it began.
  ghost predicate Genuine(w: Workspace, path: seq<Name>) {
    IsWalk(w, path) && exists j :: 0 <= j < |path| - 1 && IsCycle(w, path[j..])
  }

  // Every workspace dependency of a finished package was finished before it.
  ghost predicate Settled(w: Workspace, finished: seq<Name>) {
    forall i, d :: 0 <= i < |finished| && w.Edge(finished[i], d) ==> d in finished[..i]
  }

  lemma WalkExtends(w: Workspace, path: seq<Name>, n: Name)
    requires IsWalk(w, path) && n in w.dependencies && (path == [] || w.Edge(path[|path| - 1], n))
    ensures IsWalk(w, path + [n])
  {
  }

  lemma BackEdgeIsGenuine(w: Workspace, path: seq<Name>, dep: Name)
    requires IsWalk(w, path + [dep]) && dep in path
    ensures Genuine(w, path + [dep])
  {
    var j :| 0 <= j < |path| && path[j] == dep;
    var suffix := (path + [dep])[j..];
    forall i | 0 < i < |suffix| ensures w.Edge(suffix[i - 1], suffix[i]) {
      assert w.Edge((path + [dep])[j + i - 1], (path + [dep])[j + i]);
    }
    assert IsCycle(w, suffix);
  }

  lemma SettledExtends(w: Workspace, finished: seq<Name>, n: Name)
    requires Settled(w, finished) && forall d :: w.Edge(n, d) ==> d in finished
    ensures Settled(w, finished + [n])
  {
    var more := finished + [n];
    forall i, d | 0 <= i < |more| && w.Edge(more[i], d) ensures d in more[..i] {
      assert more[..i] == finished[..i];
      if i == |finished| {
        assert finished[..i] == finished;
      }
    }
  }

  // Along a walk among settled packages the finishing order strictly falls.
  lemma {:induction false} WalkFalls(w: Workspace, finished: seq<Name>, path: seq<Name>, last: nat)
    requires Settled(w, finished) && IsWalk(w, path) && 2 <= |path|
    requires last < |finished| && path[0] == finished[last]
    ensures exists k :: 0 <= k < last && path[|path| - 1] == finished[k]
    decreases |path|
  {
    assert w.Edge(path[0], path[1]);
    assert path[1] in finished[..last];
    var k :| 0 <= k < last && finished[..last][k] == path[1];
    assert finished[k] == path[1];
    if |path| > 2 {
      var rest := path[1..];
      assert forall i :: 0 < i < |rest| ==> rest[i - 1] == path[i] && rest[i] == path[i + 1];
      WalkFalls(w, finished, rest, k);
    }
  }

  // A package has only one place in the finishing order.
  ghost predicate Distinct(names: seq<Name>) {
    forall i, j :: 0 <= i < j < |names| ==> names[i] != names[j]
  }

  lemma SettledIsAcyclic(w: Workspace, finished: seq<Name>)
    requires Settled(w, finished) && Distinct(finished) && forall n <- w.dependencies :: n in finished
    ensures !HasCycle(w)
  {
    forall path | IsCycle(w, path) ensures false {
      assert path[0] in w.dependencies;
      var last :| 0 <= last < |finished| && finished[last] == path[0];
      WalkFalls(w, finished, path, last);
    }
  }

  // What the search keeps: the stack is a walk, everything visited is on it or finished, every report is
  // genuine, and while there is no report the finished packages are settled.
  datatype Search = Search(
    visited: set<Name>, recStack: set<Name>, path: seq<Name>, errors: seq<seq<Name>>, finished: seq<Name>)

  ghost predicate Sound(w: Workspace, s: Search) {
    && w.Valid() && IsWalk(w, s.path) && Distinct(s.finished)
    && s.recStack == (set n | n in s.path) && s.visited == (set n | n in s.finished) + s.recStack
    && (forall n <- s.recStack :: n !in s.finished)
    && (forall n <- s.visited :: n in w.dependencies)
    && (forall i :: 0 <= i < |s.errors| ==> Genuine(w, s.errors[i]))
    && (s.errors == [] ==> Settled(w, s.finished))
  }

  function Entered(s: Search, n: Name): Search {
    s.(visited := s.visited + {n}, recStack := s.recStack + {n}, path := s.path + [n])
  }

  function Reported(s: Search, dep: Name): Search {
    s.(errors := s.errors + [s.path + [dep]])
  }

  function Left(s: Search, n: Name): Search
    requires s.path != []
  {
    s.(recStack := s.recStack - {n}, path := s.path[..|s.path| - 1], finished := s.finished + [n])
  }

  lemma EnteredSound(w: Workspace, s: Search, n: Name)
    requires Sound(w, s) && n in w.dependencies && n !in s.visited
    requires s.path == [] || w.Edge(s.path[|s.path| - 1], n)
    ensures Sound(w, Entered(s, n))
  {
    hide Genuine, Settled, IsCycle;
    WalkExtends(w, s.path, n);
  }

  lemma ReportedSound(w: Workspace, s: Search, dep: Name)
    requires Sound(w, s) && dep in s.recStack && s.path != [] && w.Edge(s.path[|s.path| - 1], dep)
    ensures Sound(w, Reported(s, dep))
  {
    WalkExtends(w, s.path, dep);
    BackEdgeIsGenuine(w, s.path, dep);
    hide Genuine, Settled, IsWalk;
  }

  lemma LeftSound(w: Workspace, s: Search, n: Name)
    requires Sound(w, s) && s.path != [] && s.path[|s.path| - 1] == n && n !in s.path[..|s.path| - 1]
    requires s.errors == [] ==> forall d :: w.Edge(n, d) ==> d in s.finished
    ensures Sound(w, Left(s, n))
  {
    hide Genuine, Settled;
    if s.errors == [] {
      SettledExtends(w, s.finished, n);
    }
    var rest := s.path[..|s.path| - 1];
    assert s.path == rest + [n];
    assert n in s.recStack;
    assert Left(s, n).recStack == (set m | m in rest);
  }

  // A visited package off the stack is finished.
  lemma OffStackIsFinished(w: Workspace, s: Search, n: Name)
    requires Sound(w, s) && n in s.visited && n !in s.recStack
    ensures n in s.finished
  {
  }

  lemma StackMembers(w: Workspace, s: Search)
    requires Sound(w, s)
    ensures forall n :: n in s.path <==> n in s.recStack
    ensures forall n :: n in s.path ==> n in s.visited
  {
  }

  class CycleChecker {
    const workspace: Workspace
    var visited: set<Name>
    var recStack: set<Name>
    var path: seq<Name>
    var errors: seq<seq<Name>>
    ghost var finished: seq<Name>

    ghost function View(): Search
      reads this
    {
      Search(visited, recStack, path, errors, finished)
    }

    ghost predicate Valid()
      reads this
    {
      Sound(workspace, View())
    }

    constructor (workspace: Workspace)
      requires workspace.Valid()
      ensures Valid() && this.workspace == workspace && path == [] && visited == {} && errors == [] && finished == []
    {
      this.workspace := workspace;
      visited, recStack, path, errors, finished := {}, {}, [], [], [];
    }

    // One package and all it leads to; the stack and the path are left as they were found.
    method CheckCycle(current: Name)
      requires Valid() && current in workspace.dependencies && current !in visited
      requires path == [] || workspace.Edge(path[|path| - 1], current)
      modifies this
      ensures Valid() && path == old(path) && recStack == old(recStack)
      ensures old(finished) <= finished && old(errors) <= errors && old(visited) <= visited
      ensures current in finished
      decreases workspace.dependencies.Keys - visited
    {
      hide Sound;
      EnteredSound(workspace, View(), current);
      StackMembers(workspace, View());
      visited := visited + {current};
      recStack := recStack + {current};
      path := path + [current];
      var dependencies := workspace.dependencies[current];
      for i := 0 to |dependencies|
        invariant Valid() && path == old(path) + [current] && recStack == old(recStack) + {current}
        invariant old(finished) <= finished && old(errors) <= errors && old(visited) + {current} <= visited
        invariant errors == [] ==>
                    forall j :: 0 <= j < i && workspace.Edge(current, dependencies[j]) ==> dependencies[j] in finished
      {
        var dep := dependencies[i];
        if dep in workspace.dependencies {
          if dep !in visited {
            CheckCycle(dep);
          } else if dep in recStack {
            ReportedSound(workspace, View(), dep);
            errors := errors + [path + [dep]];
          } else {
            OffStackIsFinished(workspace, View(), dep);
          }
        }
      }
      assert path[..|path| - 1] == old(path);
      LeftSound(workspace, View(), current);
      finished := finished + [current];
      path := path[..|path| - 1];
      recStack := recStack - {current};
    }

    // A circular dependency is reported if and only if there is one, self-dependencies included, and
    // every reported path really closes a cycle.
    method CheckAll()
      requires Valid() && path == [] && visited == {} && errors == []
      modifies this
      ensures errors != [] <==> HasCycle(workspace)
      ensures forall e <- errors :: Genuine(workspace, e)
    {
      for i := 0 to |workspace.names|
        invariant Valid() && path == [] && forall j :: 0 <= j < i ==> workspace.names[j] in visited
      {
        hide Sound;
        NamesArePackages(workspace, View());
        if workspace.names[i] !in visited {
          CheckCycle(workspace.names[i]);
          FinishedIsVisited(workspace, View());
        }
      }
      if errors == [] {
        SettledIsAcyclic(workspace, finished);
      } else {
        assert Genuine(workspace, errors[0]);
      }
    }
  }

  lemma NamesArePackages(w: Workspace, s: Search)
    requires Sound(w, s)
    ensures forall i :: 0 <= i < |w.names| ==> w.names[i] in w.dependencies
  {
  }

  lemma FinishedIsVisited(w: Workspace, s: Search)
    requires Sound(w, s)
    ensures forall n :: n in s.finished ==> n in s.visited
  {
  }
}
