/**
 The department tree: what is built from a table of departments that may point at each other
 in cycles or at rows that do not exist.
 */
module DepartmentTree {
  import opened Wrappers

  datatype Department = Department(id: int, name: string, parent: Option<int>)

  datatype Node = Node(id: int, name: string, userCount: int, children: seq<Node>)

  /** Ids are the primary key. */
  ghost predicate UniqueIds(depts: seq<Department>) {
    forall i, j | 0 <= i < j < |depts| :: depts[i].id != depts[j].id
  }

  function Find(depts: seq<Department>, id: int): (r: Option<Department>)
    ensures r.Some? ==> r.value in depts && r.value.id == id
    ensures r.None? ==> forall d | d in depts :: d.id != id
  {
    if depts == [] then None
    else
      var n := |depts| - 1;
      assert depts == depts[..n] + [depts[n]];
      if depts[n].id == id then Some(depts[n]) else Find(depts[..n], id)
  }

  lemma FindRow(depts: seq<Department>, d: Department)
    requires UniqueIds(depts) && d in depts
    ensures Find(depts, d.id) == Some(d)
  {
  }

  /** The rows under `parent` in table order. */
  function Under(depts: seq<Department>, parent: Option<int>): seq<Department> {
    if depts == [] then []
    else
      var last := depts[|depts| - 1];
      Under(depts[..|depts| - 1], parent) + (if last.parent == parent then [last] else [])
  }

  lemma {:induction false} UnderRows(depts: seq<Department>, parent: Option<int>)
    ensures forall d :: d in Under(depts, parent) <==> d in depts && d.parent == parent
    decreases |depts|
  {
    if depts != [] {
      var n := |depts| - 1;
      UnderRows(depts[..n], parent);
      assert depts == depts[..n] + [depts[n]];
    }
  }

  /** The rows under a department stand in the order of the table. */
  lemma {:induction false} UnderInOrder(depts: seq<Department>, parent: Option<int>, k: nat, l: nat)
      returns (i: nat, j: nat)
    requires k < l < |Under(depts, parent)|
    ensures i < j < |depts| && depts[i] == Under(depts, parent)[k] && depts[j] == Under(depts, parent)[l]
    decreases |depts|
  {
    var n := |depts| - 1;
    var init := Under(depts[..n], parent);
    if l < |init| {
      i, j := UnderInOrder(depts[..n], parent, k, l);
    } else {
      UnderRows(depts[..n], parent);
      assert init[k] in depts[..n];
      i :| 0 <= i < n && depts[..n][i] == init[k];
      j := n;
    }
  }

  lemma {:induction false} UnderUnique(depts: seq<Department>, parent: Option<int>)
    requires UniqueIds(depts)
    ensures UniqueIds(Under(depts, parent))
    decreases |depts|
  {
    if depts != [] {
      var n := |depts| - 1;
      UnderUnique(depts[..n], parent);
      UnderRows(depts[..n], parent);
      var under := Under(depts[..n], parent);
      forall k | 0 <= k < |under| ensures under[k].id != depts[n].id {
        assert under[k] in depts[..n];
      }
    }
  }

  /** The tree lists exactly `heads`, and below each of them the rows under it, all the way down. */
  ghost predicate Matches(depts: seq<Department>, counts: map<int, int>, heads: seq<Department>, tree: seq<Node>)
    decreases tree
  {
    && |tree| == |heads|
    && forall k | 0 <= k < |tree| ::
      && tree[k].id == heads[k].id && tree[k].name == heads[k].name
      && tree[k].userCount == (if tree[k].id in counts then counts[tree[k].id] else 0)
      && Matches(depts, counts, Under(depts, Some(tree[k].id)), tree[k].children)
  }

  // ----- Paths from a root -----

  ghost predicate HasParent(depts: seq<Department>, id: int, parent: Option<int>) {
    Find(depts, id).Some? && Find(depts, id).value.parent == parent
  }

  /** Ids from a department without parent down, each the parent of the next. */
  ghost predicate RootPath(depts: seq<Department>, path: seq<int>) {
    && |path| > 0
    && HasParent(depts, path[0], None)
    && forall i | 0 < i < |path| :: HasParent(depts, path[i], Some(path[i - 1]))
  }

  function Last(path: seq<int>): int
    requires |path| > 0
  {
    path[|path| - 1]
  }

  /** The department's parent chain reaches a root. */
  ghost predicate Rooted(depts: seq<Department>, id: int) {
    exists path :: RootPath(depts, path) && Last(path) == id
  }

  lemma {:induction false} PathsAgree(depts: seq<Department>, p: seq<int>, q: seq<int>)
    requires RootPath(depts, p) && RootPath(depts, q) && Last(p) == Last(q)
    ensures p == q
    decreases |p|
  {
    var n, m := |p| - 1, |q| - 1;
    if n > 0 { assert HasParent(depts, p[n], Some(p[n - 1])); }
    if m > 0 { assert HasParent(depts, q[m], Some(q[m - 1])); }
    if n > 0 {
      PathsAgree(depts, p[..n], q[..m]);
      assert p == p[..n] + [p[n]] && q == q[..m] + [q[m]];
    }
  }

  lemma PathPrefix(depts: seq<Department>, path: seq<int>, n: nat)
    requires RootPath(depts, path) && 0 < n <= |path|
    ensures RootPath(depts, path[..n])
  {
  }

  /** No department is its own ancestor on a path from a root. */
  lemma PathDistinct(depts: seq<Department>, path: seq<int>)
    requires RootPath(depts, path)
    ensures forall i, j | 0 <= i < j < |path| :: path[i] != path[j]
  {
    forall i, j | 0 <= i < j < |path| ensures path[i] != path[j] {
      PathPrefix(depts, path, i + 1);
      PathPrefix(depts, path, j + 1);
      if path[i] == path[j] { PathsAgree(depts, path[..i + 1], path[..j + 1]); }
    }
  }

  function IdSet(depts: seq<Department>): set<int> { set d | d in depts :: d.id }

  lemma {:induction false} FewIds(depts: seq<Department>)
    ensures |IdSet(depts)| <= |depts|
    decreases |depts|
  {
    if depts != [] {
      var n := |depts| - 1;
      FewIds(depts[..n]);
      assert depts == depts[..n] + [depts[n]];
      assert IdSet(depts) == IdSet(depts[..n]) + {depts[n].id};
    }
  }

  /** Distinct elements of a set are no more than the set has. */
  lemma {:induction false} DistinctFit(s: seq<int>, ids: set<int>)
    requires forall i | 0 <= i < |s| :: s[i] in ids
    requires forall i, j | 0 <= i < j < |s| :: s[i] != s[j]
    ensures |s| <= |ids|
    decreases |s|
  {
    if |s| > 0 {
      var n := |s| - 1;
      DistinctFit(s[..n], ids - {s[n]});
    }
  }

  lemma PathFits(depts: seq<Department>, path: seq<int>)
    requires RootPath(depts, path)
    ensures |path| <= |depts|
  {
    PathDistinct(depts, path);
    forall i | 0 <= i < |path| ensures path[i] in IdSet(depts) {
      if i > 0 { assert HasParent(depts, path[i], Some(path[i - 1])); }
      assert Find(depts, path[i]).value in depts;
    }
    DistinctFit(path, IdSet(depts));
    FewIds(depts);
  }

  lemma PathExtends(depts: seq<Department>, path: seq<int>, d: Department)
    requires UniqueIds(depts) && d in depts
    requires path == [] || RootPath(depts, path)
    requires d.parent == if path == [] then None else Some(Last(path))
    ensures RootPath(depts, path + [d.id])
  {
    FindRow(depts, d);
  }

  /** The recursion of the program. Called for the roots it ends for every table, because the
      ids on the way down form a path. */
  method BuildTree(depts: seq<Department>, parent: Option<int>, counts: map<int, int>, ghost path: seq<int>)
    returns (tree: seq<Node>)
    requires UniqueIds(depts)
    requires path == [] || RootPath(depts, path)
    requires parent == if path == [] then None else Some(Last(path))
    ensures Matches(depts, counts, Under(depts, parent), tree)
    decreases |depts| - |path|
  {
    tree := [];
    if path != [] { PathFits(depts, path); }
    for i := 0 to |depts|
      invariant Matches(depts, counts, Under(depts[..i], parent), tree)
    {
      assert depts[..i + 1][..i] == depts[..i];
      var dept := depts[i];
      if dept.parent == parent {
        PathExtends(depts, path, dept);
        PathFits(depts, path + [dept.id]);
        var children := BuildTree(depts, Some(dept.id), counts, path + [dept.id]);
        var node := Node(dept.id, dept.name, if dept.id in counts then counts[dept.id] else 0, children);
        tree := tree + [node];
      }
    }
    assert depts[..|depts|] == depts;
  }

  method ListTree(depts: seq<Department>, counts: map<int, int>) returns (tree: seq<Node>)
    requires UniqueIds(depts)
    ensures Matches(depts, counts, Under(depts, None), tree)
  {
    tree := BuildTree(depts, None, counts, []);
  }

  // ----- What the tree holds -----

  /** All ids of the tree in the order they are listed. */
  function Ids(tree: seq<Node>): seq<int>
    decreases tree
  {
    if tree == [] then []
    else
      var last := tree[|tree| - 1];
      Ids(tree[..|tree| - 1]) + [last.id] + Ids(last.children)
  }

  ghost predicate Distinct(ids: seq<int>) {
    forall i, j | 0 <= i < j < |ids| :: ids[i] != ids[j]
  }

  /** The department is `path`'s last one or stands below it. */
  ghost predicate Beneath(depts: seq<Department>, path: seq<int>, id: int) {
    exists q :: RootPath(depts, q) && path <= q && Last(q) == id
  }

  ghost predicate BeneathOne(depts: seq<Department>, path: seq<int>, heads: seq<Department>, id: int) {
    exists h :: h in heads && Beneath(depts, path + [h.id], id)
  }

  lemma BelowAChild(depts: seq<Department>, path: seq<int>, id: int)
    requires UniqueIds(depts) && RootPath(depts, path) && Beneath(depts, path, id) && id != Last(path)
    ensures BeneathOne(depts, path, Under(depts, Some(Last(path))), id)
  {
    UnderRows(depts, Some(Last(path)));
    var q :| RootPath(depts, q) && path <= q && Last(q) == id;
    var n := |path|;
    assert |q| == n ==> q == path;
    assert HasParent(depts, q[n], Some(q[n - 1]));
    var h := Find(depts, q[n]).value;
    assert path + [h.id] <= q;
    assert Beneath(depts, path + [h.id], id);
  }

  lemma ChildIsBelow(depts: seq<Department>, path: seq<int>, heads: seq<Department>, id: int)
    requires BeneathOne(depts, path, heads, id)
    ensures Beneath(depts, path, id)
  {
    var h :| h in heads && Beneath(depts, path + [h.id], id);
    var q :| RootPath(depts, q) && path + [h.id] <= q && Last(q) == id;
    assert path <= q;
  }

  lemma BeneathStep(depts: seq<Department>, path: seq<int>, id: int)
    requires UniqueIds(depts) && RootPath(depts, path)
    ensures Beneath(depts, path, id) <==>
            id == Last(path) || BeneathOne(depts, path, Under(depts, Some(Last(path))), id)
  {
    hide Under;
    assert path <= path && Beneath(depts, path, Last(path));
    if Beneath(depts, path, id) && id != Last(path) { BelowAChild(depts, path, id); }
    if BeneathOne(depts, path, Under(depts, Some(Last(path))), id) {
      ChildIsBelow(depts, path, Under(depts, Some(Last(path))), id);
    }
  }

  lemma NotOwnChild(depts: seq<Department>, path: seq<int>)
    requires UniqueIds(depts) && RootPath(depts, path)
    ensures !BeneathOne(depts, path, Under(depts, Some(Last(path))), Last(path))
  {
    forall h | h in Under(depts, Some(Last(path))) ensures !Beneath(depts, path + [h.id], Last(path)) {
      forall q | RootPath(depts, q) && path + [h.id] <= q ensures Last(q) != Last(path) {
        if Last(q) == Last(path) { PathsAgree(depts, q, path); }
      }
    }
  }

  lemma SiblingsApart(depts: seq<Department>, path: seq<int>, g: int, h: int, id: int)
    requires Beneath(depts, path + [g], id) && Beneath(depts, path + [h], id)
    ensures g == h
  {
    var p :| RootPath(depts, p) && path + [g] <= p && Last(p) == id;
    var q :| RootPath(depts, q) && path + [h] <= q && Last(q) == id;
    PathsAgree(depts, p, q);
    assert p[|path|] == g && q[|path|] == h;
  }

  lemma DistinctJoin(a: seq<int>, b: seq<int>)
    requires Distinct(a) && Distinct(b) && forall x | x in a :: x !in b
    ensures Distinct(a + b)
  {
    forall i, j | 0 <= i < j < |a + b| ensures (a + b)[i] != (a + b)[j] {
      if i < |a| <= j { assert a[i] in a && b[j - |a|] in b; }
    }
  }

  /** The ids of the tree over `heads`: exactly the departments beneath one of them, once each. */
  lemma {:induction false} IdsAreBeneath(depts: seq<Department>, counts: map<int, int>, path: seq<int>,
                                         heads: seq<Department>, tree: seq<Node>)
    requires UniqueIds(depts) && UniqueIds(heads) && Matches(depts, counts, heads, tree)
    requires forall h | h in heads :: RootPath(depts, path + [h.id])
    ensures forall id :: id in Ids(tree) <==> BeneathOne(depts, path, heads, id)
    ensures Distinct(Ids(tree))
    decreases tree
  {
    hide Under, RootPath, Beneath;
    if tree != [] {
      var n := |tree| - 1;
      var init, h := heads[..n], heads[n];
      assert heads == init + [h];
      IdsAreBeneath(depts, counts, path, init, tree[..n]);
      var here := path + [h.id];
      var below := Under(depts, Some(h.id));
      UnderRows(depts, Some(h.id));
      UnderUnique(depts, Some(h.id));
      forall d | d in below ensures RootPath(depts, here + [d.id]) { PathExtends(depts, here, d); }
      IdsAreBeneath(depts, counts, here, below, tree[n].children);
      NotOwnChild(depts, here);
      forall id ensures BeneathOne(depts, path, heads, id) <==>
                        BeneathOne(depts, path, init, id) || id == h.id || BeneathOne(depts, here, below, id) {
        BeneathStep(depts, here, id);
        OneMoreHead(depts, path, init, h, id);
      }
      forall id | id in Ids(tree[..n]) ensures id != h.id && id !in Ids(tree[n].children) {
        var g :| g in init && Beneath(depts, path + [g.id], id);
        BeneathStep(depts, here, id);
        if Beneath(depts, here, id) { SiblingsApart(depts, path, g.id, h.id, id); }
      }
      DistinctJoin(Ids(tree[..n]), [h.id]);
      DistinctJoin(Ids(tree[..n]) + [h.id], Ids(tree[n].children));
    }
  }

  lemma OneMoreHead(depts: seq<Department>, path: seq<int>, heads: seq<Department>, h: Department, id: int)
    ensures BeneathOne(depts, path, heads + [h], id) <==>
        BeneathOne(depts, path, heads, id) || Beneath(depts, path + [h.id], id)
  {
    hide Beneath;
    assert h in heads + [h];
    if BeneathOne(depts, path, heads, id) {
      var g :| g in heads && Beneath(depts, path + [g.id], id);
      assert g in heads + [h];
    }
  }

  /** The tree holds exactly the departments whose parent chain reaches a root, each once. */
  lemma TreeHoldsTheRooted(depts: seq<Department>, counts: map<int, int>, tree: seq<Node>)
    requires UniqueIds(depts) && Matches(depts, counts, Under(depts, None), tree)
    ensures forall id :: id in Ids(tree) <==> Rooted(depts, id)
    ensures Distinct(Ids(tree))
  {
    var roots := Under(depts, None);
    UnderRows(depts, None);
    UnderUnique(depts, None);
    forall h | h in roots ensures RootPath(depts, [] + [h.id]) { PathExtends(depts, [], h); }
    IdsAreBeneath(depts, counts, [], roots, tree);
    forall id ensures BeneathOne(depts, [], roots, id) <==> Rooted(depts, id) {
      if Rooted(depts, id) {
        var q :| RootPath(depts, q) && Last(q) == id;
        var h := Find(depts, q[0]).value;
        assert [] + [h.id] <= q;
        assert h in roots && Beneath(depts, [] + [h.id], id);
      }
    }
  }

  // ----- Why a department is missing -----

  /** Where a walk up the parents stands. */
  datatype Place = At(id: int) | Top | Lost

  ghost function Climb(depts: seq<Department>, id: int, n: nat): Place
    decreases n
  {
    if Find(depts, id).None? then Lost
    else if n == 0 then At(id)
    else
      var parent := Find(depts, id).value.parent;
      if parent.None? then Top else Climb(depts, parent.value, n - 1)
  }

  ghost predicate Dangling(depts: seq<Department>, id: int) { exists n: nat :: Climb(depts, id, n) == Lost }

  ghost predicate Returns(depts: seq<Department>, id: int) { exists k: nat :: k > 0 && Climb(depts, id, k) == At(id) }

  ghost predicate Cyclic(depts: seq<Department>, id: int) {
    exists n: nat, x :: Climb(depts, id, n) == At(x) && Returns(depts, x)
  }

  lemma {:induction false} ClimbPath(depts: seq<Department>, path: seq<int>, n: nat)
    requires RootPath(depts, path)
    ensures Climb(depts, Last(path), n) == if n < |path| then At(path[|path| - 1 - n]) else Top
    decreases n
  {
    var m := |path| - 1;
    if m == 0 {
    } else {
      assert HasParent(depts, path[m], Some(path[m - 1]));
      if n > 0 {
        PathPrefix(depts, path, m);
        ClimbPath(depts, path[..m], n - 1);
      }
    }
  }

  lemma {:induction false} TopIsRooted(depts: seq<Department>, id: int, n: nat)
    requires Climb(depts, id, n) == Top
    ensures Rooted(depts, id)
    decreases n
  {
    var parent := Find(depts, id).value.parent;
    if parent.None? {
      assert RootPath(depts, [id]) && Last([id]) == id;
    } else {
      TopIsRooted(depts, parent.value, n - 1);
      var q :| RootPath(depts, q) && Last(q) == parent.value;
      assert RootPath(depts, q + [id]) && Last(q + [id]) == id;
    }
  }

  lemma {:induction false} ClimbOn(depts: seq<Department>, id: int, n: nat, k: nat)
    requires Climb(depts, id, n + k).At?
    ensures Climb(depts, id, n).At? && Climb(depts, id, n + k) == Climb(depts, Climb(depts, id, n).id, k)
    decreases n
  {
    if n > 0 {
      ClimbOn(depts, Find(depts, id).value.parent.value, n - 1, k);
    }
  }

  lemma {:induction false} StandsOnRow(depts: seq<Department>, id: int, n: nat)
    requires Climb(depts, id, n).At?
    ensures Climb(depts, id, n).id in IdSet(depts)
    decreases n
  {
    var d := Find(depts, id).value;
    assert d in depts;
    if n > 0 { StandsOnRow(depts, d.parent.value, n - 1); }
  }

  /** A walk of as many steps as there are departments visits one of them twice. */
  lemma LongWalkReturns(depts: seq<Department>, id: int)
    requires Climb(depts, id, |depts|).At?
    ensures Cyclic(depts, id)
  {
    var n := |depts|;
    var visits := seq(n + 1, i requires 0 <= i <= n => Climb(depts, id, i));
    forall i | 0 <= i <= n ensures visits[i].At? && visits[i].id in IdSet(depts) {
      ClimbOn(depts, id, i, n - i);
      StandsOnRow(depts, id, i);
    }
    var ids := seq(n + 1, i requires 0 <= i <= n => visits[i].id);
    FewIds(depts);
    if Distinct(ids) {
      DistinctFit(ids, IdSet(depts));
    } else {
      var i, j :| 0 <= i < j < |ids| && ids[i] == ids[j];
      var x := ids[i];
      ClimbOn(depts, id, i, j - i);
      assert Climb(depts, id, i) == At(x) && Climb(depts, x, j - i) == At(x);
      assert Returns(depts, x);
    }
  }

  /** A department is missing from the tree exactly when its parents lead to a row that does
      not exist or run in a cycle. */
  lemma MissingIffDanglingOrCyclic(depts: seq<Department>, id: int)
    ensures !Rooted(depts, id) <==> Dangling(depts, id) || Cyclic(depts, id)
  {
    var n := |depts|;
    if Rooted(depts, id) {
      var path :| RootPath(depts, path) && Last(path) == id;
      forall k: nat ensures Climb(depts, id, k) != Lost { ClimbPath(depts, path, k); }
      forall k: nat, x | Climb(depts, id, k) == At(x) ensures !Returns(depts, x) {
        ClimbPath(depts, path, k);
        OnPathNeverReturns(depts, path, |path| - k);
      }
    } else {
      match Climb(depts, id, n) {
        case Top => TopIsRooted(depts, id, n);
        case Lost =>
        case At(_) => LongWalkReturns(depts, id);
      }
    }
  }

  lemma OnPathNeverReturns(depts: seq<Department>, path: seq<int>, n: nat)
    requires RootPath(depts, path) && 0 < n <= |path|
    ensures !Returns(depts, path[n - 1])
  {
    PathPrefix(depts, path, n);
    PathDistinct(depts, path);
    if Returns(depts, path[n - 1]) {
      var k: nat :| k > 0 && Climb(depts, path[n - 1], k) == At(path[n - 1]);
      ClimbPath(depts, path[..n], k);
      assert false;
    }
  }

  /** A walk of |depts| steps decides it. */
  lemma RootedIffTop(depts: seq<Department>, id: int)
    ensures Rooted(depts, id) <==> Climb(depts, id, |depts|) == Top
  {
    if Rooted(depts, id) {
      var path :| RootPath(depts, path) && Last(path) == id;
      PathFits(depts, path);
      ClimbPath(depts, path, |depts|);
    } else if Climb(depts, id, |depts|) == Top {
      TopIsRooted(depts, id, |depts|);
    }
  }

  // ----- Changes to the table -----

  /** A row with the id is there. */
  predicate Known(depts: seq<Department>, id: int) { Find(depts, id).Some? }

  predicate NameTaken(depts: seq<Department>, name: string, except: Option<int>) {
    exists i | 0 <= i < |depts| :: depts[i].name == name && Some(depts[i].id) != except
  }

  /** The table with some fields of one row replaced. */
  function WithFields(depts: seq<Department>, id: int, name: Option<string>, parent: Option<int>): (r: seq<Department>)
    ensures |r| == |depts|
  {
    seq(|depts|, i requires 0 <= i < |depts| =>
      if depts[i].id == id
      then Department(id, name.GetOr(depts[i].name), if parent.Some? then parent else depts[i].parent)
      else depts[i])
  }

  /** Only the row with the id changes, and of it only the fields that are given. */
  lemma FieldsReplaced(depts: seq<Department>, id: int, name: Option<string>, parent: Option<int>, i: nat)
    requires i < |depts|
    ensures var d, e := depts[i], WithFields(depts, id, name, parent)[i];
      && (d.id != id ==> e == d)
      && (d.id == id ==>
            && e.id == d.id
            && (name.None? ==> e.name == d.name) && (name.Some? ==> e.name == name.value)
            && (parent.None? ==> e.parent == d.parent) && (parent.Some? ==> e.parent == parent))
  {
  }

  /** The checks of an update: nothing is asked of the parent but that it exists and is not the
      department itself. */
  predicate MayUpdate(depts: seq<Department>, id: int, name: Option<string>, parent: Option<int>) {
    && Known(depts, id)
    && (name.Some? ==> !NameTaken(depts, name.value, Some(id)))
    && (parent.Some? ==> parent.value != id && Known(depts, parent.value))
  }

  lemma MayUpdateMeans(depts: seq<Department>, id: int, name: Option<string>, parent: Option<int>)
    ensures MayUpdate(depts, id, name, parent) <==>
            && (exists d :: d in depts && d.id == id)
            && (name.Some? ==> forall d | d in depts && d.id != id :: d.name != name.value)
            && (parent.Some? ==> parent.value != id && exists d :: d in depts && d.id == parent.value)
    ensures forall s :: NameTaken(depts, s, None) <==> exists d :: d in depts && d.name == s
  {
    forall x ensures Known(depts, x) <==> exists d :: d in depts && d.id == x {
      if Known(depts, x) { assert Find(depts, x).value in depts; }
    }
    forall s, e ensures NameTaken(depts, s, e) <==> exists d :: d in depts && d.name == s && Some(d.id) != e {
      if d :| d in depts && d.name == s && Some(d.id) != e {
        var i :| 0 <= i < |depts| && depts[i] == d;
      }
    }
  }

  /** Every department is shown in the tree. */
  ghost predicate Forest(depts: seq<Department>) { forall d | d in depts :: Rooted(depts, d.id) }

  /** The stored rows, in the order of their ids. */
  class DepartmentStore {
    var depts: seq<Department>

    ghost predicate Valid()
      reads this
    {
      forall i, j | 0 <= i < j < |depts| :: depts[i].id < depts[j].id
    }

    constructor ()
      ensures Valid() && depts == []
    {
      depts := [];
    }

    /** The database hands out ids that are larger than every earlier one. */
    method Create(name: string, parent: Option<int>, newId: int) returns (r: Result<Department, string>)
      requires Valid() && forall d | d in depts :: d.id < newId
      modifies this
      ensures Valid()
      ensures r.Ok? <==> !NameTaken(old(depts), name, None) && (parent.Some? ==> Known(old(depts), parent.value))
      ensures depts == if r.Ok? then old(depts) + [Department(newId, name, parent)] else old(depts)
    {
      if NameTaken(depts, name, None) { return Err("department name already exists"); }
      if parent.Some? && Find(depts, parent.value).None? { return Err("parent department not found"); }
      var dept := Department(newId, name, parent);
      depts := depts + [dept];
      return Ok(dept);
    }

    /** Only the department itself is refused as its own parent; the database refuses a
        parent that does not exist. A parent cannot be removed, only replaced. */
    method Update(id: int, name: Option<string>, parent: Option<int>) returns (r: Result<(), string>)
      requires Valid()
      modifies this
      ensures Valid()
      ensures r.Ok? <==> MayUpdate(old(depts), id, name, parent)
      ensures depts == if r.Ok? then WithFields(old(depts), id, name, parent) else old(depts)
    {
      if Find(depts, id).None? { return Err("department not found"); }
      if name.Some? && NameTaken(depts, name.value, Some(id)) { return Err("department name already exists"); }
      if parent.Some? {
        if parent.value == id { return Err("cannot set self as parent department"); }
        if Find(depts, parent.value).None? { return Err("database error"); }
      }
      if name.None? && parent.None? {
        assert WithFields(depts, id, name, parent) == depts;
        return Ok(());
      }
      depts := WithFields(depts, id, name, parent);
      return Ok(());
    }

    method Delete(id: int, users: nat) returns (r: Result<(), string>)
      requires Valid()
      modifies this
      ensures Valid()
      ensures r.Ok? <==> Known(old(depts), id) && users == 0 && Under(old(depts), Some(id)) == []
      ensures if r.Ok? then
                exists k | 0 <= k < |old(depts)| ::
                  old(depts)[k].id == id && depts == old(depts)[..k] + old(depts)[k + 1..]
              else depts == old(depts)
    {
      if Find(depts, id).None? { return Err("department not found"); }
      if users > 0 { return Err("department has users"); }
      if Under(depts, Some(id)) != [] { return Err("cannot delete department with sub-departments"); }
      var k := 0;
      while depts[k].id != id
        invariant 0 <= k < |depts|
        invariant forall j | 0 <= j < k :: depts[j].id != id
        decreases |depts| - k
      {
        assert Find(depts, id).value in depts[k..];
        k := k + 1;
      }
      depts := depts[..k] + depts[k + 1..];
      return Ok(());
    }
  }

  lemma UpdatedRow(depts: seq<Department>, id: int, name: Option<string>, parent: Option<int>, x: int)
    requires UniqueIds(depts)
    ensures UniqueIds(WithFields(depts, id, name, parent))
    ensures var after := WithFields(depts, id, name, parent);
      && (Find(after, x).Some? <==> Find(depts, x).Some?)
      && (Find(depts, x).Some? ==>
            Find(after, x).value.parent == if x == id && parent.Some? then parent else Find(depts, x).value.parent)
  {
    var after := WithFields(depts, id, name, parent);
    forall i | 0 <= i < |depts| ensures after[i].id == depts[i].id { }
    if Find(depts, x).Some? {
      var i :| 0 <= i < |depts| && depts[i] == Find(depts, x).value;
      assert after[i] in after && after[i].id == x;
      FindRow(after, after[i]);
    } else {
      forall a | a in after ensures a.id != x {
        var i :| 0 <= i < |after| && after[i] == a;
        assert depts[i] in depts;
      }
    }
  }

  /** A path that avoids the changed department is one before and after the change. */
  lemma OtherPaths(depts: seq<Department>, id: int, name: Option<string>, parent: Option<int>, path: seq<int>)
    requires UniqueIds(depts) && id !in path
    ensures RootPath(WithFields(depts, id, name, parent), path) <==> RootPath(depts, path)
  {
    hide Find, WithFields;
    var after := WithFields(depts, id, name, parent);
    forall x, p | x in path ensures HasParent(after, x, p) <==> HasParent(depts, x, p) {
      UpdatedRow(depts, id, name, parent, x);
    }
  }

  /** Department `x` is department `id` or stands below it. */
  ghost predicate AtOrBelow(depts: seq<Department>, id: int, x: int) {
    exists path :: RootPath(depts, path) && Last(path) == x && id in path
  }

  lemma RootedAfter(depts: seq<Department>, id: int, name: Option<string>, parent: int, x: int)
    requires UniqueIds(depts) && Known(depts, id) && Rooted(depts, parent) && Rooted(depts, x)
    requires !AtOrBelow(depts, id, parent)
    ensures Rooted(WithFields(depts, id, name, Some(parent)), x)
  {
    hide Find, WithFields;
    var after := WithFields(depts, id, name, Some(parent));
    var p :| RootPath(depts, p) && Last(p) == parent;
    var q :| RootPath(depts, q) && Last(q) == x;
    OtherPaths(depts, id, name, Some(parent), p);
    if id !in q {
      OtherPaths(depts, id, name, Some(parent), q);
    } else {
      var k :| 0 <= k < |q| && q[k] == id;
      PathDistinct(depts, q);
      var moved := p + q[k..];
      forall i | 0 < i < |moved| ensures HasParent(after, moved[i], Some(moved[i - 1])) {
        UpdatedRow(depts, id, name, Some(parent), moved[i]);
        if i > |p| { assert HasParent(depts, q[k + i - |p|], Some(q[k + i - |p| - 1])); }
      }
      assert RootPath(after, moved) && Last(moved) == x;
    }
  }

  lemma CycleUnroots(depts: seq<Department>, id: int, name: Option<string>, parent: int)
    requires UniqueIds(depts) && Known(depts, id) && AtOrBelow(depts, id, parent)
    ensures !Rooted(WithFields(depts, id, name, Some(parent)), id)
  {
    hide Find, WithFields;
    var after := WithFields(depts, id, name, Some(parent));
    var p :| RootPath(depts, p) && Last(p) == parent && id in p;
    forall q | RootPath(after, q) && Last(q) == id ensures false {
      UpdatedRow(depts, id, name, Some(parent), id);
      UpdatedRow(depts, id, name, Some(parent), parent);
      var n := |q| - 1;
      PathDistinct(after, q);
      assert n > 0;
      assert HasParent(after, q[n], Some(q[n - 1]));
      PathPrefix(after, q, n);
      assert id !in q[..n];
      OtherPaths(depts, id, name, Some(parent), q[..n]);
      PathsAgree(depts, p, q[..n]);
    }
  }

  /** A new parent keeps every department in the tree exactly when it is not below the
      department that is moved. The program checks this only for the department itself. */
  lemma UpdateKeepsForestIff(depts: seq<Department>, id: int, name: Option<string>, parent: int)
    requires UniqueIds(depts) && Forest(depts) && Known(depts, id) && Known(depts, parent)
    ensures Forest(WithFields(depts, id, name, Some(parent))) <==> !AtOrBelow(depts, id, parent)
  {
    hide Rooted, AtOrBelow;
    var after := WithFields(depts, id, name, Some(parent));
    var row := Find(depts, id).value;
    if AtOrBelow(depts, id, parent) {
      CycleUnroots(depts, id, name, parent);
      UpdatedRow(depts, id, name, Some(parent), id);
      assert Find(after, id).value in after;
    } else {
      assert Find(depts, parent).value in depts;
      forall d | d in after ensures Rooted(after, d.id) {
        UpdatedRow(depts, id, name, Some(parent), d.id);
        assert Find(depts, d.id).value in depts;
        RootedAfter(depts, id, name, parent, d.id);
      }
    }
  }

  /** What is missing after a department was moved below itself, in every table: it and
      whatever stood below it, nothing else. */
  lemma MissingAfterCycle(depts: seq<Department>, id: int, name: Option<string>, parent: int, x: int)
    requires UniqueIds(depts) && Known(depts, id) && AtOrBelow(depts, id, parent)
    ensures Rooted(WithFields(depts, id, name, Some(parent)), x) <==> Rooted(depts, x) && !AtOrBelow(depts, id, x)
  {
    hide Find, WithFields;
    var after := WithFields(depts, id, name, Some(parent));
    CycleUnroots(depts, id, name, parent);
    forall q | RootPath(after, q) && Last(q) == x ensures RootPath(depts, q) && id !in q {
      forall k | 0 <= k < |q| ensures q[k] != id {
        PathPrefix(after, q, k + 1);
        assert Last(q[..k + 1]) == q[k];
      }
      OtherPaths(depts, id, name, Some(parent), q);
    }
    if Rooted(after, x) && AtOrBelow(depts, id, x) {
      var q :| RootPath(after, q) && Last(q) == x;
      var p :| RootPath(depts, p) && Last(p) == x && id in p;
      PathsAgree(depts, p, q);
    }
    if Rooted(depts, x) && !AtOrBelow(depts, id, x) {
      var q :| RootPath(depts, q) && Last(q) == x;
      OtherPaths(depts, id, name, Some(parent), q);
    }
  }

  /** A root is moved under its own child, which the update allows: both disappear. */
  lemma CycleExample()
    ensures var before := [Department(1, "Head office", None), Department(2, "Research", Some(1))];
      var after := WithFields(before, 1, None, Some(2));
      && Forest(before) && MayUpdate(before, 1, None, Some(2))
      && after == [Department(1, "Head office", Some(2)), Department(2, "Research", Some(1))]
      && forall id :: !Rooted(after, id)
  {
    var before := [Department(1, "Head office", None), Department(2, "Research", Some(1))];
    var after := WithFields(before, 1, None, Some(2));
    assert after == [Department(1, "Head office", Some(2)), Department(2, "Research", Some(1))];
    hide WithFields, Find, Rooted, Forest, MayUpdate;
    FirstUnderSecond(before);
    TwoInAForest(before);
    TwoInACycle(after);
  }

  lemma FirstUnderSecond(depts: seq<Department>)
    requires |depts| == 2 && depts[0].id == 1 && depts[1].id == 2
    ensures MayUpdate(depts, 1, None, Some(2))
  {
    TwoRows(depts);
  }

  lemma TwoInAForest(depts: seq<Department>)
    requires |depts| == 2 && depts[0].id == 1 && depts[1].id == 2
    requires depts[0].parent == None && depts[1].parent == Some(1)
    ensures Forest(depts)
  {
    TwoRows(depts);
    hide Find;
    assert RootPath(depts, [1]) && Last([1]) == 1;
    assert RootPath(depts, [1, 2]) && Last([1, 2]) == 2;
  }

  lemma TwoInACycle(depts: seq<Department>)
    requires |depts| == 2 && depts[0].id == 1 && depts[1].id == 2
    requires depts[0].parent == Some(2) && depts[1].parent == Some(1)
    ensures forall id :: !Rooted(depts, id)
  {
    TwoRows(depts);
    hide Find;
    forall path ensures !RootPath(depts, path) {
    }
  }

  lemma TwoRows(depts: seq<Department>)
    requires |depts| == 2 && depts[0].id == 1 && depts[1].id == 2
    ensures Find(depts, 1) == Some(depts[0]) && Find(depts, 2) == Some(depts[1])
    ensures forall x | x != 1 && x != 2 :: Find(depts, x).None?
  {
    FindRow(depts, depts[0]);
    FindRow(depts, depts[1]);
  }

  lemma FindSnoc(depts: seq<Department>, d: Department, x: int)
    ensures Find(depts + [d], x) == if x == d.id then Some(d) else Find(depts, x)
  {
    assert (depts + [d])[..|depts|] == depts;
  }

  /** The checks of creation and deletion are enough. */
  lemma CreateKeepsForest(depts: seq<Department>, d: Department)
    requires Forest(depts) && !Known(depts, d.id)
    requires d.parent.Some? ==> Known(depts, d.parent.value)
    ensures Forest(depts + [d])
  {
    hide Find;
    var after := depts + [d];
    forall x ensures Find(after, x) == if x == d.id then Some(d) else Find(depts, x) { FindSnoc(depts, d, x); }
    forall e | e in depts ensures Rooted(after, e.id) {
      var path :| RootPath(depts, path) && Last(path) == e.id;
      PathSurvives(depts, after, path, d.id);
    }
    NewIsRooted(depts, d, after);
  }

  lemma NewIsRooted(depts: seq<Department>, d: Department, after: seq<Department>)
    requires Forest(depts) && !Known(depts, d.id)
    requires d.parent.Some? ==> Known(depts, d.parent.value)
    requires forall x :: Find(after, x) == if x == d.id then Some(d) else Find(depts, x)
    ensures Rooted(after, d.id)
  {
    hide Find;
    if d.parent.None? {
      assert RootPath(after, [d.id]) && Last([d.id]) == d.id;
    } else {
      var p := d.parent.value;
      assert Find(depts, p).value in depts;
      var path :| RootPath(depts, path) && Last(path) == p;
      PathSurvives(depts, after, path, d.id);
      assert RootPath(after, path + [d.id]) && Last(path + [d.id]) == d.id;
    }
  }

  /** A path stays one when a row it does not use is added or removed. */
  lemma PathSurvives(depts: seq<Department>, after: seq<Department>, path: seq<int>, id: int)
    requires RootPath(depts, path) && (id !in path || Find(depts, id).None?)
    requires forall x | x != id :: Find(after, x) == Find(depts, x)
    ensures RootPath(after, path)
  {
    forall i | 0 <= i < |path| ensures path[i] != id {
      if i > 0 { assert HasParent(depts, path[i], Some(path[i - 1])); }
    }
    forall i | 0 < i < |path| ensures HasParent(after, path[i], Some(path[i - 1])) {
      assert HasParent(depts, path[i], Some(path[i - 1]));
    }
  }

  lemma LeafOffPath(depts: seq<Department>, id: int, path: seq<int>)
    requires Under(depts, Some(id)) == [] && RootPath(depts, path) && Last(path) != id
    ensures id !in path
  {
    UnderRows(depts, Some(id));
    forall i | 0 <= i < |path| ensures path[i] != id {
      if i + 1 < |path| {
        assert HasParent(depts, path[i + 1], Some(path[i]));
        var row := Find(depts, path[i + 1]).value;
        assert row in Under(depts, Some(id)) <==> row.parent == Some(id);
      }
    }
  }

  lemma WithoutRow(depts: seq<Department>, k: nat, x: int)
    requires UniqueIds(depts) && k < |depts|
    ensures x != depts[k].id ==> Find(depts[..k] + depts[k + 1..], x) == Find(depts, x)
  {
    var after := depts[..k] + depts[k + 1..];
    forall d | d in after ensures d in depts { }
    if x != depts[k].id {
      var found := Find(depts, x);
      if found.Some? {
        var i :| 0 <= i < |depts| && depts[i] == found.value;
        assert found.value == after[if i < k then i else i - 1];
        FindRow(after, found.value);
      }
    }
  }

  lemma DeleteKeepsForest(depts: seq<Department>, k: nat)
    requires UniqueIds(depts) && Forest(depts) && k < |depts| && Under(depts, Some(depts[k].id)) == []
    ensures Forest(depts[..k] + depts[k + 1..])
  {
    hide Find, Under;
    var after := depts[..k] + depts[k + 1..];
    var id := depts[k].id;
    forall x | x != id ensures Find(after, x) == Find(depts, x) { WithoutRow(depts, k, x); }
    forall e | e in after ensures Rooted(after, e.id) {
      assert e in depts && e.id != id;
      var path :| RootPath(depts, path) && Last(path) == e.id;
      LeafOffPath(depts, id, path);
      PathSurvives(depts, after, path, id);
    }
  }
}
