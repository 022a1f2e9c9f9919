// The boot-menu folder forest: parent pointers, depths, listings and walks.

module BootMenuForest {
  import opened Text

  const MAX_DEPTH: nat := 8

  // parent 0: a root folder.
  datatype Folder = Folder(name: string, parent: nat, sort: int)

  type Folders = map<nat, Folder>

  // ---- depth

  // The folder reaches a root in at most n parent steps.
  predicate Within(fs: Folders, id: nat, n: nat)
    decreases n
  {
    id in fs && (fs[id].parent == 0 || (n > 0 && Within(fs, fs[id].parent, n - 1)))
  }

  // No folder is nested deeper than the limit allows; in particular there is no cycle and no dangling parent.
  predicate Forest(fs: Folders) {
    0 !in fs && forall id | id in fs :: Within(fs, id, MAX_DEPTH - 1)
  }

  function DepthWithin(fs: Folders, id: nat, n: nat): (d: nat)
    requires Within(fs, id, n)
    ensures d <= n
    decreases n
  {
    if fs[id].parent == 0 then 0 else 1 + DepthWithin(fs, fs[id].parent, n - 1)
  }

  function Depth(fs: Folders, id: nat): (d: nat)
    requires Forest(fs) && id in fs
    ensures d < MAX_DEPTH
  {
    DepthWithin(fs, id, MAX_DEPTH - 1)
  }

  lemma {:induction false} DepthAnyBound(fs: Folders, id: nat, n: nat, k: nat)
    requires Within(fs, id, n) && Within(fs, id, k)
    ensures DepthWithin(fs, id, n) == DepthWithin(fs, id, k)
    decreases n
  {
    if fs[id].parent != 0 { DepthAnyBound(fs, fs[id].parent, n - 1, k - 1); }
  }

  // A folder is one deeper than its parent.
  lemma DepthStep(fs: Folders, id: nat)
    requires Forest(fs) && id in fs
    ensures fs[id].parent == 0 ==> Depth(fs, id) == 0
    ensures fs[id].parent != 0 ==> fs[id].parent in fs && Depth(fs, id) == Depth(fs, fs[id].parent) + 1
  {
    if fs[id].parent != 0 {
      assert Within(fs, id, MAX_DEPTH - 1);
      DepthAnyBound(fs, fs[id].parent, MAX_DEPTH - 2, MAX_DEPTH - 1);
    }
  }

  // Depths read off any map that counts parent steps.
  lemma {:induction false} WithinByCount(fs: Folders, depth: map<nat, nat>, id: nat)
    requires id in fs && fs.Keys <= depth.Keys
    requires forall x | x in fs ::
      if fs[x].parent == 0 then depth[x] == 0 else fs[x].parent in fs && depth[x] == depth[fs[x].parent] + 1
    ensures forall n: nat :: Within(fs, id, n) <==> depth[id] <= n
    decreases depth[id]
  {
    if fs[id].parent != 0 {
      var p := fs[id].parent;
      WithinByCount(fs, depth, p);
      forall n: nat ensures Within(fs, id, n) <==> depth[id] <= n {
        if n > 0 { assert Within(fs, p, n - 1) <==> depth[p] <= n - 1; }
      }
    }
  }

  // ---- ancestors

  // x lies strictly below id.
  predicate Below(fs: Folders, x: nat, id: nat)
    requires Forest(fs) && x in fs
    decreases Depth(fs, x)
  {
    DepthStep(fs, x);
    var p := fs[x].parent;
    p != 0 && (p == id || Below(fs, p, id))
  }

  predicate SelfOrBelow(fs: Folders, x: nat, id: nat)
    requires Forest(fs) && x in fs
  {
    x == id || Below(fs, x, id)
  }

  // n parent steps through stored rows lead from x to id; rows need not form a forest.
  predicate Climbs(fs: Folders, x: nat, id: nat, n: nat)
    decreases n
  {
    x in fs && (if n == 0 then x == id else fs[x].parent != 0 && Climbs(fs, fs[x].parent, id, n - 1))
  }

  ghost predicate Reaches(fs: Folders, x: nat, id: nat) {
    exists n: nat :: Climbs(fs, x, id, n)
  }

  lemma {:induction false} ClimbOn(fs: Folders, x: nat, y: nat, n: nat)
    requires Climbs(fs, x, y, n) && y in fs && fs[y].parent != 0 && fs[y].parent in fs
    ensures Climbs(fs, x, fs[y].parent, n + 1)
    decreases n
  {
    if n > 0 { ClimbOn(fs, fs[x].parent, y, n - 1); }
  }

  // Rows that lead nowhere else do not lead to a row outside them.
  lemma {:induction false} ClosedNeverReaches(fs: Folders, rows: set<nat>, x: nat, id: nat, n: nat)
    requires id !in rows && x in rows && forall r | r in rows ::
      r in fs && (fs[r].parent == 0 || fs[r].parent !in fs || fs[r].parent in rows)
    ensures !Climbs(fs, x, id, n)
    decreases n
  {
    if n > 0 && fs[x].parent != 0 && fs[x].parent in fs { ClosedNeverReaches(fs, rows, fs[x].parent, id, n - 1); }
  }

  // On a forest, climbing from x to id is being id or below it.
  lemma {:induction false} ClimbsAre(fs: Folders, x: nat, id: nat)
    requires Forest(fs) && x in fs && id != 0
    ensures Reaches(fs, x, id) <==> SelfOrBelow(fs, x, id)
    decreases Depth(fs, x)
  {
    DepthStep(fs, x);
    if x == id {
      assert Climbs(fs, x, id, 0);
    } else if fs[x].parent != 0 {
      ClimbsAre(fs, fs[x].parent, id);
      if n: nat :| Climbs(fs, fs[x].parent, id, n) { assert Climbs(fs, x, id, n + 1); }
      if n: nat :| Climbs(fs, x, id, n) { assert Climbs(fs, fs[x].parent, id, n - 1); }
    }
  }

  lemma {:induction false} BelowDeeper(fs: Folders, x: nat, id: nat)
    requires Forest(fs) && x in fs && Below(fs, x, id)
    ensures id in fs && Depth(fs, x) > Depth(fs, id)
    decreases Depth(fs, x)
  {
    DepthStep(fs, x);
    if fs[x].parent != id { BelowDeeper(fs, fs[x].parent, id); }
  }

  lemma {:induction false} BelowTransitive(fs: Folders, x: nat, y: nat, z: nat)
    requires Forest(fs) && x in fs && y in fs && Below(fs, x, y) && Below(fs, y, z)
    ensures Below(fs, x, z)
    decreases Depth(fs, x)
  {
    DepthStep(fs, x);
    if fs[x].parent != y { BelowTransitive(fs, fs[x].parent, y, z); }
  }

  // Everything below a folder is a child of it or below one of its children.
  lemma {:induction false} BelowByChild(fs: Folders, x: nat, id: nat) returns (c: nat)
    requires Forest(fs) && x in fs && Below(fs, x, id)
    ensures c in fs && fs[c].parent == id && SelfOrBelow(fs, x, c)
    decreases Depth(fs, x)
  {
    DepthStep(fs, x);
    if fs[x].parent == id {
      c := x;
    } else {
      c := BelowByChild(fs, fs[x].parent, id);
    }
  }

  lemma ChildBelow(fs: Folders, x: nat, c: nat, id: nat)
    requires Forest(fs) && x in fs && c in fs && id != 0 && fs[c].parent == id && SelfOrBelow(fs, x, c)
    ensures Below(fs, x, id)
  {
    DepthStep(fs, c);
    if x != c { BelowTransitive(fs, x, c, id); }
  }

  // Two ancestors at one depth are the same folder.
  lemma {:induction false} AncestorAtDepth(fs: Folders, x: nat, a: nat, b: nat)
    requires Forest(fs) && x in fs && a in fs && b in fs && SelfOrBelow(fs, x, a) && SelfOrBelow(fs, x, b)
    requires Depth(fs, a) == Depth(fs, b)
    ensures a == b
    decreases Depth(fs, x)
  {
    if x != a && x != b {
      DepthStep(fs, x);
      AncestorAtDepth(fs, fs[x].parent, a, b);
    } else if x == a && x != b {
      BelowDeeper(fs, x, b);
    } else if x != a {
      BelowDeeper(fs, x, a);
    }
  }

  // ---- listings

  predicate Before(fs: Folders, a: nat, b: nat)
    requires a in fs && b in fs
  {
    fs[a].sort < fs[b].sort || (fs[a].sort == fs[b].sort && a <= b)
  }

  lemma {:induction false} LeastExists(fs: Folders, ids: set<nat>) returns (m: nat)
    requires ids != {} && ids <= fs.Keys
    ensures m in ids && forall x | x in ids :: Before(fs, m, x)
    decreases |ids|
  {
    var a :| a in ids;
    if ids == {a} {
      m := a;
    } else {
      var rest := ids - {a};
      var l := LeastExists(fs, rest);
      m := if Before(fs, a, l) then a else l;
      forall x | x in ids ensures Before(fs, m, x) {
        if x != a { assert x in rest && Before(fs, l, x); }
      }
    }
  }

  function Least(fs: Folders, ids: set<nat>): (m: nat)
    requires ids != {} && ids <= fs.Keys
    ensures m in ids && forall x | x in ids :: Before(fs, m, x)
  {
    assert exists m :: m in ids && forall x | x in ids :: Before(fs, m, x) by { var m := LeastExists(fs, ids); }
    var m :| m in ids && forall x | x in ids :: Before(fs, m, x);
    m
  }

  // ORDER BY sort_order, id
  function Ordered(fs: Folders, ids: set<nat>): (r: seq<nat>)
    requires ids <= fs.Keys
    ensures forall x :: x in r <==> x in ids
    decreases |ids|
  {
    if ids == {} then [] else
    var m := Least(fs, ids);
    [m] + Ordered(fs, ids - {m})
  }

  predicate Increasing(fs: Folders, rows: seq<nat>)
    requires forall x | x in rows :: x in fs
  {
    forall i, j | 0 <= i < j < |rows| :: rows[i] != rows[j] && Before(fs, rows[i], rows[j])
  }

  lemma {:induction false} OrderedIncreasing(fs: Folders, ids: set<nat>)
    requires ids <= fs.Keys
    ensures Increasing(fs, Ordered(fs, ids))
    decreases |ids|
  {
    if ids != {} {
      var m := Least(fs, ids);
      OrderedIncreasing(fs, ids - {m});
      var rest := Ordered(fs, ids - {m});
      forall j | 0 <= j < |rest| ensures rest[j] != m && Before(fs, m, rest[j]) { assert rest[j] in rest; }
    }
  }

  // An increasing listing starts with the least row.
  lemma StartsWithLeast(fs: Folders, ids: set<nat>, rows: seq<nat>)
    requires ids <= fs.Keys && rows != [] && forall x :: x in rows <==> x in ids
    requires Increasing(fs, rows)
    ensures ids != {} && rows[0] == Least(fs, ids)
  {
    assert rows[0] in ids;
    var m := Least(fs, ids);
    assert m in rows;
    var k :| 0 <= k < |rows| && rows[k] == m;
    assert Before(fs, m, rows[0]);
    assert k == 0;
  }

  lemma TailRows(rows: seq<nat>, ids: set<nat>)
    requires rows != [] && (forall x :: x in rows <==> x in ids) && forall j | 0 < j < |rows| :: rows[j] != rows[0]
    ensures forall x :: x in rows[1..] <==> x in ids - {rows[0]}
  {
    forall x ensures x in rows[1..] <==> x in ids - {rows[0]} {
      if x in rows[1..] { var j :| 0 <= j < |rows[1..]| && rows[1..][j] == x; assert rows[j + 1] == x; }
      if x in ids - {rows[0]} { var j :| 0 <= j < |rows| && rows[j] == x; assert rows[1..][j - 1] == x; }
    }
  }

  // The listing is the only increasing sequence of its rows.
  lemma {:induction false} OrderedUnique(fs: Folders, ids: set<nat>, rows: seq<nat>)
    requires ids <= fs.Keys && forall x :: x in rows <==> x in ids
    requires Increasing(fs, rows)
    ensures rows == Ordered(fs, ids)
    decreases |ids|
  {
    hide Before, Least;
    if rows == [] {
      assert forall x | x in ids :: x in rows;
    } else {
      StartsWithLeast(fs, ids, rows);
      TailRows(rows, ids);
      assert rows[0] in rows && |ids - {rows[0]}| < |ids|;
      assert rows[1..] == Ordered(fs, ids - {rows[0]}) by { OrderedUnique(fs, ids - {rows[0]}, rows[1..]); }
      assert rows == [rows[0]] + rows[1..];
    }
  }

  function Kids(fs: Folders, parent: nat): set<nat> {
    set c | c in fs && fs[c].parent == parent
  }

  // list_child_folders
  function Children(fs: Folders, parent: nat): (r: seq<nat>)
    ensures forall x :: x in r <==> x in fs && fs[x].parent == parent
  {
    Ordered(fs, Kids(fs, parent))
  }

  // ---- how deep a subtree reaches

  function Max(a: nat, b: nat): nat {
    if a < b then b else a
  }

  // The levels below a folder.
  function Extra(fs: Folders, id: nat): nat
    requires Forest(fs) && id in fs
    decreases MAX_DEPTH - Depth(fs, id), 1, 0
  {
    var kids := Children(fs, id);
    if kids == [] then 0 else 1 + Deepest(fs, id, kids)
  }

  function Deepest(fs: Folders, id: nat, kids: seq<nat>): nat
    requires Forest(fs) && id in fs && forall c | c in kids :: c in fs && fs[c].parent == id
    decreases MAX_DEPTH - Depth(fs, id), 0, |kids|
  {
    if kids == [] then 0 else
    assert kids[0] in kids;
    DepthStep(fs, kids[0]);
    Max(Extra(fs, kids[0]), Deepest(fs, id, kids[1..]))
  }

  // The levels below a folder bound the depth of everything below it, and some folder reaches the bound.
  lemma {:induction false} ExtraBounds(fs: Folders, id: nat, x: nat)
    requires Forest(fs) && id in fs && x in fs && SelfOrBelow(fs, x, id)
    ensures Depth(fs, x) <= Depth(fs, id) + Extra(fs, id)
    decreases MAX_DEPTH - Depth(fs, id)
  {
    if x != id {
      var c := BelowByChild(fs, x, id);
      DepthStep(fs, c);
      ExtraBounds(fs, c, x);
      DeepestIs(fs, id, Children(fs, id), c);
    }
  }

  lemma {:induction false} DeepestIs(fs: Folders, id: nat, kids: seq<nat>, c: nat)
    requires Forest(fs) && id in fs && forall k | k in kids :: k in fs && fs[k].parent == id
    requires c in kids
    ensures Extra(fs, c) <= Deepest(fs, id, kids)
    decreases |kids|
  {
    if kids[0] != c {
      assert c in kids[1..];
      DeepestIs(fs, id, kids[1..], c);
    }
  }

  lemma {:induction false} ExtraReached(fs: Folders, id: nat) returns (x: nat)
    requires Forest(fs) && id in fs
    ensures x in fs && SelfOrBelow(fs, x, id) && Depth(fs, x) == Depth(fs, id) + Extra(fs, id)
    decreases MAX_DEPTH - Depth(fs, id), 1, 0
  {
    var kids := Children(fs, id);
    if kids == [] {
      x := id;
    } else {
      x := DeepestReached(fs, id, kids);
    }
  }

  lemma {:induction false} DeepestReached(fs: Folders, id: nat, kids: seq<nat>) returns (x: nat)
    requires Forest(fs) && id in fs && kids != [] && forall k | k in kids :: k in fs && fs[k].parent == id
    ensures x in fs && Below(fs, x, id) && Depth(fs, x) == Depth(fs, id) + 1 + Deepest(fs, id, kids)
    decreases MAX_DEPTH - Depth(fs, id), 0, |kids|
  {
    assert kids[0] in kids;
    DepthStep(fs, kids[0]);
    x := ExtraReached(fs, kids[0]);
    ChildBelow(fs, x, kids[0], id);
    if |kids| > 1 {
      var y := DeepestReached(fs, id, kids[1..]);
      if Depth(fs, x) < Depth(fs, y) { x := y; }
    } else {
      assert kids[1..] == [];
    }
  }

  // ---- moving a folder

  // The depths after id hangs below parent, counted in the old forest.
  function MovedDepth(fs: Folders, id: nat, parent: nat, x: nat): int
    requires Forest(fs) && id in fs && x in fs && (parent != 0 ==> parent in fs)
  {
    var top := if parent == 0 then 0 else Depth(fs, parent) + 1;
    if SelfOrBelow(fs, x, id) then top + Depth(fs, x) - Depth(fs, id) else Depth(fs, x)
  }

  // Hanging a folder elsewhere keeps the forest exactly when the new parent is not inside it and the subtree fits.
  lemma MoveKeepsForest(fs: Folders, id: nat, moved: Folder)
    requires Forest(fs) && id in fs && (moved.parent != 0 ==> moved.parent in fs)
    ensures Forest(fs[id := moved]) <==>
      moved.parent == 0
        || (!SelfOrBelow(fs, moved.parent, id) && Depth(fs, moved.parent) + 1 + Extra(fs, id) < MAX_DEPTH)
  {
    var p, after := moved.parent, fs[id := moved];
    if p != 0 && SelfOrBelow(fs, p, id) {
      if Forest(after) {
        DepthStep(after, id);
        CycleClimbs(fs, after, id, p);
        assert false;
      }
    } else {
      MovedForest(fs, id, moved);
    }
  }

  // Inside the moved subtree the new forest would be as deep as the folder itself.
  lemma {:induction false} CycleClimbs(fs: Folders, after: Folders, id: nat, x: nat)
    requires Forest(fs) && Forest(after) && id in fs && after.Keys == fs.Keys
    requires forall y | y in fs && y != id :: after[y].parent == fs[y].parent
    requires x in fs && SelfOrBelow(fs, x, id)
    ensures Depth(after, x) >= Depth(after, id)
    decreases Depth(fs, x)
  {
    if x != id {
      DepthStep(fs, x);
      DepthStep(after, x);
      CycleClimbs(fs, after, id, fs[x].parent);
    }
  }

  lemma MovedForest(fs: Folders, id: nat, moved: Folder)
    requires Forest(fs) && id in fs
    requires moved.parent != 0 ==> moved.parent in fs && !SelfOrBelow(fs, moved.parent, id)
    ensures Forest(fs[id := moved]) <==> (moved.parent == 0 || Depth(fs, moved.parent) + 1 + Extra(fs, id) < MAX_DEPTH)
  {
    var after, p := fs[id := moved], moved.parent;
    forall x | x in fs
      ensures MovedDepth(fs, id, p, x) >= 0 { if SelfOrBelow(fs, x, id) && x != id { BelowDeeper(fs, x, id); } }
    var depth: map<nat, nat> := map x | x in fs :: MovedDepth(fs, id, p, x);
    forall x | x in after
      ensures if after[x].parent == 0 then depth[x] == 0
        else after[x].parent in after && depth[x] == depth[after[x].parent] + 1
    {
      DepthStep(fs, x);
    }
    forall x | x in after ensures forall n: nat :: Within(after, x, n) <==> depth[x] <= n {
      WithinByCount(after, depth, x);
    }
    assert forall x | x in after :: Within(after, x, MAX_DEPTH - 1) <==> depth[x] <= MAX_DEPTH - 1;
    if p == 0 || Depth(fs, p) + 1 + Extra(fs, id) < MAX_DEPTH {
      forall x | x in after ensures depth[x] <= MAX_DEPTH - 1 {
        if SelfOrBelow(fs, x, id) { ExtraBounds(fs, id, x); }
      }
    } else {
      var x := ExtraReached(fs, id);
      assert depth[x] > MAX_DEPTH - 1;
    }
  }

  // ---- the pre-order walk

  // Folder 0 stands for the root of the menu.
  predicate Under(fs: Folders, x: nat, id: nat)
    requires Forest(fs) && x in fs
  {
    id == 0 || Below(fs, x, id)
  }

  function Level(fs: Folders, id: nat): (r: nat)
    requires Forest(fs) && (id == 0 || id in fs)
    ensures r <= MAX_DEPTH
  {
    if id == 0 then 0 else Depth(fs, id) + 1
  }

  lemma ChildLevel(fs: Folders, c: nat, id: nat)
    requires Forest(fs) && c in fs && fs[c].parent == id
    ensures (id == 0 || id in fs) && Level(fs, c) == Level(fs, id) + 1
  {
    DepthStep(fs, c);
  }

  function PreOrder(fs: Folders, id: nat): seq<nat>
    requires Forest(fs) && (id == 0 || id in fs)
    decreases MAX_DEPTH - Level(fs, id), 1, 0
  {
    Walk(fs, id, Children(fs, id))
  }

  // The children one after the other, each followed by its own subtree.
  function Walk(fs: Folders, id: nat, kids: seq<nat>): seq<nat>
    requires Forest(fs) && (id == 0 || id in fs) && forall c | c in kids :: c in fs && fs[c].parent == id
    decreases MAX_DEPTH - Level(fs, id), 0, |kids|
  {
    if kids == [] then [] else
    assert kids[0] in kids && forall c | c in kids[1..] :: c in kids;
    ChildLevel(fs, kids[0], id);
    [kids[0]] + PreOrder(fs, kids[0]) + Walk(fs, id, kids[1..])
  }

  ghost predicate Distinct(rows: seq<nat>) {
    forall i, j | 0 <= i < j < |rows| :: rows[i] != rows[j]
  }

  ghost predicate UnderSome(fs: Folders, x: nat, kids: seq<nat>)
    requires Forest(fs) && x in fs && forall c | c in kids :: c in fs
  {
    exists c | c in kids :: SelfOrBelow(fs, x, c)
  }

  // The walk lists exactly the folders under the given one, each once.
  lemma {:induction false} PreOrderExact(fs: Folders, id: nat)
    requires Forest(fs) && (id == 0 || id in fs)
    ensures forall x :: x in PreOrder(fs, id) <==> x in fs && Under(fs, x, id)
    ensures Distinct(PreOrder(fs, id))
    decreases MAX_DEPTH - Level(fs, id), 1, 0
  {
    var kids := Children(fs, id);
    OrderedIncreasing(fs, Kids(fs, id));
    WalkExact(fs, id, kids);
    forall x | x in fs ensures UnderSome(fs, x, kids) <==> Under(fs, x, id) {
      UnderByChild(fs, x, id);
    }
  }

  lemma {:induction false} RootAbove(fs: Folders, x: nat) returns (c: nat)
    requires Forest(fs) && x in fs
    ensures c in fs && fs[c].parent == 0 && SelfOrBelow(fs, x, c)
    decreases Depth(fs, x)
  {
    DepthStep(fs, x);
    if fs[x].parent == 0 {
      c := x;
    } else {
      c := RootAbove(fs, fs[x].parent);
      if fs[x].parent != c { assert Below(fs, fs[x].parent, c); }
    }
  }

  lemma UnderByChild(fs: Folders, x: nat, id: nat)
    requires Forest(fs) && (id == 0 || id in fs) && x in fs
    ensures UnderSome(fs, x, Children(fs, id)) <==> Under(fs, x, id)
  {
    if Under(fs, x, id) {
      var c: nat;
      if id == 0 { c := RootAbove(fs, x); } else { c := BelowByChild(fs, x, id); }
      assert c in Children(fs, id);
    }
    if UnderSome(fs, x, Children(fs, id)) && id != 0 {
      var c :| c in Children(fs, id) && SelfOrBelow(fs, x, c);
      ChildBelow(fs, x, c, id);
    }
  }

  // A folder lies under at most one of a list of siblings.
  lemma Apart(fs: Folders, id: nat, k: nat, rest: seq<nat>, x: nat)
    requires Forest(fs) && x in fs && k in fs && fs[k].parent == id
    requires (forall c | c in rest :: c in fs && fs[c].parent == id) && Distinct([k] + rest)
    ensures forall c | c in [k] + rest :: c in fs
    ensures UnderSome(fs, x, [k] + rest) <==> SelfOrBelow(fs, x, k) || UnderSome(fs, x, rest)
    ensures !(SelfOrBelow(fs, x, k) && UnderSome(fs, x, rest))
  {
    hide SelfOrBelow;
    if c :| c in [k] + rest && SelfOrBelow(fs, x, c) { assert c == k || c in rest; }
    if SelfOrBelow(fs, x, k) { assert k in [k] + rest; }
    if c :| c in rest && SelfOrBelow(fs, x, c) {
      assert c in [k] + rest;
      var j :| 0 <= j < |rest| && rest[j] == c;
      assert ([k] + rest)[0] == k && ([k] + rest)[j + 1] == c;
      if SelfOrBelow(fs, x, k) { SiblingsApart(fs, x, k, c, id); }
    }
  }

  lemma {:induction false} WalkExact(fs: Folders, id: nat, kids: seq<nat>)
    requires Forest(fs) && (id == 0 || id in fs) && (forall c | c in kids :: c in fs && fs[c].parent == id)
      && Distinct(kids)
    ensures forall x :: x in Walk(fs, id, kids) <==> x in fs && UnderSome(fs, x, kids)
    ensures Distinct(Walk(fs, id, kids))
    decreases MAX_DEPTH - Level(fs, id), 0, |kids|
  {
    hide Below, UnderSome, Children, Depth, PreOrder, Forest;
    if kids == [] {
      forall x | x in fs ensures !UnderSome(fs, x, kids) { NoneUnder(fs, x); }
    } else {
      var k, rest := kids[0], kids[1..];
      assert k in kids && forall c | c in rest :: c in kids;
      assert [k] + rest == kids;
      ChildLevel(fs, k, id);
      PreOrderExact(fs, k);
      assert Distinct(rest);
      WalkExact(fs, id, rest);
      forall x | x in fs
        ensures UnderSome(fs, x, kids) <==> SelfOrBelow(fs, x, k) || UnderSome(fs, x, rest)
        ensures !(SelfOrBelow(fs, x, k) && UnderSome(fs, x, rest))
      {
        Apart(fs, id, k, rest, x);
      }
      NotBelowItself(fs, k);
      DistinctJoin(k, PreOrder(fs, k), Walk(fs, id, rest));
    }
  }

  lemma NoneUnder(fs: Folders, x: nat)
    requires Forest(fs) && x in fs
    ensures !UnderSome(fs, x, [])
  {
  }

  lemma SiblingsApart(fs: Folders, x: nat, a: nat, b: nat, id: nat)
    requires Forest(fs) && x in fs && a in fs && b in fs && fs[a].parent == id && fs[b].parent == id
    requires SelfOrBelow(fs, x, a) && SelfOrBelow(fs, x, b)
    ensures a == b
  {
    ChildLevel(fs, a, id);
    ChildLevel(fs, b, id);
    AncestorAtDepth(fs, x, a, b);
  }

  lemma NotBelowItself(fs: Folders, x: nat)
    requires Forest(fs) && x in fs
    ensures x != 0 && !Below(fs, x, x)
  {
    if Below(fs, x, x) { BelowDeeper(fs, x, x); }
  }

  lemma DistinctJoin(k: nat, a: seq<nat>, b: seq<nat>)
    requires Distinct(a) && Distinct(b) && k !in a && k !in b && forall x | x in a :: x !in b
    ensures Distinct([k] + a + b)
  {
    var all := [k] + a + b;
    forall i, j | 0 <= i < j < |all| ensures all[i] != all[j] {
      if 0 < i <= |a| < j {
        assert all[i] == a[i - 1] && all[j] == b[j - 1 - |a|] && a[i - 1] in a && b[j - 1 - |a|] in b;
      }
      else if i == 0 && j <= |a| { assert all[j] == a[j - 1] && a[j - 1] in a; }
      else if i == 0 { assert all[j] == b[j - 1 - |a|] && b[j - 1 - |a|] in b; }
    }
  }

  // ---- the walk keeps every listing

  // The children of p among the rows, in their order.
  function KidsAmong(fs: Folders, rows: seq<nat>, p: nat): seq<nat> {
    if rows == [] then [] else KidAlone(fs, rows[0], p) + KidsAmong(fs, rows[1..], p)
  }

  function KidAlone(fs: Folders, row: nat, p: nat): seq<nat> {
    if row in fs && fs[row].parent == p then [row] else []
  }

  lemma {:induction false} KidsAmongAppend(fs: Folders, a: seq<nat>, b: seq<nat>, p: nat)
    ensures KidsAmong(fs, a + b, p) == KidsAmong(fs, a, p) + KidsAmong(fs, b, p)
  {
    hide KidAlone;
    if a == [] {
      assert a + b == b;
    } else {
      KidsAmongAppend(fs, a[1..], b, p);
      assert (a + b)[0] == a[0] && (a + b)[1..] == a[1..] + b;
      var x, y, z := KidAlone(fs, a[0], p), KidsAmong(fs, a[1..], p), KidsAmong(fs, b, p);
      assert x + (y + z) == x + y + z;
    }
  }

  predicate Inside(fs: Folders, p: nat, id: nat)
    requires Forest(fs)
  {
    p == id || (p in fs && Under(fs, p, id))
  }

  // Under the walked folder every listing appears whole and in order; nothing else does.
  lemma {:induction false} PreOrderListings(fs: Folders, id: nat, p: nat)
    requires Forest(fs) && (id == 0 || id in fs)
    ensures KidsAmong(fs, PreOrder(fs, id), p) == if Inside(fs, p, id) then Children(fs, p) else []
    decreases MAX_DEPTH - Level(fs, id), 1, 0
  {
    hide Below, KidsAmong, UnderSome, Before;
    var kids := Children(fs, id);
    OrderedIncreasing(fs, Kids(fs, id));
    assert Distinct(kids);
    WalkListings(fs, id, kids, p);
    if p in fs { UnderByChild(fs, p, id); }
  }

  lemma {:induction false} WalkListings(fs: Folders, id: nat, kids: seq<nat>, p: nat)
    requires Forest(fs) && (id == 0 || id in fs) && (forall c | c in kids :: c in fs && fs[c].parent == id)
      && Distinct(kids)
    ensures KidsAmong(fs, Walk(fs, id, kids), p)
         == if p == id then kids else if p in fs && UnderSome(fs, p, kids) then Children(fs, p) else []
    decreases MAX_DEPTH - Level(fs, id), 0, |kids|
  {
    hide Below, UnderSome, Children, Depth, PreOrder, Forest, KidsAmong, SelfOrBelow;
    if kids == [] {
      assert KidsAmong(fs, [], p) == [] by { NoKids(fs, p); }
      if p in fs { NoneUnder(fs, p); }
    } else {
      var k, rest := kids[0], kids[1..];
      assert k in kids && forall c | c in rest :: c in kids;
      assert [k] + rest == kids;
      ChildLevel(fs, k, id);
      PreOrderListings(fs, k, p);
      assert Distinct(rest);
      WalkListings(fs, id, rest, p);
      assert Walk(fs, id, kids) == [k] + PreOrder(fs, k) + Walk(fs, id, rest);
      hide Walk, Distinct;
      KidsAmongAppend(fs, [k], PreOrder(fs, k), p);
      KidsAmongAppend(fs, [k] + PreOrder(fs, k), Walk(fs, id, rest), p);
      OneKid(fs, k, p);
      if p in fs { Apart(fs, id, k, rest, p); }
      WalkedOutside(fs, id, k, rest, p);
    }
  }

  lemma NoKids(fs: Folders, p: nat)
    ensures KidsAmong(fs, [], p) == []
  {
  }

  lemma OneKid(fs: Folders, k: nat, p: nat)
    requires k in fs
    ensures KidsAmong(fs, [k], p) == if p == fs[k].parent then [k] else []
  {
  }

  // The walked folder lies in none of the subtrees of its children.
  lemma WalkedOutside(fs: Folders, id: nat, k: nat, rest: seq<nat>, p: nat)
    requires Forest(fs) && k in fs && fs[k].parent == id && (id == 0 || id in fs)
    requires forall c | c in rest :: c in fs && fs[c].parent == id
    ensures Inside(fs, p, k) <==> p in fs && SelfOrBelow(fs, p, k)
    ensures p == id ==> !Inside(fs, p, k)
  {
    ChildLevel(fs, k, id);
    if p == id && p in fs && Below(fs, p, k) { BelowDeeper(fs, p, k); }
  }
}
