// The folder and image rows as the boot-menu operations update them in place, with their parent and subtree walks.

module BootMenuTable {
  import opened Text
  import opened BootMenuForest
  import opened BootMenu

  class Table {
    var folders: Folders
    var images: map<nat, nat>

    function Now(): Menu
      reads this
    {
      Menu(folders, images)
    }

    constructor ()
      ensures Now() == SEEDED
    {
      folders, images := SEEDED.folders, SEEDED.images;
    }

    // Parent steps up to a root; on corrupt rows the walk still stops.
    method FolderDepth(start: nat) returns (depth: nat)
      ensures Forest(folders) && start in folders ==> depth == Depth(folders, start)
    {
      depth := 0;
      var current, seen: set<nat> := start, {};
      while current in folders && folders[current].parent != 0
        invariant depth <= MAX_DEPTH + 2
        invariant Forest(folders) && start in folders ==>
          current in folders && Depth(folders, start) == depth + Depth(folders, current)
        invariant Forest(folders) && start in folders ==> forall x | x in seen ::
          x in folders && Depth(folders, x) > Depth(folders, current)
        decreases MAX_DEPTH + 3 - depth
      {
        if current in seen { break; }
        seen := seen + {current};
        if Forest(folders) && start in folders { DepthStep(folders, current); }
        current := folders[current].parent;
        depth := depth + 1;
        if depth > MAX_DEPTH + 2 { break; }
      }
      if Forest(folders) && start in folders { DepthStep(folders, current); }
    }

    // The upward walk finds exactly what parent steps reach, on any rows; on a forest that is the folder or one above
    // it.
    method IsSelfOrDescendant(node: nat, id: nat) returns (r: bool)
      ensures r <==> Reaches(folders, node, id)
      ensures Forest(folders) && node in folders && id != 0 ==> (r <==> SelfOrBelow(folders, node, id))
    {
      if Forest(folders) && node in folders && id != 0 { ClimbsAre(folders, node, id); }
      hide Forest, SelfOrBelow, Reaches, Trail, Climbs;
      var current, seen: set<nat> := node, {};
      ghost var steps := 0;
      TrailStart(folders, node, id);
      while current in folders
        invariant seen <= folders.Keys && Trail(folders, seen, node, id, current, steps)
        decreases |folders.Keys - seen|
      {
        if current == id {
          TrailReaches(folders, seen, node, id, steps);
          return true;
        }
        if current in seen || folders[current].parent == 0 { break; }
        TrailStep(folders, seen, node, id, current, steps);
        FewerLeft(folders.Keys, seen, current);
        seen := seen + {current};
        current, steps := folders[current].parent, steps + 1;
      }
      TrailEnd(folders, seen, node, id, current, steps);
      return false;
    }

    // The downward walk collects exactly the folders below.
    method DescendantIds(id: nat) returns (ids: set<nat>)
      requires Forest(folders) && id in folders
      ensures forall x :: x in ids <==> x in folders && Below(folders, x, id)
      decreases MAX_DEPTH - Depth(folders, id)
    {
      ids := {};
      var rows := Children(folders, id);
      var n := 0;
      while n < |rows|
        invariant n <= |rows|
        invariant forall x :: x in ids <==> x in folders && UnderSome(folders, x, rows[..n])
      {
        var c := rows[n];
        assert c in rows;
        DepthStep(folders, c);
        var below := DescendantIds(c);
        ids := ids + {c} + below;
        forall x | x in folders
          ensures UnderSome(folders, x, rows[..n + 1]) <==>
            UnderSome(folders, x, rows[..n]) || SelfOrBelow(folders, x, c)
        { }
        n := n + 1;
      }
      assert rows[..n] == rows;
      forall x | x in folders
        ensures UnderSome(folders, x, rows) <==> Below(folders, x, id) { UnderByChild(folders, x, id); }
    }

    // Append the walk below a folder, or the whole menu, to the options collected so far.
    method WalkInto(id: nat, options: seq<nat>) returns (r: seq<nat>)
      requires Forest(folders) && (id == 0 || id in folders)
      ensures r == options + PreOrder(folders, id)
      decreases MAX_DEPTH - Level(folders, id)
    {
      hide Walk, Children, Forest, Depth;
      r := options;
      var rows := Children(folders, id);
      var n := 0;
      WalkDone(folders, id, rows, r);
      while n < |rows|
        invariant n <= |rows| && rows == Children(folders, id)
        invariant r + Walk(folders, id, rows[n..]) == options + Walk(folders, id, rows)
      {
        assert rows[n] in rows;
        ChildLevel(folders, rows[n], id);
        WalkStep(folders, id, rows, n, r);
        r := r + [rows[n]];
        r := WalkInto(rows[n], r);
        n := n + 1;
      }
      WalkDone(folders, id, rows, r);
    }

    method FolderOptions() returns (r: seq<nat>)
      requires Forest(folders)
      ensures r == PreOrder(folders, 0)
    {
      r := WalkInto(0, []);
    }

    // The walk's folders outside the edited one's subtree.
    method ParentFolderOptions(id: nat) returns (r: seq<nat>)
      requires Forest(folders) && id in folders
      ensures r == ParentOptions(folders, id, PreOrder(folders, 0))
    {
      var blocked := DescendantIds(id);
      blocked := blocked + {id};
      var rows := FolderOptions();
      PreOrderExact(folders, 0);
      r := [];
      var n := 0;
      while n < |rows|
        invariant n <= |rows| && r == ParentOptions(folders, id, rows[..n])
      {
        assert rows[n] in rows && rows[..n + 1][..n] == rows[..n];
        if rows[n] !in blocked { r := r + [rows[n]]; }
        n := n + 1;
      }
      assert rows[..n] == rows;
    }

    method SiblingClash(parent: nat, name: string, exclude: nat) returns (r: bool)
      ensures r <==> Clash(folders, parent, name, exclude)
    {
      var rows := Children(folders, parent);
      var n := 0;
      while n < |rows|
        invariant n <= |rows|
        invariant forall i | 0 <= i < n ::
          rows[i] in folders && (rows[i] == exclude || !SameName(folders[rows[i]].name, name))
      {
        assert rows[n] in rows;
        if rows[n] != exclude && SameName(folders[rows[n]].name, name) { return true; }
        n := n + 1;
      }
      forall c | c in folders && folders[c].parent == parent ensures c == exclude || !SameName(folders[c].name, name) {
        assert c in rows;
      }
      return false;
    }

    method CreateFolder(id: nat, name: string, parent: nat) returns (ok: bool)
      requires Forest(folders) && id != 0 && id !in folders
      modifies this`folders
      ensures ok <==> Create(old(Now()), id, name, parent).Some?
      ensures Now() == if ok then Create(old(Now()), id, name, parent).value else old(Now())
    {
      var text := Normalized(name);
      if text.None? { return false; }
      if parent != 0 {
        if parent !in folders { return false; }
        var depth := FolderDepth(parent);
        if depth + 1 >= MAX_DEPTH { return false; }
      }
      var clash := SiblingClash(parent, text.value, 0);
      if clash { return false; }
      folders := folders[id := Folder(text.value, parent, NextSort(folders, parent))];
      return true;
    }

    method UpdateFolder(id: nat, name: string, parent: Option<nat>) returns (ok: bool)
      requires Forest(folders) && id in folders
      modifies this`folders
      ensures ok <==> Update(old(Now()), id, name, parent).Some?
      ensures Now() == if ok then Update(old(Now()), id, name, parent).value else old(Now())
    {
      var text := Normalized(name);
      if text.None? { return false; }
      var target := match parent case Some(p) => p case None => folders[id].parent;
      if target != 0 {
        if target !in folders { return false; }
        var inside := IsSelfOrDescendant(target, id);
        if inside { return false; }
        var depth := FolderDepth(target);
        if depth + 1 + Extra(folders, id) >= MAX_DEPTH { return false; }
      }
      var clash := SiblingClash(target, text.value, id);
      if clash { return false; }
      var row := folders[id].(name := text.value);
      if target != folders[id].parent {
        row := row.(parent := target, sort := NextSort(folders, target));
      }
      folders := folders[id := row];
      return true;
    }

    // Nothing is nested or placed in the folder.
    method IsEmpty(id: nat) returns (r: bool)
      ensures r <==> (forall c | c in folders :: folders[c].parent != id) && forall i | i in images :: images[i] != id
    {
      var todo := folders.Keys;
      while todo != {}
        invariant todo <= folders.Keys && forall c | c in folders && c !in todo :: folders[c].parent != id
        decreases |todo|
      {
        var c :| c in todo;
        if folders[c].parent == id { return false; }
        todo := todo - {c};
      }
      var left := images.Keys;
      while left != {}
        invariant left <= images.Keys && forall i | i in images && i !in left :: images[i] != id
        decreases |left|
      {
        var i :| i in left;
        if images[i] == id { return false; }
        left := left - {i};
      }
      return true;
    }

    // Only an empty folder goes, never the last one; every other folder stays as it is, and the name is free again.
    method DeleteFolder(id: nat) returns (ok: bool)
      modifies this`folders
      ensures ok <==> id in old(folders) && |old(folders)| > 1
                      && (forall c | c in old(folders) :: old(folders)[c].parent != id) && forall i | i in images ::
                        images[i] != id
      ensures !ok ==> folders == old(folders)
      ensures ok ==> folders.Keys == old(folders).Keys - {id} && forall c | c in folders ::
        folders[c] == old(folders)[c]
      ensures ok && MenuOk(old(Now())) ==>
        MenuOk(Now()) && !Clash(folders, old(folders)[id].parent, old(folders)[id].name, 0)
      ensures ok ==> Delete(old(Now()), id) == Some(Now())
    {
      hide Forest, NamesUnique, SortsDistinct;
      if id !in folders || |folders| <= 1 { return false; }
      var free := IsEmpty(id);
      if !free { return false; }
      assert Delete(Now(), id).Some?;
      if MenuOk(Now()) {
        DeleteOk(Now(), id);
        DeletedNameFree(folders, id);
      }
      folders := folders - {id};
      return true;
    }

    method ReorderFolder(id: nat, up: bool)
      requires id in folders
      modifies this`folders
      ensures Now() == Reorder(old(Now()), id, up)
    {
      var rows := Children(folders, folders[id].parent);
      var i := IndexOf(rows, id);
      if (up && i == 0) || (!up && i + 1 == |rows|) { return; }
      var b := rows[if up then i - 1 else i + 1];
      assert b in rows;
      var mine, theirs := folders[id].sort, folders[b].sort;
      if mine == theirs { theirs := mine + if up then -1 else 1; }
      folders := folders[id := folders[id].(sort := theirs)];
      folders := folders[b := folders[b].(sort := mine)];
    }

    // The root folder of a name, in listing order.
    method RootFolderNamed(name: string) returns (r: Option<nat>)
      ensures match r
        case Some(c) => c in folders && folders[c].parent == 0 && SameName(folders[c].name, name)
        case None => forall c | c in folders && folders[c].parent == 0 :: !SameName(folders[c].name, name)
    {
      var rows := Children(folders, 0);
      var n := 0;
      while n < |rows|
        invariant n <= |rows| && forall i | 0 <= i < n :: rows[i] in folders && !SameName(folders[rows[i]].name, name)
      {
        assert rows[n] in rows;
        if SameName(folders[rows[n]].name, name) { return Some(rows[n]); }
        n := n + 1;
      }
      forall c | c in folders && folders[c].parent == 0 ensures !SameName(folders[c].name, name) { assert c in rows; }
      return None;
    }

    method FirstFolder() returns (r: nat)
      requires folders != map[]
      ensures r in folders && forall c | c in folders :: r <= c
    {
      var todo := folders.Keys;
      assert todo != {};
      r :| r in todo;
      while todo != {}
        invariant todo <= folders.Keys && r in folders
        invariant forall c | c in folders && c !in todo :: r <= c
        decreases |todo|
      {
        var c :| c in todo;
        if c < r { r := c; }
        todo := todo - {c};
      }
    }

    // A new image goes to the wanted folder, its family's root folder or the first folder.
    method PlaceNewImage(image: nat, wanted: nat, family: string) returns (folder: nat)
      requires MenuOk(Now())
      modifies this`images
      ensures Resolves(old(Now()), wanted, family, folder)
      ensures Now() == Place(old(Now()), image, folder) && MenuOk(Now())
    {
      if wanted in folders {
        folder := wanted;
      } else {
        var named := RootFolderNamed(family);
        if named.Some? { folder := named.value; } else { folder := FirstFolder(); }
      }
      images := images[image := folder];
    }
  }

  lemma WalkStep(fs: Folders, id: nat, rows: seq<nat>, n: nat, r: seq<nat>)
    requires Forest(fs) && (id == 0 || id in fs) && n < |rows| && forall c | c in rows :: c in fs && fs[c].parent == id
    ensures r + Walk(fs, id, rows[n..]) == r + [rows[n]] + PreOrder(fs, rows[n]) + Walk(fs, id, rows[n + 1..])
  {
    hide PreOrder, Forest;
    assert rows[n..][0] == rows[n] && rows[n..][1..] == rows[n + 1..];
  }

  lemma WalkDone(fs: Folders, id: nat, rows: seq<nat>, r: seq<nat>)
    requires Forest(fs) && (id == 0 || id in fs) && forall c | c in rows :: c in fs && fs[c].parent == id
    ensures r + Walk(fs, id, rows[|rows|..]) == r && rows[0..] == rows
  {
  }

  lemma DeletedNameFree(fs: Folders, id: nat)
    requires NamesUnique(fs) && id in fs
    ensures !Clash(fs - {id}, fs[id].parent, fs[id].name, 0)
  {
  }

  // The upward walk so far: every seen row leads to a seen one or to the current one, and none is the folder looked
  // for.
  ghost predicate Trail(fs: Folders, seen: set<nat>, node: nat, id: nat, current: nat, steps: nat) {
    && seen <= fs.Keys && id !in seen && (node in seen || current == node)
    && (forall x | x in seen :: fs[x].parent != 0 && (fs[x].parent in seen || fs[x].parent == current))
    && (current in fs ==> Climbs(fs, node, current, steps))
  }

  lemma FewerLeft(all: set<nat>, seen: set<nat>, x: nat)
    requires x in all && x !in seen
    ensures |all - (seen + {x})| < |all - seen|
  {
    assert all - (seen + {x}) == (all - seen) - {x};
  }

  lemma TrailStart(fs: Folders, node: nat, id: nat)
    ensures Trail(fs, {}, node, id, node, 0)
  {
  }

  lemma TrailStep(fs: Folders, seen: set<nat>, node: nat, id: nat, current: nat, steps: nat)
    requires Trail(fs, seen, node, id, current, steps) && current in fs && current != id && fs[current].parent != 0
    ensures Trail(fs, seen + {current}, node, id, fs[current].parent, steps + 1)
  {
    if fs[current].parent in fs { ClimbOn(fs, node, current, steps); }
  }

  lemma TrailReaches(fs: Folders, seen: set<nat>, node: nat, id: nat, steps: nat)
    requires Trail(fs, seen, node, id, id, steps) && id in fs
    ensures Reaches(fs, node, id)
  {
  }

  lemma TrailEnd(fs: Folders, seen: set<nat>, node: nat, id: nat, current: nat, steps: nat)
    requires Trail(fs, seen, node, id, current, steps)
    requires current in fs ==> current != id && (current in seen || fs[current].parent == 0)
    ensures !Reaches(fs, node, id)
  {
    var rows := if current in fs then seen + {current} else seen;
    if n: nat :| Climbs(fs, node, id, n) { ClosedNeverReaches(fs, rows, node, id, n); }
  }
}
