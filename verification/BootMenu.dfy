// The boot menu: creating, moving, ordering and deleting folders, and placing images in them.

module BootMenu {
  import opened Text
  import opened BootMenuForest

  const MAX_NAME: nat := 80

  // images: the folder each image is placed in.
  datatype Menu = Menu(folders: Folders, images: map<nat, nat>)

  // ---- names

  function Words(s: string, word: string): seq<string> {
    var done := if word == "" then [] else [word];
    if s == "" then done
    else if IsSpace(s[0]) then done + Words(s[1..], "")
    else Words(s[1..], word + [s[0]])
  }

  // Runs of white space collapse; an empty or long name is refused.
  function Normalized(name: string): Option<string> {
    var text := Join(" ", Words(name, ""));
    if text == "" || |text| > MAX_NAME then None else Some(text)
  }

  predicate SameName(a: string, b: string) {
    Lower(a) == Lower(b)
  }

  predicate Clash(fs: Folders, parent: nat, name: string, exclude: nat) {
    exists c | c in fs :: fs[c].parent == parent && c != exclude && SameName(fs[c].name, name)
  }

  // ---- order among siblings

  function MaxSort(fs: Folders, rows: seq<nat>): (r: int)
    requires rows != [] && forall x | x in rows :: x in fs
    ensures forall x | x in rows :: fs[x].sort <= r
  {
    if |rows| == 1 then fs[rows[0]].sort else
    assert rows[0] in rows && forall x | x in rows[1..] :: x in rows;
    var rest := MaxSort(fs, rows[1..]);
    if rest < fs[rows[0]].sort then fs[rows[0]].sort else rest
  }

  function NextSort(fs: Folders, parent: nat): (r: int)
    ensures forall c | c in fs && fs[c].parent == parent :: fs[c].sort < r
  {
    var rows := Children(fs, parent);
    if rows == [] then 0 else MaxSort(fs, rows) + 1
  }

  function IndexOf(rows: seq<nat>, id: nat): (r: nat)
    requires id in rows
    ensures r < |rows| && rows[r] == id
  {
    if rows[0] == id then 0 else 1 + IndexOf(rows[1..], id)
  }

  // Exchange two rows' sort orders; equal ones are first pulled apart.
  function SwapSorts(fs: Folders, a: nat, b: nat, up: bool): Folders
    requires a in fs && b in fs
  {
    var sort := if fs[a].sort == fs[b].sort then fs[a].sort + (if up then -1 else 1) else fs[b].sort;
    fs[a := fs[a].(sort := sort)][b := fs[b].(sort := fs[a].sort)]
  }

  // ---- operations: None where the source refuses

  function Create(s: Menu, id: nat, name: string, parent: nat): Option<Menu>
    requires Forest(s.folders)
  {
    var fs := s.folders;
    match Normalized(name)
    case None => None
    case Some(text) =>
      if parent != 0 && (parent !in fs || Depth(fs, parent) + 1 >= MAX_DEPTH) then None
      else if Clash(fs, parent, text, 0) then None
      else Some(s.(folders := fs[id := Folder(text, parent, NextSort(fs, parent))]))
  }

  // The folder as it would become.
  function Edited(fs: Folders, id: nat, text: string, parent: nat): Folder
    requires id in fs
  {
    if parent == fs[id].parent then fs[id].(name := text) else Folder(text, parent, NextSort(fs, parent))
  }

  // parent None: keep the parent.
  function Update(s: Menu, id: nat, name: string, parent: Option<nat>): Option<Menu>
    requires Forest(s.folders) && id in s.folders
  {
    var fs := s.folders;
    match Normalized(name)
    case None => None
    case Some(text) =>
      var p := match parent case Some(q) => q case None => fs[id].parent;
      if p != 0 && (p !in fs || SelfOrBelow(fs, p, id) || Depth(fs, p) + 1 + Extra(fs, id) >= MAX_DEPTH) then None
      else if Clash(fs, p, text, id) then None
      else Some(s.(folders := fs[id := Edited(fs, id, text, p)]))
  }

  predicate DeleteBlocked(s: Menu, id: nat) {
    || id !in s.folders || |s.folders| <= 1
    || (exists c | c in s.folders :: s.folders[c].parent == id)
    || (exists i | i in s.images :: s.images[i] == id)
  }

  function Delete(s: Menu, id: nat): Option<Menu> {
    if DeleteBlocked(s, id) then None else Some(s.(folders := s.folders - {id}))
  }

  // The neighbour a reorder exchanges the folder with.
  function Neighbour(fs: Folders, id: nat, up: bool): (r: Option<nat>)
    requires id in fs
    ensures r.Some? ==> r.value in fs && fs[r.value].parent == fs[id].parent
  {
    var rows := Children(fs, fs[id].parent);
    var i := IndexOf(rows, id);
    if up then (if i == 0 then None else assert rows[i - 1] in rows; Some(rows[i - 1]))
    else if i + 1 == |rows| then None else assert rows[i + 1] in rows; Some(rows[i + 1])
  }

  // Exchange a folder with its neighbour in the listing.
  function Reorder(s: Menu, id: nat, up: bool): Menu
    requires id in s.folders
  {
    match Neighbour(s.folders, id, up)
    case None => s
    case Some(b) => s.(folders := SwapSorts(s.folders, id, b, up))
  }

  // The wanted folder, else the root folder of the family's name, else the folder with the smallest id.
  ghost predicate Resolves(s: Menu, wanted: nat, family: string, folder: nat) {
    if wanted in s.folders then folder == wanted
    else if exists c | c in s.folders :: s.folders[c].parent == 0 && SameName(s.folders[c].name, family) then
      folder in s.folders && s.folders[folder].parent == 0 && SameName(s.folders[folder].name, family)
    else folder in s.folders && forall c | c in s.folders :: folder <= c
  }

  function Place(s: Menu, image: nat, folder: nat): Menu {
    if folder in s.folders then s.(images := s.images[image := folder]) else s
  }

  // ---- the invariant

  ghost predicate NamesUnique(fs: Folders) {
    forall a, b | a in fs && b in fs && a != b && fs[a].parent == fs[b].parent :: !SameName(fs[a].name, fs[b].name)
  }

  ghost predicate SortsDistinct(fs: Folders) {
    forall a, b | a in fs && b in fs && a != b && fs[a].parent == fs[b].parent :: fs[a].sort != fs[b].sort
  }

  ghost predicate MenuOk(s: Menu) {
    && Forest(s.folders) && s.folders != map[]
    && NamesUnique(s.folders) && SortsDistinct(s.folders)
    && forall i | i in s.images :: s.images[i] in s.folders
  }

  // A stored row whose name and order are new among its siblings.
  lemma StoredRowOk(fs: Folders, id: nat, row: Folder)
    requires NamesUnique(fs) && SortsDistinct(fs) && !Clash(fs, row.parent, row.name, id)
    requires forall c | c in fs && c != id && fs[c].parent == row.parent :: fs[c].sort != row.sort
    ensures NamesUnique(fs[id := row]) && SortsDistinct(fs[id := row])
  {
    hide Lower;
  }

  lemma CreateOk(s: Menu, id: nat, name: string, parent: nat)
    requires MenuOk(s) && id != 0 && id !in s.folders
    ensures Create(s, id, name, parent).Some? ==> MenuOk(Create(s, id, name, parent).value)
  {
    hide Normalized, SameName, NamesUnique, SortsDistinct;
    if Create(s, id, name, parent).Some? {
      var fs, after := s.folders, Create(s, id, name, parent).value.folders;
      NewLeafForest(fs, id, after[id]);
      StoredRowOk(fs, id, after[id]);
      assert id in after;
    }
  }

  lemma NewLeafForest(fs: Folders, id: nat, row: Folder)
    requires Forest(fs) && id != 0 && id !in fs
    requires row.parent != 0 ==> row.parent in fs && Depth(fs, row.parent) + 1 < MAX_DEPTH
    ensures Forest(fs[id := row])
  {
    var after := fs[id := row];
    forall x | x in fs ensures Depth(fs, x) >= 0 {}
    var depth := map x | x in after ::
      if x in fs then Depth(fs, x) else if row.parent == 0 then 0 else Depth(fs, row.parent) + 1;
    forall x | x in after
      ensures if after[x].parent == 0 then depth[x] == 0
        else after[x].parent in after && depth[x] == depth[after[x].parent] + 1
    {
      if x in fs { DepthStep(fs, x); }
    }
    forall x | x in after ensures Within(after, x, MAX_DEPTH - 1) { WithinByCount(after, depth, x); }
  }

  // An update is refused for its place exactly when the result would not be a forest.
  lemma UpdateExact(s: Menu, id: nat, name: string, parent: Option<nat>)
    requires MenuOk(s) && id in s.folders && Normalized(name).Some?
    ensures var p := match parent case Some(q) => q case None => s.folders[id].parent;
      Update(s, id, name, parent).Some? <==>
        && (p != 0 ==> p in s.folders)
        && Forest(s.folders[id := Edited(s.folders, id, Normalized(name).value, p)])
        && !Clash(s.folders, p, Normalized(name).value, id)
  {
    hide Normalized, Clash;
    var p := match parent case Some(q) => q case None => s.folders[id].parent;
    if p == 0 || p in s.folders { MoveKeepsForest(s.folders, id, Edited(s.folders, id, Normalized(name).value, p)); }
  }

  lemma UpdateOk(s: Menu, id: nat, name: string, parent: Option<nat>)
    requires MenuOk(s) && id in s.folders
    ensures Update(s, id, name, parent).Some? ==> MenuOk(Update(s, id, name, parent).value)
  {
    hide Normalized, SameName, Clash, NamesUnique;
    if Update(s, id, name, parent).Some? {
      UpdateExact(s, id, name, parent);
      var fs := s.folders;
      var p := match parent case Some(q) => q case None => fs[id].parent;
      var row := Edited(fs, id, Normalized(name).value, p);
      var after := fs[id := row];
      assert id in after;
      StoredRowOk(fs, id, row);
    }
  }

  lemma DeleteOk(s: Menu, id: nat)
    requires MenuOk(s) && Delete(s, id).Some?
    ensures MenuOk(Delete(s, id).value)
  {
    var fs, after := s.folders, s.folders - {id};
    assert |after| == |fs| - 1;
    var depth := map x | x in fs :: Depth(fs, x);
    forall x | x in after
      ensures if after[x].parent == 0 then depth[x] == 0
        else after[x].parent in after && depth[x] == depth[after[x].parent] + 1
    {
      DepthStep(fs, x);
    }
    forall x | x in after ensures Within(after, x, MAX_DEPTH - 1) { WithinByCount(after, depth, x); }
  }

  // ---- reordering is an adjacent swap

  lemma {:induction false} SameParentsWithin(fs: Folders, after: Folders, id: nat, n: nat)
    requires fs.Keys == after.Keys && forall x | x in fs :: after[x].parent == fs[x].parent
    ensures Within(after, id, n) <==> Within(fs, id, n)
    decreases n
  {
    if id in fs && fs[id].parent != 0 && n > 0 { SameParentsWithin(fs, after, fs[id].parent, n - 1); }
  }

  lemma SameParentsForest(fs: Folders, after: Folders)
    requires Forest(fs) && fs.Keys == after.Keys && forall x | x in fs :: after[x].parent == fs[x].parent
    ensures Forest(after)
  {
    forall id | id in after
      ensures Within(after, id, MAX_DEPTH - 1) { SameParentsWithin(fs, after, id, MAX_DEPTH - 1); }
  }

  ghost predicate Rises(fs: Folders, rows: seq<nat>) {
    && (forall i | 0 <= i < |rows| :: rows[i] in fs)
    && forall i, j | 0 <= i < j < |rows| :: fs[rows[i]].sort < fs[rows[j]].sort
  }

  // The sort orders of a listing rise strictly.
  lemma ListingRises(fs: Folders, p: nat)
    requires SortsDistinct(fs)
    ensures Rises(fs, Children(fs, p))
  {
    var rows := Children(fs, p);
    OrderedIncreasing(fs, Kids(fs, p));
    forall i | 0 <= i < |rows| ensures rows[i] in fs && fs[rows[i]].parent == p { assert rows[i] in rows; }
  }

  // A strictly rising sequence of the same rows is the listing.
  lemma ListingIs(fs: Folders, p: nat, rows: seq<nat>)
    requires (forall x :: x in rows <==> x in fs && fs[x].parent == p) && Rises(fs, rows)
    ensures rows == Children(fs, p)
  {
    OrderedUnique(fs, Kids(fs, p), rows);
  }

  // The same folders in the same places, some with another sort order.
  ghost predicate SamePlaces(fs: Folders, after: Folders) {
    fs.Keys == after.Keys && forall x | x in fs :: after[x].parent == fs[x].parent && after[x].name == fs[x].name
  }

  // Only the sort orders of a and b differ, and they are exchanged.
  ghost predicate Exchanged(fs: Folders, after: Folders, a: nat, b: nat) {
    && SamePlaces(fs, after) && a in fs && b in fs && a != b && fs[a].parent == fs[b].parent
    && after[a].sort == fs[b].sort && after[b].sort == fs[a].sort
    && forall x | x in fs && x != a && x != b :: after[x].sort == fs[x].sort
  }

  lemma OtherListing(fs: Folders, after: Folders, a: nat, b: nat, p: nat)
    requires SortsDistinct(fs) && Exchanged(fs, after, a, b) && p != fs[a].parent
    ensures Children(after, p) == Children(fs, p)
  {
    var rows := Children(fs, p);
    ListingRises(fs, p);
    forall i | 0 <= i < |rows|
      ensures rows[i] in fs && after[rows[i]].sort == fs[rows[i]].sort { assert rows[i] in rows; }
    ListingIs(after, p, rows);
  }

  function Swapped(rows: seq<nat>, i: nat, j: nat): seq<nat>
    requires i < |rows| && j < |rows|
  {
    rows[i := rows[j]][j := rows[i]]
  }

  lemma SwappedMembers(rows: seq<nat>, i: nat, j: nat)
    requires i < |rows| && j < |rows|
    ensures forall x :: x in Swapped(rows, i, j) <==> x in rows
  {
    var swapped := Swapped(rows, i, j);
    forall x | x in rows ensures x in swapped {
      var m :| 0 <= m < |rows| && rows[m] == x;
      assert x == if m == i then swapped[j] else if m == j then swapped[i] else swapped[m];
    }
  }

  lemma SwappedListing(fs: Folders, after: Folders, p: nat, i: nat, j: nat)
    requires SortsDistinct(fs) && i < |Children(fs, p)| && j < |Children(fs, p)|
    requires Exchanged(fs, after, Children(fs, p)[i], Children(fs, p)[j])
    ensures Children(after, p) == Swapped(Children(fs, p), i, j)
  {
    var rows := Children(fs, p);
    var swapped := Swapped(rows, i, j);
    ListingRises(fs, p);
    SwappedMembers(rows, i, j);
    assert Rises(after, swapped) by {
      forall m | 0 <= m < |rows| ensures swapped[m] in fs && after[swapped[m]].sort == fs[rows[m]].sort { }
    }
    ListingIs(after, p, swapped);
  }

  // The neighbour is the row next to the folder in its listing.
  lemma NeighbourIs(fs: Folders, id: nat, up: bool)
    requires SortsDistinct(fs) && id in fs
    ensures var rows := Children(fs, fs[id].parent); var i := IndexOf(rows, id);
      var j := if up then i - 1 else i + 1;
      Neighbour(fs, id, up) == if 0 <= j < |rows| then Some(rows[j]) else None
    ensures Neighbour(fs, id, up).Some? ==> Neighbour(fs, id, up).value != id
  {
    hide Children;
    ListingRises(fs, fs[id].parent);
  }

  lemma SwapExchanges(fs: Folders, a: nat, b: nat, up: bool)
    requires SortsDistinct(fs) && a in fs && b in fs && a != b && fs[a].parent == fs[b].parent
    ensures Exchanged(fs, SwapSorts(fs, a, b, up), a, b)
  {
    assert fs[a].sort != fs[b].sort;
  }

  // Reordering exchanges the folder with its neighbour in their listing and changes no other listing; at either end it
  // does nothing.
  lemma ReorderSwaps(s: Menu, id: nat, up: bool)
    requires SortsDistinct(s.folders) && id in s.folders
    ensures var fs, after := s.folders, Reorder(s, id, up).folders; var rows := Children(fs, fs[id].parent);
      var i := IndexOf(rows, id);
      var j := if up then i - 1 else i + 1;
      Children(after, fs[id].parent) == if 0 <= j < |rows| then Swapped(rows, i, j) else rows
    ensures forall q | q != s.folders[id].parent :: Children(Reorder(s, id, up).folders, q) == Children(s.folders, q)
  {
    hide Children, SwapSorts, SortsDistinct, Neighbour, Exchanged, Swapped, IndexOf;
    var fs := s.folders;
    var after := Reorder(s, id, up).folders;
    var p := fs[id].parent;
    NeighbourIs(fs, id, up);
    if Neighbour(fs, id, up).Some? {
      var b := Neighbour(fs, id, up).value;
      SwapExchanges(fs, id, b, up);
      assert Exchanged(fs, after, id, b);
      ListingSwapped(fs, after, id, up);
      forall q | q != p ensures Children(after, q) == Children(fs, q) { OtherListing(fs, after, id, b, q); }
    }
  }

  lemma ListingSwapped(fs: Folders, after: Folders, id: nat, up: bool)
    requires SortsDistinct(fs) && id in fs && Neighbour(fs, id, up).Some?
      && Exchanged(fs, after, id, Neighbour(fs, id, up).value)
    ensures var rows := Children(fs, fs[id].parent);
      var i := IndexOf(rows, id);
      var j := if up then i - 1 else i + 1;
      0 <= j < |rows| && Children(after, fs[id].parent) == Swapped(rows, i, j)
  {
    hide Children, SortsDistinct, Neighbour, Exchanged, Swapped, IndexOf;
    NeighbourIs(fs, id, up);
    var i := IndexOf(Children(fs, fs[id].parent), id);
    SwappedListing(fs, after, fs[id].parent, i, if up then i - 1 else i + 1);
  }

  // Nothing but two sort orders changes, and the invariant is kept.
  lemma ReorderOk(s: Menu, id: nat, up: bool)
    requires MenuOk(s) && id in s.folders
    ensures MenuOk(Reorder(s, id, up)) && Reorder(s, id, up).images == s.images
    ensures SamePlaces(s.folders, Reorder(s, id, up).folders)
  {
    hide SameName, Children, SwapSorts, NamesUnique, SortsDistinct, Neighbour, Forest;
    NeighbourIs(s.folders, id, up);
    if Neighbour(s.folders, id, up).Some? {
      var fs, after, b := s.folders, Reorder(s, id, up).folders, Neighbour(s.folders, id, up).value;
      SwapExchanges(fs, id, b, up);
      SameParentsForest(fs, after);
      ExchangeDistinct(fs, after, id, b);
      assert id in after;
    }
  }

  lemma ExchangeDistinct(fs: Folders, after: Folders, a: nat, b: nat)
    requires SortsDistinct(fs) && NamesUnique(fs) && Exchanged(fs, after, a, b)
    ensures SortsDistinct(after) && NamesUnique(after)
  {
    hide SameName;
    forall x, y | x in after && y in after && x != y && after[x].parent == after[y].parent
      ensures after[x].sort != after[y].sort {
      assert fs[x].parent == fs[y].parent && fs[x].sort != fs[y].sort;
    }
  }

  // ---- whole runs

  datatype Op =
    | OpCreate(id: nat, name: string, place: nat)
    | OpUpdate(id: nat, name: string, parent: Option<nat>)
    | OpDelete(id: nat)
    | OpReorder(id: nat, up: bool)
    | OpPlace(image: nat, folder: nat)
    | OpDropImage(image: nat)

  // A refused operation changes nothing.
  ghost function Step(s: Menu, op: Op): (r: Menu)
    requires MenuOk(s)
    ensures MenuOk(r)
  {
    match op
    case OpCreate(id, name, parent) =>
      if id == 0 || id in s.folders then s else
      CreateOk(s, id, name, parent);
      (match Create(s, id, name, parent) case Some(t) => t case None => s)
    case OpUpdate(id, name, parent) =>
      if id !in s.folders then s else
      UpdateOk(s, id, name, parent);
      (match Update(s, id, name, parent) case Some(t) => t case None => s)
    case OpDelete(id) =>
      if Delete(s, id).None? then s else
      DeleteOk(s, id);
      Delete(s, id).value
    case OpReorder(id, up) =>
      if id !in s.folders then s else
      ReorderOk(s, id, up);
      Reorder(s, id, up)
    case OpPlace(image, folder) => Place(s, image, folder)
    case OpDropImage(image) => s.(images := s.images - {image})
  }

  // Main theorem: after any operations the folders form a forest at most eight levels deep, sibling names and orders
  // are distinct, at least one folder is left and every image is in a folder.
  ghost function Run(s: Menu, ops: seq<Op>): (r: Menu)
    requires MenuOk(s)
    ensures MenuOk(r)
  {
    if ops == [] then s else Step(Run(s, ops[..|ops| - 1]), ops[|ops| - 1])
  }

  const SEEDED := Menu(map[1 := Folder("Windows", 0, 0), 2 := Folder("Linux", 0, 1), 3 := Folder("Tools", 0, 2)], map[])

  lemma SeededOk()
    ensures MenuOk(SEEDED)
  {
    hide SameName;
    SeededNames();
    assert 1 in SEEDED.folders;
  }

  lemma SeededNames()
    ensures !SameName("Windows", "Linux") && !SameName("Windows", "Tools") && !SameName("Linux", "Tools")
    ensures !SameName("Linux", "Windows") && !SameName("Tools", "Windows") && !SameName("Tools", "Linux")
  {
    assert Lower("Windows")[0] == 'w' && Lower("Linux")[0] == 'l' && Lower("Tools")[0] == 't';
  }

  // ---- what the forms offer

  // parent_folder_options: every folder of the walk that is not the folder itself or below it.
  function ParentOptions(fs: Folders, id: nat, rows: seq<nat>): seq<nat>
    requires Forest(fs)
  {
    if rows == [] then [] else
    var prev, last := ParentOptions(fs, id, rows[..|rows| - 1]), rows[|rows| - 1];
    if last in fs && SelfOrBelow(fs, last, id) then prev else prev + [last]
  }

  lemma {:induction false} ParentOptionsAre(fs: Folders, id: nat, rows: seq<nat>, p: nat)
    requires Forest(fs)
    ensures p in ParentOptions(fs, id, rows) <==> p in rows && !(p in fs && SelfOrBelow(fs, p, id))
  {
    hide SelfOrBelow;
    if rows != [] {
      ParentOptionsAre(fs, id, rows[..|rows| - 1], p);
      assert rows == rows[..|rows| - 1] + [rows[|rows| - 1]];
    }
  }

  // The offered parents are exactly those an update does not refuse as a cycle or as unknown.
  lemma OffersExactlyTheParents(s: Menu, id: nat, p: nat)
    requires MenuOk(s) && id in s.folders
    ensures p in ParentOptions(s.folders, id, PreOrder(s.folders, 0)) <==>
      p in s.folders && !SelfOrBelow(s.folders, p, id)
  {
    PreOrderExact(s.folders, 0);
    ParentOptionsAre(s.folders, id, PreOrder(s.folders, 0), p);
  }

  // The folder options list each folder once, every listing whole and in its own order.
  lemma OptionsExact(s: Menu, p: nat)
    requires MenuOk(s)
    ensures var rows := PreOrder(s.folders, 0);
      && (forall x :: x in rows <==> x in s.folders) && Distinct(rows)
      && (p == 0 || p in s.folders ==> KidsAmong(s.folders, rows, p) == Children(s.folders, p))
  {
    PreOrderExact(s.folders, 0);
    PreOrderListings(s.folders, 0, p);
  }
}
