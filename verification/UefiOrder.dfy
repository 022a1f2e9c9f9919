// Planning a UEFI BootOrder (section 3.3 of the UEFI Specification) for a machine's boot policy.

module UefiOrder {
  import opened Text

  datatype Kind = Network | Disk | Other

  datatype Entry = Entry(id: string, description: string, path: string)

  datatype Item = Item(id: string, kind: Kind, ipv4: bool)

  function Upper(s: string): (r: string)
    ensures |r| == |s|
  {
    seq(|s|, i requires 0 <= i < |s| => if 'a' <= s[i] <= 'z' then s[i] - 'a' + 'A' else s[i])
  }

  // ---- classification

  const NETWORK_WORDS := ["PXE", "HTTP", "IPv4", "IPv6", "Network", "LAN", "Ethernet", "NIC"]
  const DISK_WORDS := ["Windows Boot Manager", "ubuntu", "debian", "rhel", "grub", "shim"]

  predicate WordChar(c: char) {
    'a' <= c <= 'z' || 'A' <= c <= 'Z' || '0' <= c <= '9' || c == '_'
  }

  // The word stands at i, in any case, with no further letter, digit or underscore on either side.
  predicate WordAt(s: string, word: string, i: nat) {
    && i + |word| <= |s| && Upper(s[i..i + |word|]) == Upper(word)
    && (i > 0 ==> !WordChar(s[i - 1]))
    && (i + |word| < |s| ==> !WordChar(s[i + |word|]))
  }

  predicate HasWord(s: string, word: string) {
    exists i | 0 <= i <= |s| :: WordAt(s, word, i)
  }

  predicate HasAny(s: string, words: seq<string>) {
    exists i | 0 <= i < |words| :: HasWord(s, words[i])
  }

  // Network wins over disk: the device path of a network entry may name a disk too.
  function Classify(description: string, path: string): Kind {
    if HasAny(description, NETWORK_WORDS) || Contains(path, "MAC(") || Contains(path, "Uri(") then Network
    else if HasAny(description, DISK_WORDS) || Contains(path, "HD(") then Disk
    else Other
  }

  // Network entries that come before the disk under the `pxe` policy.
  predicate Ipv4(description: string) {
    !HasWord(description, "IPv6") && !HasWord(description, "HTTP")
      && (HasWord(description, "IPv4") || HasWord(description, "PXE"))
  }

  function ItemOf(e: Entry): Item {
    var kind := Classify(e.description, e.path);
    Item(Upper(e.id), kind, kind == Network && Ipv4(e.description))
  }

  function ItemsOf(entries: seq<Entry>): seq<Item> {
    seq(|entries|, i requires 0 <= i < |entries| => ItemOf(entries[i]))
  }

  function IdsOf(items: seq<Item>): seq<string> {
    seq(|items|, i requires 0 <= i < |items| => items[i].id)
  }

  predicate Known(policy: string) {
    policy == "pxe" || policy == "disk"
  }

  // The bucket an entry belongs to, firmware tries low ranks first.
  function Rank(policy: string, x: Item): (r: nat)
    ensures r <= 3
  {
    if policy == "pxe" then
      match x.kind
      case Network => if x.ipv4 then 0 else 2
      case Disk => 1
      case Other => 3
    else
      match x.kind
      case Disk => 0
      case Other => 1
      case Network => 2
  }

  // The entries of one bucket, in firmware order.
  function Bucket(items: seq<Item>, policy: string, r: nat): seq<Item> {
    if items == [] then [] else
    var prev, last := Bucket(items[..|items| - 1], policy, r), items[|items| - 1];
    if Rank(policy, last) == r then prev + [last] else prev
  }

  function Buckets(items: seq<Item>, policy: string): seq<Item> {
    Bucket(items, policy, 0) + Bucket(items, policy, 1) + Bucket(items, policy, 2) + Bucket(items, policy, 3)
  }

  predicate IsCurrent(x: Item, current: Option<string>) {
    current == Some(x.id) && x.kind == Network
  }

  // The first network entry the machine booted from.
  function Pick(items: seq<Item>, current: Option<string>, i: nat): (r: Option<nat>)
    requires i <= |items|
    ensures r.Some? ==> i <= r.value < |items| && IsCurrent(items[r.value], current)
    ensures r.Some? ==> forall j | i <= j < r.value :: !IsCurrent(items[j], current)
    ensures r.None? ==> forall j | i <= j < |items| :: !IsCurrent(items[j], current)
    decreases |items| - i
  {
    if i == |items| then None else if IsCurrent(items[i], current) then Some(i) else Pick(items, current, i + 1)
  }

  function Without(items: seq<Item>, i: nat): seq<Item>
    requires i < |items|
  {
    items[..i] + items[i + 1..]
  }

  function NewOrder(items: seq<Item>, policy: string, current: Option<string>): seq<Item> {
    if policy == "pxe" then
      match Pick(items, current, 0)
      case Some(i) => [items[i]] + Buckets(Without(items, i), policy)
      case None => Buckets(items, policy)
    else Buckets(items, policy)
  }

  function Booted(current: Option<string>): Option<string> {
    match current
    case Some(id) => if id == "" then None else Some(Upper(id))
    case None => None
  }

  // The ids in planned order, unless the policy, the entries or the order itself give no reason to write them.
  function Reorder(entries: seq<Entry>, policy: string, current: Option<string>): Option<seq<string>> {
    var items := ItemsOf(entries);
    if !Known(policy) || (forall i | 0 <= i < |items| :: items[i].kind != Network) then None else
    var order := IdsOf(NewOrder(items, policy, Booted(current)));
    if order == IdsOf(items) then None else Some(order)
  }

  // ---- the stable sort

  predicate Sorted(items: seq<Item>, policy: string) {
    forall i, j | 0 <= i < j < |items| :: Rank(policy, items[i]) <= Rank(policy, items[j])
  }

  // Sorted by bucket, each bucket in its original order: the stable sort.
  ghost predicate StableSortOf(out: seq<Item>, items: seq<Item>, policy: string) {
    Sorted(out, policy) && forall r | 0 <= r <= 3 :: Bucket(out, policy, r) == Bucket(items, policy, r)
  }

  lemma {:induction false} BucketAll(items: seq<Item>, policy: string, r: nat)
    ensures forall i | 0 <= i < |Bucket(items, policy, r)| :: Rank(policy, Bucket(items, policy, r)[i]) == r
  {
    if items != [] { BucketAll(items[..|items| - 1], policy, r); }
  }

  lemma {:induction false} BucketAppend(a: seq<Item>, b: seq<Item>, policy: string, r: nat)
    ensures Bucket(a + b, policy, r) == Bucket(a, policy, r) + Bucket(b, policy, r)
  {
    if b == [] {
      assert a + b == a && Bucket(a, policy, r) + [] == Bucket(a, policy, r);
    } else {
      var n := |b| - 1;
      BucketAppend(a, b[..n], policy, r);
      assert (a + b)[..|a + b| - 1] == a + b[..n] && (a + b)[|a + b| - 1] == b[n];
    }
  }

  lemma {:induction false} BucketSame(items: seq<Item>, policy: string, r: nat, q: nat)
    requires forall i | 0 <= i < |items| :: Rank(policy, items[i]) == q
    ensures Bucket(items, policy, r) == if r == q then items else []
  {
    if items != [] {
      BucketSame(items[..|items| - 1], policy, r, q);
      assert items[..|items| - 1] + [items[|items| - 1]] == items;
    }
  }

  lemma BucketTwice(items: seq<Item>, policy: string, q: nat, r: nat)
    ensures Bucket(Bucket(items, policy, q), policy, r) == if r == q then Bucket(items, policy, q) else []
  {
    BucketAll(items, policy, q);
    BucketSame(Bucket(items, policy, q), policy, r, q);
  }

  // A bucket of the rearranged list is the bucket of the original.
  lemma BucketOfBuckets(items: seq<Item>, policy: string, r: nat)
    requires r <= 3
    ensures Bucket(Buckets(items, policy), policy, r) == Bucket(items, policy, r)
  {
    hide Bucket, Rank;
    var a, b, c, d :=
      Bucket(items, policy, 0), Bucket(items, policy, 1), Bucket(items, policy, 2), Bucket(items, policy, 3);
    BucketAppend(a + b + c, d, policy, r);
    BucketAppend(a + b, c, policy, r);
    BucketAppend(a, b, policy, r);
    BucketTwice(items, policy, 0, r);
    BucketTwice(items, policy, 1, r);
    BucketTwice(items, policy, 2, r);
    BucketTwice(items, policy, 3, r);
    assert [] + a == a && a + [] == a && [] + b == b && b + [] == b && [] + c == c && c + [] == c && [] + d == d;
  }

  lemma BucketsSorted(items: seq<Item>, policy: string)
    ensures Sorted(Buckets(items, policy), policy)
  {
    BucketAll(items, policy, 0); BucketAll(items, policy, 1); BucketAll(items, policy, 2); BucketAll(items, policy, 3);
  }

  lemma {:induction false} BucketEmpty(items: seq<Item>, policy: string, r: nat)
    requires forall i | 0 <= i < |items| :: Rank(policy, items[i]) != r
    ensures Bucket(items, policy, r) == []
  {
    if items != [] { BucketEmpty(items[..|items| - 1], policy, r); }
  }

  lemma BucketStep(items: seq<Item>, policy: string, r: nat)
    requires items != []
    ensures var n := |items| - 1;
      Bucket(items, policy, r) == Bucket(items[..n], policy, r) + if Rank(policy, items[n]) == r then [items[n]] else []
  {
    hide Rank;
  }

  // A sorted list is its own buckets in a row.
  lemma {:induction false} SortedIsBuckets(items: seq<Item>, policy: string)
    requires Sorted(items, policy)
    ensures items == Buckets(items, policy)
  {
    hide Bucket, Rank;
    if items == [] {
      NoBuckets(policy);
    } else {
      var n := |items| - 1;
      var init, last := items[..n], items[n];
      assert Sorted(init, policy);
      SortedIsBuckets(init, policy);
      var r := Rank(policy, last);
      forall k: nat | r < k <= 3 ensures Bucket(init, policy, k) == [] { BucketEmpty(init, policy, k); }
      BucketStep(items, policy, 0);
      BucketStep(items, policy, 1);
      BucketStep(items, policy, 2);
      BucketStep(items, policy, 3);
      LastAdded(Bucket(init, policy, 0), Bucket(init, policy, 1), Bucket(init, policy, 2), Bucket(init, policy, 3),
        [last], r);
      assert items == init + [last];
    }
  }

  lemma LastAdded(a: seq<Item>, b: seq<Item>, c: seq<Item>, d: seq<Item>, x: seq<Item>, r: nat)
    requires r <= 3 && (r < 1 ==> b == []) && (r < 2 ==> c == []) && (r < 3 ==> d == [])
    ensures (a + if r == 0 then x else []) + (b + if r == 1 then x else []) + (c + if r == 2 then x else [])
      + (d + if r == 3 then x else [])
         == a + b + c + d + x
  {
  }

  lemma BucketsParts(items: seq<Item>, policy: string)
    ensures multiset(Buckets(items, policy)) == multiset(Bucket(items, policy, 0)) + multiset(Bucket(items, policy, 1))
                                                + multiset(Bucket(items, policy, 2))
                                                  + multiset(Bucket(items, policy, 3))
  {
    hide Bucket;
  }

  lemma BucketGrows(items: seq<Item>, policy: string, r: nat)
    requires items != []
    ensures multiset(Bucket(items, policy, r)) == multiset(Bucket(items[..|items| - 1], policy, r))
      + if Rank(policy, items[|items| - 1]) == r then multiset{items[|items| - 1]} else multiset{}
  {
  }

  lemma AddedOnce(a: multiset<Item>, b: multiset<Item>, c: multiset<Item>, d: multiset<Item>, x: multiset<Item>, r: nat)
    requires r <= 3
    ensures (a + if r == 0 then x else multiset{}) + (b + if r == 1 then x else multiset{})
          + (c + if r == 2 then x else multiset{}) + (d + if r == 3 then x else multiset{}) == a + b + c + d + x
  {
  }

  lemma BucketsGrow(items: seq<Item>, policy: string)
    requires items != []
    ensures multiset(Buckets(items, policy))
      == multiset(Buckets(items[..|items| - 1], policy)) + multiset{items[|items| - 1]}
  {
    hide Buckets, Bucket, Rank;
    var init, last := items[..|items| - 1], items[|items| - 1];
    BucketsParts(items, policy);
    BucketsParts(init, policy);
    BucketGrows(items, policy, 0);
    BucketGrows(items, policy, 1);
    BucketGrows(items, policy, 2);
    BucketGrows(items, policy, 3);
    AddedOnce(multiset(Bucket(init, policy, 0)), multiset(Bucket(init, policy, 1)), multiset(Bucket(init, policy, 2)),
              multiset(Bucket(init, policy, 3)), multiset{last}, Rank(policy, last));
  }

  lemma NoBuckets(policy: string)
    ensures Buckets([], policy) == []
  {
  }

  lemma {:induction false} BucketsKeep(items: seq<Item>, policy: string)
    ensures multiset(Buckets(items, policy)) == multiset(items)
  {
    hide Buckets, Bucket;
    if items == [] {
      NoBuckets(policy);
    } else {
      var n := |items| - 1;
      BucketsKeep(items[..n], policy);
      BucketsGrow(items, policy);
      assert items == items[..n] + [items[n]];
    }
  }

  // The buckets in a row are the stable sort, a permutation, and no other list is that sort.
  lemma BucketsAreStableSort(items: seq<Item>, policy: string, out: seq<Item>)
    ensures StableSortOf(Buckets(items, policy), items, policy)
    ensures multiset(Buckets(items, policy)) == multiset(items)
    ensures StableSortOf(out, items, policy) ==> out == Buckets(items, policy)
  {
    BucketsSorted(items, policy);
    BucketsKeep(items, policy);
    forall r: nat | r <= 3 ensures Bucket(Buckets(items, policy), policy, r) == Bucket(items, policy, r) {
      BucketOfBuckets(items, policy, r);
    }
    if StableSortOf(out, items, policy) { SortedIsBuckets(out, policy); }
  }

  // ---- what Reorder returns

  // The current network entry first, when the policy asks for it, then the stable sort of the others.
  ghost predicate Planned(out: seq<Item>, items: seq<Item>, policy: string, current: Option<string>) {
    if policy == "pxe" && exists i | 0 <= i < |items| :: IsCurrent(items[i], current) then
      exists i | 0 <= i < |items| ::
        && IsCurrent(items[i], current) && (forall j | 0 <= j < i :: !IsCurrent(items[j], current))
        && out != [] && out[0] == items[i] && StableSortOf(out[1..], Without(items, i), policy)
    else StableSortOf(out, items, policy)
  }

  lemma NewOrderIsPlanned(items: seq<Item>, policy: string, current: Option<string>)
    ensures Planned(NewOrder(items, policy, current), items, policy, current)
    ensures multiset(NewOrder(items, policy, current)) == multiset(items)
  {
    hide StableSortOf, Buckets;
    var out := NewOrder(items, policy, current);
    if policy == "pxe" && Pick(items, current, 0).Some? {
      var i := Pick(items, current, 0).value;
      BucketsAreStableSort(Without(items, i), policy, []);
      assert out[1..] == Buckets(Without(items, i), policy);
      WithoutParts(items, i);
    } else {
      BucketsAreStableSort(items, policy, []);
    }
  }

  // The result is the planned order, a permutation of the entries, and it is None exactly for an unknown policy, no
  // network entry, or an order that already is the plan.
  lemma ReorderIs(entries: seq<Entry>, policy: string, current: Option<string>)
    ensures var items := ItemsOf(entries); var r := Reorder(entries, policy, current);
      && (r.None? <==>
            || !Known(policy) || (forall i | 0 <= i < |items| :: items[i].kind != Network)
            || exists out :: Planned(out, items, policy, Booted(current)) && IdsOf(out) == IdsOf(items))
      && (r.Some? ==> exists out ::
        Planned(out, items, policy, Booted(current)) && multiset(out) == multiset(items) && IdsOf(out) == r.value)
  {
    hide Planned, NewOrder;
    var items := ItemsOf(entries);
    NewOrderIsPlanned(items, policy, Booted(current));
    forall out | Planned(out, items, policy, Booted(current)) ensures out == NewOrder(items, policy, Booted(current)) {
      PlannedUnique(out, items, policy, Booted(current));
    }
  }

  lemma PickIs(items: seq<Item>, current: Option<string>, i: nat)
    requires i < |items| && IsCurrent(items[i], current) && forall j | 0 <= j < i :: !IsCurrent(items[j], current)
    ensures Pick(items, current, 0) == Some(i)
  {
    hide IsCurrent;
    var p := Pick(items, current, 0);
  }

  lemma PlannedUnique(out: seq<Item>, items: seq<Item>, policy: string, current: Option<string>)
    requires Planned(out, items, policy, current)
    ensures out == NewOrder(items, policy, current)
  {
    hide StableSortOf, Buckets, IsCurrent, Pick, Without;
    if policy == "pxe" && exists i | 0 <= i < |items| :: IsCurrent(items[i], current) {
      var i :| 0 <= i < |items| && IsCurrent(items[i], current)
        && (forall j | 0 <= j < i :: !IsCurrent(items[j], current))
               && out != [] && out[0] == items[i] && StableSortOf(out[1..], Without(items, i), policy);
      PickIs(items, current, i);
      BucketsAreStableSort(Without(items, i), policy, out[1..]);
      assert out == [out[0]] + out[1..];
    } else {
      BucketsAreStableSort(items, policy, out);
    }
  }

  // ---- planning again

  lemma NewOrderTwice(items: seq<Item>, policy: string, current: Option<string>)
    ensures NewOrder(NewOrder(items, policy, current), policy, current) == NewOrder(items, policy, current)
  {
    hide Buckets;
    var out := NewOrder(items, policy, current);
    NewOrderIsPlanned(items, policy, current);
    if policy == "pxe" && Pick(items, current, 0).Some? {
      var i := Pick(items, current, 0).value;
      var rest := Buckets(Without(items, i), policy);
      BucketsSorted(Without(items, i), policy);
      SortedIsBuckets(rest, policy);
      assert Pick(out, current, 0) == Some(0);
      assert Without(out, 0) == rest;
    } else {
      BucketsSorted(items, policy);
      SortedIsBuckets(out, policy);
      if policy == "pxe" {
        forall i | 0 <= i < |out| ensures !IsCurrent(out[i], current) {
          assert out[i] in multiset(out);
          assert out[i] in items;
        }
      }
    }
  }

  // ---- efibootmgr listings

  // One line of `efibootmgr -v`, as the patterns recognise it.
  datatype Line = BootCurrent(id: string) | BootOrder(ids: seq<string>) | BootEntry(entry: Entry) | Unrecognised

  function Uppers(ids: seq<string>): seq<string> {
    seq(|ids|, i requires 0 <= i < |ids| => Upper(ids[i]))
  }

  datatype Listing = Listing(order: seq<string>, current: Option<string>, entries: seq<Entry>)

  // The last BootCurrent and BootOrder line count, and every entry in listing order.
  function ListingOf(lines: seq<Line>): Listing {
    if lines == [] then Listing([], None, []) else
    var prev := ListingOf(lines[..|lines| - 1]);
    match lines[|lines| - 1]
    case BootCurrent(id) => prev.(current := Some(Upper(id)))
    case BootOrder(ids) => prev.(order := Uppers(ids))
    case BootEntry(e) => prev.(entries := prev.entries + [e.(id := Upper(e.id))])
    case Unrecognised => prev
  }

  method ParseListing(lines: seq<Line>) returns (order: seq<string>, current: Option<string>, entries: seq<Entry>)
    ensures Listing(order, current, entries) == ListingOf(lines)
  {
    order, current, entries := [], None, [];
    var n := 0;
    while n < |lines|
      invariant n <= |lines| && Listing(order, current, entries) == ListingOf(lines[..n])
    {
      match lines[n] {
        case BootCurrent(id) => current := Some(Upper(id));
        case BootOrder(ids) => order := Uppers(ids);
        case BootEntry(e) => entries := entries + [e.(id := Upper(e.id))];
        case Unrecognised =>
      }
      assert lines[..n + 1][..n] == lines[..n];
      n := n + 1;
    }
    assert lines[..n] == lines;
  }

  // The listed entry of an id, the last one when it is listed twice; an unlisted id counts as other.
  function Lookup(entries: seq<Entry>, id: string): Entry {
    if entries == [] then Entry(id, "", "")
    else if entries[|entries| - 1].id == id then entries[|entries| - 1]
    else Lookup(entries[..|entries| - 1], id)
  }

  function LookupAll(entries: seq<Entry>, ids: seq<string>): seq<Entry> {
    seq(|ids|, i requires 0 <= i < |ids| => Lookup(entries, ids[i]))
  }

  function Plan(lines: seq<Line>, policy: string): Option<seq<string>> {
    var l := ListingOf(lines);
    if l.order == [] then None else Reorder(LookupAll(l.entries, l.order), policy, l.current)
  }

  lemma UpperTwice(s: string)
    ensures Upper(Upper(s)) == Upper(s)
  {
  }

  lemma {:induction false} LookupId(entries: seq<Entry>, id: string)
    ensures Lookup(entries, id).id == id
  {
    if entries != [] { LookupId(entries[..|entries| - 1], id); }
  }

  lemma {:induction false} OrderIsUpper(lines: seq<Line>)
    ensures forall i | 0 <= i < |ListingOf(lines).order| ::
      Upper(ListingOf(lines).order[i]) == ListingOf(lines).order[i]
    ensures ListingOf(lines).current.Some? ==> Upper(ListingOf(lines).current.value) == ListingOf(lines).current.value
  {
    if lines != [] {
      OrderIsUpper(lines[..|lines| - 1]);
      match lines[|lines| - 1]
      case BootCurrent(id) => UpperTwice(id);
      case BootOrder(ids) =>
        forall i | 0 <= i < |ids| ensures Upper(Upper(ids[i])) == Upper(ids[i]) { UpperTwice(ids[i]); }
      case _ =>
    }
  }

  lemma NoWords(words: seq<string>)
    requires forall i | 0 <= i < |words| :: words[i] != ""
    ensures !HasAny("", words)
  {
    forall i | 0 <= i < |words| ensures !HasWord("", words[i]) {
      assert !WordAt("", words[i], 0);
    }
  }

  // An id without an entry counts as neither network nor disk.
  lemma {:induction false} UnlistedIsOther(entries: seq<Entry>, id: string)
    requires forall i | 0 <= i < |entries| :: entries[i].id != id
    ensures ItemOf(Lookup(entries, id)) == Item(Upper(id), Other, false)
  {
    if entries == [] {
      hide HasAny, Contains;
      NoWords(NETWORK_WORDS);
      NoWords(DISK_WORDS);
      NoText("MAC(");
      NoText("Uri(");
      NoText("HD(");
    } else {
      UnlistedIsOther(entries[..|entries| - 1], id);
    }
  }

  lemma NoText(m: string)
    requires m != ""
    ensures !Contains("", m)
  {
  }

  // Every description of an IPv4 network entry is that of a network entry, whatever its path.
  lemma Ipv4IsNetwork(description: string, path: string)
    requires Ipv4(description)
    ensures Classify(description, path) == Network
  {
    hide HasWord, Contains;
    if HasWord(description, "PXE") { assert HasWord(description, NETWORK_WORDS[0]); }
    if HasWord(description, "IPv4") { assert HasWord(description, NETWORK_WORDS[2]); }
  }

  // An item of the listing is determined by its id.
  lemma ItemByID(entries: seq<Entry>, ids: seq<string>, x: Item)
    requires forall i | 0 <= i < |ids| :: Upper(ids[i]) == ids[i]
    requires x in ItemsOf(LookupAll(entries, ids))
    ensures x == ItemOf(Lookup(entries, x.id)) && Upper(x.id) == x.id && x.id in ids
  {
    var i :| 0 <= i < |ids| && ItemsOf(LookupAll(entries, ids))[i] == x;
    LookupId(entries, ids[i]);
  }

  // A plan is a permutation of the listed BootOrder, unlisted ids included.
  lemma PlanKeepsIds(lines: seq<Line>, policy: string)
    requires Plan(lines, policy).Some?
    ensures multiset(Plan(lines, policy).value) == multiset(ListingOf(lines).order)
  {
    var l := ListingOf(lines);
    var items := ItemsOf(LookupAll(l.entries, l.order));
    NewOrderIsPlanned(items, policy, Booted(l.current));
    OrderIsUpper(lines);
    forall i | 0 <= i < |l.order| ensures items[i].id == l.order[i] { LookupId(l.entries, l.order[i]); }
    assert IdsOf(items) == l.order;
    IdsKeep(NewOrder(items, policy, Booted(l.current)), items);
  }

  lemma WithoutParts(b: seq<Item>, i: nat)
    requires i < |b|
    ensures |Without(b, i)| == |b| - 1 && multiset(b) == multiset(Without(b, i)) + multiset{b[i]}
    ensures multiset(IdsOf(b)) == multiset(IdsOf(Without(b, i))) + multiset{b[i].id}
  {
    assert b == b[..i] + [b[i]] + b[i + 1..];
    assert IdsOf(Without(b, i)) == IdsOf(b)[..i] + IdsOf(b)[i + 1..];
    assert IdsOf(b) == IdsOf(b)[..i] + [b[i].id] + IdsOf(b)[i + 1..];
  }

  lemma {:induction false} IdsKeep(a: seq<Item>, b: seq<Item>)
    requires multiset(a) == multiset(b)
    ensures multiset(IdsOf(a)) == multiset(IdsOf(b))
    decreases |a|
  {
    hide IdsOf, Without;
    if a == [] {
      assert |multiset(b)| == 0;
      assert b == [];
    } else {
      WithoutParts(a, 0);
      assert a[0] in multiset(b);
      var i :| 0 <= i < |b| && b[i] == a[0];
      WithoutParts(b, i);
      assert multiset(Without(a, 0)) == multiset(a) - multiset{a[0]}
        && multiset(Without(b, i)) == multiset(b) - multiset{b[i]};
      IdsKeep(Without(a, 0), Without(b, i));
    }
  }

  // Once the firmware holds the planned order there is nothing left to change.
  lemma PlanSettles(lines: seq<Line>, policy: string)
    requires Plan(lines, policy).Some?
    ensures Plan(lines + [BootOrder(Plan(lines, policy).value)], policy).None?
  {
    hide NewOrder, Lookup, Upper;
    var l, order := ListingOf(lines), Plan(lines, policy).value;
    var after := lines + [BootOrder(order)];
    assert after[..|after| - 1] == lines && after[|after| - 1] == BootOrder(order);
    var items := ItemsOf(LookupAll(l.entries, l.order));
    var out := NewOrder(items, policy, Booted(l.current));
    NewOrderIsPlanned(items, policy, Booted(l.current));
    OrderIsUpper(lines);
    forall i | 0 <= i < |out|
      ensures Upper(order[i]) == order[i] && ItemOf(Lookup(l.entries, order[i])) == out[i]
    {
      assert out[i] in multiset(out);
      assert out[i] in items;
      ItemByID(l.entries, l.order, out[i]);
    }
    assert Uppers(order) == order;
    assert ListingOf(after) == l.(order := order);
    assert ItemsOf(LookupAll(l.entries, order)) == out;
    NewOrderTwice(items, policy, Booted(l.current));
  }
}
