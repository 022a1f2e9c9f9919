// Which machine record a PXE client gets: MAC and SMBIOS UUID normalisation, and the record that answers for them.

module MachineIdentity {
  import opened Text

  // ---- MAC addresses

  predicate IsHex(c: char) {
    '0' <= c <= '9' || 'a' <= c <= 'f' || 'A' <= c <= 'F'
  }

  function HexOnly(s: string): string {
    if s == "" then "" else HexChar(s[0]) + HexOnly(s[1..])
  }

  function HexChar(c: char): string {
    if IsHex(c) then [c] else ""
  }

  // Pairs joined by colons.
  function Grouped(h: string): string {
    if |h| <= 2 then h else h[..2] + ":" + Grouped(h[2..])
  }

  function NormalizeMac(value: string): Option<string> {
    var h := HexOnly(value);
    if |h| != 12 then None else Some(Grouped(Lower(h)))
  }

  lemma {:induction false} HexOnlyHex(s: string)
    ensures forall c | c in HexOnly(s) :: IsHex(c)
  {
    if s != "" { HexOnlyHex(s[1..]); }
  }

  lemma {:induction false} HexOnlyAppend(a: string, b: string)
    ensures HexOnly(a + b) == HexOnly(a) + HexOnly(b)
  {
    hide HexChar;
    if a == "" {
      assert a + b == b;
    } else {
      HexOnlyAppend(a[1..], b);
      assert (a + b)[0] == a[0] && (a + b)[1..] == a[1..] + b;
      var x, y, z := HexChar(a[0]), HexOnly(a[1..]), HexOnly(b);
      assert x + (y + z) == x + y + z;
    }
  }

  lemma {:induction false} HexOnlyAll(h: string)
    requires forall c | c in h :: IsHex(c)
    ensures HexOnly(h) == h
  {
    if h != "" {
      assert forall c | c in h[1..] :: c in h;
      HexOnlyAll(h[1..]);
    }
  }

  lemma {:induction false} GroupedDigits(h: string)
    requires forall c | c in h :: IsHex(c)
    ensures HexOnly(Grouped(h)) == h
  {
    if |h| <= 2 {
      HexOnlyAll(h);
    } else {
      assert (forall c | c in h[2..] :: c in h) && forall c | c in h[..2] :: c in h;
      GroupedDigits(h[2..]);
      HexOnlyAll(h[..2]);
      var rest := Grouped(h[2..]);
      hide HexOnly, IsHex;
      ColonSkipped(h[..2], rest);
      assert h == h[..2] + h[2..];
    }
  }

  lemma ColonSkipped(a: string, b: string)
    ensures HexOnly(a + ":" + b) == HexOnly(a) + HexOnly(b)
  {
    assert HexOnly(":") == "" + HexOnly(":"[1..]) && ":"[1..] == "";
    hide HexOnly;
    HexOnlyAppend(a + ":", b);
    HexOnlyAppend(a, ":");
  }

  lemma LowerTwice(s: string)
    ensures Lower(Lower(s)) == Lower(s)
  {
  }

  // A normalised address is its own normal form, and two spellings meet exactly when their digits agree.
  lemma NormalMac(a: string, b: string)
    requires NormalizeMac(a).Some?
    ensures NormalizeMac(NormalizeMac(a).value) == NormalizeMac(a)
    ensures NormalizeMac(b) == NormalizeMac(a) <==> Lower(HexOnly(b)) == Lower(HexOnly(a))
  {
    LowerHex(a);
    LowerHex(b);
    GroupedDigits(Lower(HexOnly(a)));
    GroupedDigits(Lower(HexOnly(b)));
    LowerTwice(HexOnly(a));
  }

  lemma LowerHex(s: string)
    ensures forall c | c in Lower(HexOnly(s)) :: IsHex(c)
  {
    HexOnlyHex(s);
    var h := HexOnly(s);
    forall i | 0 <= i < |h| ensures IsHex(Lower(h)[i]) { assert h[i] in h; }
  }

  function StripBraces(s: string): string {
    var l := if s != "" && (s[0] == '{' || s[0] == '}') then s[1..] else s;
    if l != s then StripBraces(l)
    else if s != "" && (s[|s| - 1] == '{' || s[|s| - 1] == '}') then StripBraces(s[..|s| - 1]) else s
  }

  function NormalizeUuid(value: Option<string>): Option<string> {
    match value
    case None => None
    case Some(s) =>
      var text := Lower(StripBraces(Strip(s)));
      if text == "" || text in {"notavailable", "null", "none"} then None else Some(text)
  }

  // ---- records

  // seen: seconds, when the machine last reported.
  datatype Record = Record(mac: string, uuid: Option<string>, seen: Option<int>)

  type Records = map<nat, Record>

  const LIVE := 3600

  // Reported within the last hour.
  predicate Live(r: Record, now: int) {
    r.seen.Some? && r.seen.value >= now - LIVE
  }

  ghost predicate Unique(t: Records) {
    && (forall a, b | a in t && b in t && t[a].mac == t[b].mac :: a == b)
    && (forall a, b | a in t && b in t && t[a].uuid.Some? && t[a].uuid == t[b].uuid :: a == b)
  }

  ghost predicate HoldsMac(t: Records, mac: string, r: Option<nat>) {
    match r
    case Some(i) => i in t && t[i].mac == mac
    case None => forall i | i in t :: t[i].mac != mac
  }

  ghost predicate HoldsUuid(t: Records, uuid: string, r: Option<nat>) {
    match r
    case Some(i) => i in t && t[i].uuid == Some(uuid)
    case None => forall i | i in t :: t[i].uuid != Some(uuid)
  }

  // The holder of the MAC is seen again and may learn its UUID.
  function SeenAgain(t: Records, h: nat, u: Option<string>, byUuid: Option<nat>, now: int): Records
    requires h in t
  {
    var row := t[h].(seen := Some(now));
    t[h := if row.uuid.None? && (byUuid.None? || byUuid == Some(h)) then row.(uuid := u) else row]
  }

  // One report: the records after it and the record that answers. byMac and byUuid: what the lookups found.
  function Touched(t: Records, m: string, u: Option<string>, now: int, id: nat, byMac: Option<nat>,
                   byUuid: Option<nat>): (Records, nat)
    requires (byMac.Some? ==> byMac.value in t) && (byUuid.Some? ==> byUuid.value in t)
  {
    match byMac
    case Some(h) => (SeenAgain(t, h, u, byUuid, now), h)
    case None =>
      if byUuid.Some? && !Live(t[byUuid.value], now) then
        (t[byUuid.value := t[byUuid.value].(mac := m, seen := Some(now))], byUuid.value)
      else (t[id := Record(m, if byUuid.Some? then None else u, Some(now))], id)
  }

  // The lookups a report makes.
  ghost predicate Looked(t: Records, m: string, u: Option<string>, byMac: Option<nat>, byUuid: Option<nat>) {
    && HoldsMac(t, m, byMac)
    && (if u.Some? then HoldsUuid(t, u.value, byUuid) else byUuid.None?)
  }

  // Addresses and UUIDs stay unique, and the record that answers holds the normalised MAC.
  lemma TouchUnique(t: Records, m: string, u: Option<string>, now: int, id: nat, byMac: Option<nat>,
                    byUuid: Option<nat>)
    requires Unique(t) && id !in t && Looked(t, m, u, byMac, byUuid)
    ensures var (after, h) := Touched(t, m, u, now, id, byMac, byUuid);
      Unique(after) && h in after && after[h].mac == m && after[h].seen == Some(now)
  {
  }

  // Only the answering record differs, at most one is added, and a known UUID never changes.
  lemma TouchFrame(t: Records, m: string, u: Option<string>, now: int, id: nat, byMac: Option<nat>, byUuid: Option<nat>)
    requires Unique(t) && id !in t && Looked(t, m, u, byMac, byUuid)
    ensures var (after, h) := Touched(t, m, u, now, id, byMac, byUuid);
      && after.Keys == t.Keys + {h} && (h in t || h == id)
      && (forall i | i in t && i != h :: after[i] == t[i])
      && (h in t && t[h].uuid.Some? ==> after[h].uuid == t[h].uuid)
  {
  }

  ghost predicate MacKnown(t: Records, m: string) {
    exists i | i in t :: t[i].mac == m
  }

  ghost predicate UuidKnown(t: Records, u: Option<string>) {
    u.Some? && exists i | i in t :: t[i].uuid == u
  }

  // Somebody has reported this UUID but not within the last hour.
  ghost predicate UuidSilent(t: Records, u: Option<string>, now: int) {
    u.Some? && exists i | i in t :: t[i].uuid == u && !Live(t[i], now)
  }

  // A record moves to the MAC exactly when nobody holds the MAC and its UUID's holder has been silent for over an hour;
  // a record is added exactly when nobody holds the MAC and no silent holder can move; a UUID is learnt only when free.
  lemma TouchMoves(t: Records, m: string, u: Option<string>, now: int, id: nat, byMac: Option<nat>, byUuid: Option<nat>)
    requires Unique(t) && id !in t && Looked(t, m, u, byMac, byUuid)
    ensures var (after, h) := Touched(t, m, u, now, id, byMac, byUuid);
      && h in after
      && (h in t && t[h].mac != m <==> !MacKnown(t, m) && UuidSilent(t, u, now))
      && (h in t && t[h].mac != m ==> t[h].uuid == u && !Live(t[h], now))
      && (h !in t <==> !MacKnown(t, m) && !UuidSilent(t, u, now))
      && (h !in t || t[h].uuid.None? ==> after[h].uuid == if UuidKnown(t, u) then None else u)
  {
  }

  // ---- runs of reports

  // One boot-time report; newId is the id a new record would get.
  datatype Report = Report(mac: string, uuid: Option<string>, now: int, newId: nat)

  // The report carries this address and this UUID.
  ghost predicate Names(r: Report, mac: string, uuid: Option<string>) {
    NormalizeMac(r.mac) == Some(mac) && uuid.Some? && NormalizeUuid(r.uuid) == uuid
  }

  // One report turns t into after; a bad address changes nothing.
  ghost predicate Reported(t: Records, r: Report, after: Records) {
    match NormalizeMac(r.mac)
    case None => after == t
    case Some(m) => r.newId !in t && exists byMac, byUuid ::
      Looked(t, m, NormalizeUuid(r.uuid), byMac, byUuid)
      && after == Touched(t, m, NormalizeUuid(r.uuid), r.now, r.newId, byMac, byUuid).0
  }

  // steps: the records before each report, and at the end.
  ghost predicate Reaches(steps: seq<Records>, reports: seq<Report>) {
    |steps| == 1 + |reports| && forall n | 0 <= n < |reports| :: Reported(steps[n], reports[n], steps[n + 1])
  }

  // The n-th report moved record i to this address: it named the record's own UUID after an hour's silence.
  ghost predicate MovedAt(steps: seq<Records>, reports: seq<Report>, n: nat, i: nat, mac: string) {
    && n < |reports| && n < |steps| && i in steps[n]
    && Names(reports[n], mac, steps[n][i].uuid) && !Live(steps[n][i], reports[n].now)
  }

  // Record i has the address it had, or the one a report moved it to.
  ghost predicate KeptOrMoved(steps: seq<Records>, reports: seq<Report>, i: nat, before: string, after: string) {
    after == before || exists n: nat :: MovedAt(steps, reports, n, i, after)
  }

  lemma AtMostOneMore(s: set<nat>, x: nat)
    ensures |s + {x}| <= |s| + 1
  {
    if x in s { assert s + {x} == s; }
  }

  lemma OneReport(t: Records, r: Report, after: Records)
    requires Unique(t) && Reported(t, r, after)
    ensures Unique(after) && t.Keys <= after.Keys && |after| <= |t| + 1
    ensures forall i | i in t :: t[i].uuid.Some? ==> after[i].uuid == t[i].uuid
    ensures forall i | i in t :: after[i].mac == t[i].mac || (Names(r, after[i].mac, t[i].uuid) && !Live(t[i], r.now))
  {
    hide NormalizeMac, NormalizeUuid, Touched, Unique;
    if NormalizeMac(r.mac).Some? {
      var m, u := NormalizeMac(r.mac).value, NormalizeUuid(r.uuid);
      var byMac, byUuid :| Looked(t, m, u, byMac, byUuid) && after == Touched(t, m, u, r.now, r.newId, byMac, byUuid).0;
      TouchUnique(t, m, u, r.now, r.newId, byMac, byUuid);
      TouchFrame(t, m, u, r.now, r.newId, byMac, byUuid);
      TouchMoves(t, m, u, r.now, r.newId, byMac, byUuid);
      var h := Touched(t, m, u, r.now, r.newId, byMac, byUuid).1;
      assert after.Keys == t.Keys + {h};
      AtMostOneMore(t.Keys, h);
      assert |after| == |after.Keys| && |t| == |t.Keys|;
    }
  }

  // Over every run of reports addresses and UUIDs stay unique, no record is lost, at most one is added a report,
  // a UUID once learnt never changes, and a record only ever moves with its own UUID after an hour's silence.
  lemma {:induction false} AlwaysUnique(steps: seq<Records>, reports: seq<Report>)
    requires Reaches(steps, reports) && Unique(steps[0])
    ensures var t, after := steps[0], steps[|reports|];
      && Unique(after) && t.Keys <= after.Keys && |after| <= |t| + |reports|
      && (forall i | i in t :: t[i].uuid.Some? ==> after[i].uuid == t[i].uuid)
      && (forall i | i in t :: KeptOrMoved(steps, reports, i, t[i].mac, after[i].mac))
    decreases |reports|
  {
    hide Unique, Reported, MovedAt;
    var n := |reports|;
    if n > 0 {
      var t, last, after := steps[0], steps[n - 1], steps[n];
      AlwaysUnique(steps[..n], reports[..n - 1]);
      assert Reported(last, reports[n - 1], after);
      OneReport(last, reports[n - 1], after);
      forall i | i in t ensures KeptOrMoved(steps, reports, i, t[i].mac, after[i].mac) {
        assert KeptOrMoved(steps[..n], reports[..n - 1], i, t[i].mac, last[i].mac);
        if after[i].mac != last[i].mac {
          assert MovedAt(steps, reports, n - 1, i, after[i].mac) by { JustMoved(steps, reports, i, after[i].mac); }
        } else if last[i].mac != t[i].mac {
          var k: nat :| MovedAt(steps[..n], reports[..n - 1], k, i, last[i].mac);
          MovedEarlier(steps, reports, k, i, last[i].mac);
        }
      }
    }
  }

  lemma JustMoved(steps: seq<Records>, reports: seq<Report>, i: nat, mac: string)
    requires |reports| > 0 && |steps| == 1 + |reports| && i in steps[|reports| - 1]
    requires var last, r := steps[|reports| - 1], reports[|reports| - 1];
      Names(r, mac, last[i].uuid) && !Live(last[i], r.now)
    ensures MovedAt(steps, reports, |reports| - 1, i, mac)
  {
  }

  lemma MovedEarlier(steps: seq<Records>, reports: seq<Report>, k: nat, i: nat, mac: string)
    requires |reports| > 0 && |steps| == 1 + |reports|
      && MovedAt(steps[..|reports|], reports[..|reports| - 1], k, i, mac)
    ensures MovedAt(steps, reports, k, i, mac)
  {
  }

  class Registry {
    var records: Records

    method HolderOf(mac: string) returns (r: Option<nat>)
      ensures HoldsMac(records, mac, r)
    {
      r := None;
      var todo := records.Keys;
      while todo != {}
        invariant todo <= records.Keys && forall i | i in records && i !in todo :: records[i].mac != mac
        decreases |todo|
      {
        var i :| i in todo;
        if records[i].mac == mac { return Some(i); }
        todo := todo - {i};
      }
    }

    // The holder of an address in any spelling; a text without twelve hex digits is no address.
    method FindByMac(mac: string) returns (valid: bool, r: Option<nat>)
      ensures valid <==> NormalizeMac(mac).Some?
      ensures if valid then HoldsMac(records, NormalizeMac(mac).value, r) else r.None?
    {
      var normal := NormalizeMac(mac);
      if normal.None? { return false, None; }
      r := HolderOf(normal.value);
      return true, r;
    }

    method FindByUuid(uuid: string) returns (r: Option<nat>)
      ensures HoldsUuid(records, uuid, r)
    {
      r := None;
      var todo := records.Keys;
      while todo != {}
        invariant todo <= records.Keys && forall i | i in records && i !in todo :: records[i].uuid != Some(uuid)
        decreases |todo|
      {
        var i :| i in todo;
        if records[i].uuid == Some(uuid) { return Some(i); }
        todo := todo - {i};
      }
    }

    // A bad address changes nothing; otherwise one record answers.
    method TouchMachine(mac: string, uuid: Option<string>, now: int, id: nat) returns (r: Option<nat>)
      requires id !in records
      modifies this
      ensures r.None? <==> NormalizeMac(mac).None?
      ensures r.None? ==> records == old(records)
      ensures r.Some? ==> exists byMac, byUuid ::
        && Looked(old(records), NormalizeMac(mac).value, NormalizeUuid(uuid), byMac, byUuid)
        && (records, r.value)
          == Touched(old(records), NormalizeMac(mac).value, NormalizeUuid(uuid), now, id, byMac, byUuid)
    {
      hide NormalizeMac, NormalizeUuid;
      var normal := NormalizeMac(mac);
      if normal.None? { return None; }
      var m, u := normal.value, NormalizeUuid(uuid);
      var found := HolderOf(m);
      var byUuid := None;
      if u.Some? { byUuid := FindByUuid(u.value); }
      ghost var t := records;
      assert Looked(t, m, u, found, byUuid);
      ghost var spec := Touched(t, m, u, now, id, found, byUuid);
      if found.None? && byUuid.Some? {
        if Live(records[byUuid.value], now) {
          u := None;
        } else {
          records := records[byUuid.value := records[byUuid.value].(mac := m)];
          found := byUuid;
        }
      }
      if found.None? {
        records := records[id := Record(m, u, Some(now))];
        return Some(id);
      }
      var row := records[found.value].(seen := Some(now));
      if u.Some? && row.uuid.None? && (byUuid.None? || byUuid == found) { row := row.(uuid := u); }
      records := records[found.value := row];
      assert records == spec.0;
      return found;
    }
  }
}
