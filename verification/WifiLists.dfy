/**
 The two lists the Wi-Fi page fills from one scan result and one list of saved networks:
 saved networks that were heard (or are connected), and heard networks that are not saved.
 */
module WifiLists {
  import opened Common
  import opened WifiScan
  import Qsort

  datatype Saved = Saved(ssid: string, bssid: string)

  datatype Device = Device(ssid: string, bssid: string, rssi: int, connected: bool, heard: bool)

  datatype Row = Row(id: nat, ssid: string, rssi: int, connected: bool)

  function ConnKey(d: Device): int {
    if d.connected then 1 else 0
  }

  // ---------------------------------------------------------------- blank names

  /** The white space of the C locale. */
  predicate IsSpace(c: char) {
    c as int == 32 || 9 <= c as int <= 13
  }

  /** Space, tab, newline, vertical tab, form feed and carriage return. */
  lemma SpaceChars(c: char)
    ensures IsSpace(c) <==> c in " \t\n\r" || c == 11 as char || c == 12 as char
  {
  }

  predicate IsBlank(ssid: string) {
    forall i | 0 <= i < |ssid| :: IsSpace(ssid[i])
  }

  /** Despite its name in the source, true means blank. */
  method IsSsidValid(ssid: string) returns (blank: bool)
    ensures blank <==> IsBlank(ssid)
  {
    if |ssid| == 0 {
      return true;
    }
    for i := 0 to |ssid|
      invariant forall j | 0 <= j < i :: IsSpace(ssid[j])
    {
      if !IsSpace(ssid[i]) {
        return false;
      }
    }
    return true;
  }

  // ---------------------------------------------------------------- saved networks

  function FreshDevices(saved: seq<Saved>): (r: seq<Device>)
    ensures |r| == |saved|
  {
    seq(|saved|, i requires 0 <= i < |saved| => Device(saved[i].ssid, saved[i].bssid, 0, false, false))
  }

  predicate IsConnected(saved: seq<Saved>, current: Option<string>, i: int)
    requires 0 <= i < |saved|
  {
    && current == Some(saved[i].ssid)
    && forall j | 0 <= j < i :: saved[j].ssid != saved[i].ssid
  }

  /** The saved networks with the first one that carries the connected SSID marked. */
  function Marked(saved: seq<Saved>, current: Option<string>): (r: seq<Device>)
    ensures |r| == |saved|
  {
    seq(|saved|, i requires 0 <= i < |saved| =>
      Device(saved[i].ssid, saved[i].bssid, 0, IsConnected(saved, current, i), false))
  }

  /** What the saved-network query may return: the marked list, connected first. */
  ghost predicate PairedOutcome(saved: seq<Saved>, current: Option<string>, devices: seq<Device>) {
    multiset(devices) == multiset(Marked(saved, current)) && Qsort.Descending(devices, ConnKey)
  }

  method PairedDevices(known: seq<Saved>, current: Option<string>) returns (devices: array<Device>, count: nat)
    ensures fresh(devices) && count == Min(|known|, SCAN_LIST_LEN) && devices.Length == SCAN_LIST_LEN
    ensures PairedOutcome(known[..count], current, devices[..count])
  {
    count := Min(|known|, SCAN_LIST_LEN);
    ghost var saved := known[..count];
    devices := new Device[SCAN_LIST_LEN](_ => Device("", "", 0, false, false));
    for i := 0 to count
      invariant devices[..i] == FreshDevices(saved)[..i]
    {
      devices[i] := Device(known[i].ssid, known[i].bssid, 0, false, false);
    }
    if count > 0 && current.Some? {
      var i := 0;
      while i < count && devices[i].ssid != current.value
        invariant i <= count
        invariant devices[..count] == FreshDevices(saved)
        invariant forall j | 0 <= j < i :: saved[j].ssid != current.value
      {
        i := i + 1;
      }
      if i < count {
        devices[i] := devices[i].(connected := true);
      }
    }
    assert devices[..count] == Marked(saved, current);
    if count > 0 {
      Qsort.SortDescending(devices, count, ConnKey);
    }
  }

  lemma MarkedOnce(saved: seq<Saved>, current: Option<string>, i: int, j: int)
    requires 0 <= i < |saved| && 0 <= j < |saved|
    requires Marked(saved, current)[i].connected && Marked(saved, current)[j].connected
    ensures i == j
  {
  }

  // ---------------------------------------------------------------- the saved list on the page

  function FirstHeard(ssid: string, scan: seq<ScanEntry>): Option<int> {
    if scan == [] then None
    else if scan[0].ssid == ssid then Some(scan[0].rssi)
    else FirstHeard(ssid, scan[1..])
  }

  lemma {:induction false} FirstHeardIff(ssid: string, scan: seq<ScanEntry>)
    ensures FirstHeard(ssid, scan).Some? <==> HasSsid(scan, ssid)
  {
    if scan != [] {
      FirstHeardIff(ssid, scan[1..]);
      if HasSsid(scan[1..], ssid) {
        var i :| 0 <= i < |scan[1..]| && scan[1..][i].ssid == ssid;
        assert scan[i + 1].ssid == ssid;
      }
      if HasSsid(scan, ssid) && scan[0].ssid != ssid {
        var i :| 0 <= i < |scan| && scan[i].ssid == ssid;
        assert scan[1..][i - 1].ssid == ssid;
      }
    }
  }

  /** A device after the join with the scan. */
  function Joined(d: Device, scan: seq<ScanEntry>): Device {
    match FirstHeard(d.ssid, scan)
    case None => d.(heard := false)
    case Some(rssi) => d.(rssi := rssi, heard := true)
  }

  predicate Listed(d: Device) {
    d.heard || d.connected
  }

  /** Rows of the saved list for joined devices: listed ones, numbered without gaps. */
  function PairRows(devices: seq<Device>): (rows: seq<Row>)
    ensures |rows| <= |devices|
  {
    if devices == [] then []
    else
      var front := PairRows(devices[..|devices| - 1]);
      var d := devices[|devices| - 1];
      if Listed(d) then front + [Row(|front|, d.ssid, d.rssi, d.connected)] else front
  }

  function ConnectCount(devices: seq<Device>): nat {
    if devices == [] then 0
    else ConnectCount(devices[..|devices| - 1]) + ConnKey(devices[|devices| - 1])
  }

  method JoinScan(devices: array<Device>, count: nat, scan: seq<ScanEntry>)
    requires count <= devices.Length
    modifies devices
    ensures forall j | 0 <= j < count :: devices[j] == Joined(old(devices[j]), scan)
    ensures forall j | count <= j < devices.Length :: devices[j] == old(devices[j])
  {
    for j := 0 to count
      invariant forall k | 0 <= k < j :: devices[k] == Joined(old(devices[k]), scan)
      invariant forall k | j <= k < devices.Length :: devices[k] == old(devices[k])
    {
      ghost var d := devices[j];
      devices[j] := devices[j].(heard := false);
      var i := 0;
      while i < |scan|
        invariant i <= |scan|
        invariant devices[j] == d.(heard := false)
        invariant FirstHeard(d.ssid, scan[i..]) == FirstHeard(d.ssid, scan)
        invariant forall k | 0 <= k < j :: devices[k] == Joined(old(devices[k]), scan)
        invariant forall k | j < k < devices.Length :: devices[k] == old(devices[k])
      {
        if devices[j].ssid == scan[i].ssid {
          devices[j] := devices[j].(rssi := scan[i].rssi, heard := true);
          break;
        }
        assert scan[i..][1..] == scan[i + 1..];
        i := i + 1;
      }
    }
  }

  method BuildPairRows(devices: array<Device>, count: nat) returns (rows: seq<Row>, connectCount: nat, foundDev: nat)
    requires count <= devices.Length
    ensures rows == PairRows(devices[..count]) && foundDev == |rows|
    ensures connectCount == ConnectCount(devices[..count])
  {
    rows, connectCount, foundDev := [], 0, 0;
    for i := 0 to count
      invariant rows == PairRows(devices[..i]) && foundDev == |rows|
      invariant connectCount == ConnectCount(devices[..i])
    {
      assert devices[..i + 1][..i] == devices[..i];
      var row := Row(foundDev, devices[i].ssid, devices[i].rssi, devices[i].connected);
      if devices[i].connected {
        connectCount := connectCount + 1;
      }
      if devices[i].heard || devices[i].connected {
        foundDev := foundDev + 1;
        rows := rows + [row];
      }
    }
  }

  // ---------------------------------------------------------------- the scan list on the page

  predicate IsSaved(devices: seq<Device>, ssid: string) {
    exists j :: 0 <= j < |devices| && devices[j].ssid == ssid
  }

  function ScanRows(scan: seq<ScanEntry>, devices: seq<Device>): (rows: seq<Row>)
    ensures |rows| <= |scan|
  {
    if scan == [] then []
    else
      var front := ScanRows(scan[..|scan| - 1], devices);
      var e := scan[|scan| - 1];
      if IsBlank(e.ssid) || IsSaved(devices, e.ssid) then front
      else front + [Row(|front|, e.ssid, e.rssi, false)]
  }

  method BuildScanRows(scan: seq<ScanEntry>, devices: array<Device>, count: nat) returns (rows: seq<Row>)
    requires count <= devices.Length
    ensures rows == ScanRows(scan, devices[..count])
  {
    rows := [];
    var addCount := 0;
    for i := 0 to |scan|
      invariant rows == ScanRows(scan[..i], devices[..count]) && addCount == |rows|
    {
      assert scan[..i + 1][..i] == scan[..i];
      var blank := IsSsidValid(scan[i].ssid);
      if !blank {
        var saved := false;
        for j := 0 to count
          invariant saved <==> IsSaved(devices[..j], scan[i].ssid)
        {
          if devices[j].ssid == scan[i].ssid {
            saved := true;
            assert devices[..count][j].ssid == scan[i].ssid;
            break;
          }
        }
        if !saved {
          rows := rows + [Row(addCount, scan[i].ssid, scan[i].rssi, false)];
          addCount := addCount + 1;
        }
      }
    }
    assert scan[..|scan|] == scan;
  }

  // ---------------------------------------------------------------- what the lists promise

  predicate HasRow(rows: seq<Row>, ssid: string) {
    exists k :: 0 <= k < |rows| && rows[k].ssid == ssid
  }

  predicate Numbered(rows: seq<Row>) {
    forall k | 0 <= k < |rows| :: rows[k].id == k
  }

  lemma {:induction false} PairRowsNumbered(devices: seq<Device>)
    ensures Numbered(PairRows(devices))
  {
    if devices != [] {
      PairRowsNumbered(devices[..|devices| - 1]);
    }
  }

  lemma {:induction false} ScanRowsNumbered(scan: seq<ScanEntry>, devices: seq<Device>)
    ensures Numbered(ScanRows(scan, devices))
  {
    if scan != [] {
      ScanRowsNumbered(scan[..|scan| - 1], devices);
    }
  }

  lemma {:induction false} PairRowIff(devices: seq<Device>, ssid: string)
    ensures HasRow(PairRows(devices), ssid)
            <==> exists j :: 0 <= j < |devices| && devices[j].ssid == ssid && Listed(devices[j])
  {
    if devices != [] {
      var front, d := devices[..|devices| - 1], devices[|devices| - 1];
      PairRowIff(front, ssid);
      var rows := PairRows(front);
      if HasRow(rows, ssid) {
        var k :| 0 <= k < |rows| && rows[k].ssid == ssid;
        assert PairRows(devices)[k].ssid == ssid;
        var j :| 0 <= j < |front| && front[j].ssid == ssid && Listed(front[j]);
        assert devices[j].ssid == ssid && Listed(devices[j]);
      }
      if Listed(d) {
        assert PairRows(devices)[|rows|].ssid == d.ssid;
      }
      if j :| 0 <= j < |devices| && devices[j].ssid == ssid && Listed(devices[j]) && j < |front| {
        assert front[j].ssid == ssid && Listed(front[j]);
      }
      if HasRow(PairRows(devices), ssid) && !HasRow(rows, ssid) {
        assert d.ssid == ssid && Listed(d);
      }
    }
  }

  lemma {:induction false} ScanRowIff(scan: seq<ScanEntry>, devices: seq<Device>, ssid: string)
    ensures HasRow(ScanRows(scan, devices), ssid)
            <==> HasSsid(scan, ssid) && !IsBlank(ssid) && !IsSaved(devices, ssid)
  {
    if scan != [] {
      var front, e := scan[..|scan| - 1], scan[|scan| - 1];
      assert scan == front + [e];
      ScanRowIff(front, devices, ssid);
      HasSsidSnoc(front, e, ssid);
      var rows := ScanRows(front, devices);
      if HasRow(rows, ssid) {
        var k :| 0 <= k < |rows| && rows[k].ssid == ssid;
        assert ScanRows(scan, devices)[k].ssid == ssid;
      }
      if e.ssid == ssid && !IsBlank(ssid) && !IsSaved(devices, ssid) {
        assert ScanRows(scan, devices)[|rows|].ssid == ssid;
      }
    }
  }

  lemma {:induction false} ScanRowsDistinct(scan: seq<ScanEntry>, devices: seq<Device>)
    requires DistinctSsids(scan)
    ensures forall k, l | 0 <= k < l < |ScanRows(scan, devices)| ::
              ScanRows(scan, devices)[k].ssid != ScanRows(scan, devices)[l].ssid
  {
    if scan != [] {
      var front, e := scan[..|scan| - 1], scan[|scan| - 1];
      ScanRowsDistinct(front, devices);
      ScanRowIff(front, devices, e.ssid);
      forall i | 0 <= i < |front|
        ensures front[i].ssid != e.ssid
      {
        assert scan[i].ssid != scan[|scan| - 1].ssid;
      }
    }
  }

  /** Each non-blank network heard is in exactly one of the two lists: the saved one if it is saved, otherwise
      once in the scan list; both lists are numbered 0, 1, 2, ... The two lists ask for the saved networks
      separately: each answer is sorted on its own and may see another connection. */
  lemma EachNetworkInOneList(heard: seq<ScanEntry>, scan: seq<ScanEntry>, saved: seq<Saved>,
                             current1: Option<string>, devices1: seq<Device>, joined: seq<Device>,
                             current2: Option<string>, devices2: seq<Device>, ssid: string)
    requires ScanOutcome(heard, scan)
    requires PairedOutcome(saved, current1, devices1) && PairedOutcome(saved, current2, devices2)
    requires |joined| == |devices1| && forall j | 0 <= j < |devices1| :: joined[j] == Joined(devices1[j], scan)
    requires HasSsid(heard, ssid) && !IsBlank(ssid)
    ensures var pairRows, scanRows := PairRows(joined), ScanRows(scan, devices2);
            && Numbered(pairRows) && Numbered(scanRows)
            && (HasRow(pairRows, ssid) <==> !HasRow(scanRows, ssid))
            && (HasRow(pairRows, ssid) <==> exists i :: 0 <= i < |saved| && saved[i].ssid == ssid)
            && (forall k, l | 0 <= k < l < |scanRows| :: scanRows[k].ssid != scanRows[l].ssid)
  {
    ScanSound(heard, scan);
    PairRowsNumbered(joined);
    ScanRowsNumbered(scan, devices2);
    ScanRowsDistinct(scan, devices2);
    ScanRowIff(scan, devices2, ssid);
    SavedIff(saved, current1, devices1, ssid);
    SavedIff(saved, current2, devices2, ssid);
    PairRowIffSaved(scan, devices1, joined, ssid);
  }

  /** The scan rows show scan entries in their order: where[k] is the entry of row k. */
  lemma {:induction false} ScanRowsShow(scan: seq<ScanEntry>, devices: seq<Device>) returns (where: seq<int>)
    ensures var rows := ScanRows(scan, devices);
            && |where| == |rows|
            && (forall k | 0 <= k < |rows| :: 0 <= where[k] < |scan| && rows[k].ssid == scan[where[k]].ssid
                                              && rows[k].rssi == scan[where[k]].rssi && !rows[k].connected)
            && (forall k, l | 0 <= k < l < |rows| :: where[k] < where[l])
  {
    where := [];
    if scan != [] {
      var front, e := scan[..|scan| - 1], scan[|scan| - 1];
      where := ScanRowsShow(front, devices);
      if !IsBlank(e.ssid) && !IsSaved(devices, e.ssid) {
        where := where + [|scan| - 1];
      }
    }
  }

  /** The saved rows show the listed devices in their order. */
  lemma {:induction false} PairRowsShow(devices: seq<Device>) returns (where: seq<int>)
    ensures var rows := PairRows(devices);
            && |where| == |rows|
            && (forall k | 0 <= k < |rows| ::
                  && 0 <= where[k] < |devices| && Listed(devices[where[k]])
                  && rows[k] == Row(k, devices[where[k]].ssid, devices[where[k]].rssi, devices[where[k]].connected))
            && (forall k, l | 0 <= k < l < |rows| :: where[k] < where[l])
  {
    where := [];
    if devices != [] {
      where := PairRowsShow(devices[..|devices| - 1]);
      if Listed(devices[|devices| - 1]) {
        where := where + [|devices| - 1];
      }
    }
  }

  lemma {:induction false} FirstHeardPlace(ssid: string, scan: seq<ScanEntry>) returns (i: int)
    requires FirstHeard(ssid, scan).Some?
    ensures 0 <= i < |scan| && scan[i].ssid == ssid && FirstHeard(ssid, scan) == Some(scan[i].rssi)
  {
    if scan[0].ssid == ssid {
      i := 0;
    } else {
      i := FirstHeardPlace(ssid, scan[1..]);
      i := i + 1;
    }
  }

  /** What the scan list shows: each row the signal strength of the first entry heard with its name, strongest
      first, and none connected. */
  lemma ScanRowsTellTruth(heard: seq<ScanEntry>, scan: seq<ScanEntry>, devices: seq<Device>)
    requires ScanOutcome(heard, scan)
    ensures var rows := ScanRows(scan, devices);
            && (forall k | 0 <= k < |rows| ::
                  exists e :: HeardFirst(heard, e) && rows[k] == Row(k, e.ssid, e.rssi, false))
            && (forall k, l | 0 <= k < l < |rows| :: rows[k].rssi >= rows[l].rssi)
  {
    ScanSound(heard, scan);
    ScanRowsNumbered(scan, devices);
    var where := ScanRowsShow(scan, devices);
    var rows := ScanRows(scan, devices);
    forall k | 0 <= k < |rows|
      ensures exists e :: HeardFirst(heard, e) && rows[k] == Row(k, e.ssid, e.rssi, false)
    {
      assert HeardFirst(heard, scan[where[k]]);
    }
    forall k, l | 0 <= k < l < |rows|
      ensures rows[k].rssi >= rows[l].rssi
    {
      assert scan[where[k]].rssi >= scan[where[l]].rssi;
    }
  }

  /** And the saved list: a network that was heard with the strength of the first entry heard, one that was not is
      the connected one and is shown with strength 0. */
  lemma PairRowsTellTruth(heard: seq<ScanEntry>, scan: seq<ScanEntry>, saved: seq<Saved>, current: Option<string>,
                          devices: seq<Device>, joined: seq<Device>, k: nat)
    requires ScanOutcome(heard, scan) && PairedOutcome(saved, current, devices)
    requires |joined| == |devices| && forall j | 0 <= j < |devices| :: joined[j] == Joined(devices[j], scan)
    requires k < |PairRows(joined)|
    ensures var row := PairRows(joined)[k];
            if HasSsid(heard, row.ssid)
            then exists e :: HeardFirst(heard, e) && e.ssid == row.ssid && e.rssi == row.rssi
            else row.connected && row.rssi == 0 && current == Some(row.ssid)
  {
    ScanSound(heard, scan);
    var where := PairRowsShow(joined);
    var j := where[k];
    FirstHeardIff(devices[j].ssid, scan);
    var l := PlaceIn(devices, Marked(saved, current), j);
    if HasSsid(heard, devices[j].ssid) {
      var i := FirstHeardPlace(devices[j].ssid, scan);
      assert HeardFirst(heard, scan[i]);
    }
  }

  /** A network that was heard has a row among the saved ones exactly when it is saved. */
  lemma PairRowIffSaved(scan: seq<ScanEntry>, devices: seq<Device>, joined: seq<Device>, ssid: string)
    requires |joined| == |devices| && forall j | 0 <= j < |devices| :: joined[j] == Joined(devices[j], scan)
    requires HasSsid(scan, ssid)
    ensures HasRow(PairRows(joined), ssid) <==> IsSaved(devices, ssid)
  {
    PairRowIff(joined, ssid);
    FirstHeardIff(ssid, scan);
    if IsSaved(devices, ssid) {
      var j :| 0 <= j < |devices| && devices[j].ssid == ssid;
      assert joined[j].ssid == ssid && Listed(joined[j]);
    }
    if HasRow(PairRows(joined), ssid) {
      var j :| 0 <= j < |joined| && joined[j].ssid == ssid && Listed(joined[j]);
      assert devices[j].ssid == ssid;
    }
  }

  lemma SavedIff(saved: seq<Saved>, current: Option<string>, devices: seq<Device>, ssid: string)
    requires PairedOutcome(saved, current, devices)
    ensures IsSaved(devices, ssid) <==> exists i :: 0 <= i < |saved| && saved[i].ssid == ssid
  {
    var marked := Marked(saved, current);
    if IsSaved(devices, ssid) {
      var j :| 0 <= j < |devices| && devices[j].ssid == ssid;
      var i := PlaceIn(devices, marked, j);
      assert saved[i].ssid == ssid;
    }
    if i :| 0 <= i < |saved| && saved[i].ssid == ssid {
      var j := PlaceIn(marked, devices, i);
      assert devices[j].ssid == ssid;
    }
  }

  /** One connected device at most, and it is the first of the list. */
  lemma ConnectedFirst(saved: seq<Saved>, current: Option<string>, devices: seq<Device>, j: int)
    requires PairedOutcome(saved, current, devices)
    requires 0 <= j < |devices| && devices[j].connected
    ensures j == 0 && current == Some(devices[0].ssid)
  {
    var marked := Marked(saved, current);
    var l := PlaceIn(devices, marked, j);
    if j > 0 {
      assert ConnKey(devices[0]) >= ConnKey(devices[j]);
      var m := PlaceIn(devices, marked, 0);
      MarkedOnce(saved, current, l, m);
      TwiceIn(devices, 0, j);
      OnceAmong(marked, m);
      assert false;
    }
  }

  lemma OnceAmong(s: seq<Device>, m: int)
    requires 0 <= m < |s|
    requires forall i | 0 <= i < |s| && i != m :: s[i] != s[m]
    ensures multiset(s)[s[m]] == 1
  {
    assert s == s[..m] + [s[m]] + s[m + 1..];
    assert s[m] !in s[..m] && s[m] !in s[m + 1..];
  }

  lemma {:induction false} CountOnlyFirst(devices: seq<Device>)
    requires forall j | 0 < j < |devices| :: !devices[j].connected
    ensures ConnectCount(devices) == if devices != [] && devices[0].connected then 1 else 0
  {
    if devices != [] {
      CountOnlyFirst(devices[..|devices| - 1]);
    }
  }

  lemma {:induction false} RowsStartWithListed(devices: seq<Device>)
    requires devices != [] && Listed(devices[0])
    ensures var rows := PairRows(devices);
            rows != [] && rows[0] == Row(0, devices[0].ssid, devices[0].rssi, devices[0].connected)
    ensures forall k | 0 < k < |PairRows(devices)| && (forall j | 0 < j < |devices| :: !devices[j].connected) ::
              !PairRows(devices)[k].connected
  {
    if |devices| > 1 {
      RowsStartWithListed(devices[..|devices| - 1]);
    } else {
      assert PairRows(devices[..0]) == [];
    }
  }

  /** The connected network, if it is a saved one, is row 0 of the saved list, the only row shown connected, and
      counted once; otherwise nothing is counted. */
  lemma ConnectedIsRowZero(saved: seq<Saved>, current: Option<string>, scan: seq<ScanEntry>,
                           devices: seq<Device>, joined: seq<Device>)
    requires PairedOutcome(saved, current, devices)
    requires |joined| == |devices| && forall j | 0 <= j < |devices| :: joined[j] == Joined(devices[j], scan)
    ensures var rows := PairRows(joined);
            var isSaved := exists i :: 0 <= i < |saved| && current == Some(saved[i].ssid);
            && ConnectCount(joined) == (if isSaved then 1 else 0)
            && ConnectCount(joined) <= |rows|
            && (isSaved ==> rows != [] && rows[0].connected && current == Some(rows[0].ssid))
            && (isSaved ==> forall k | 0 < k < |rows| :: !rows[k].connected)
  {
    forall j | 0 < j < |devices|
      ensures !devices[j].connected
    {
      if devices[j].connected {
        ConnectedFirst(saved, current, devices, j);
      }
    }
    CountOnlyFirst(joined);
    if devices != [] && devices[0].connected {
      var l := PlaceIn(devices, Marked(saved, current), 0);
      assert current == Some(saved[l].ssid);
    }
    if i :| 0 <= i < |saved| && current == Some(saved[i].ssid) {
      var m := FirstSaved(saved, saved[i].ssid, i);
      assert IsConnected(saved, current, m);
      var l := PlaceIn(Marked(saved, current), devices, m);
      ConnectedFirst(saved, current, devices, l);
      RowsStartWithListed(joined);
    }
  }

  lemma FirstSaved(saved: seq<Saved>, ssid: string, i: int) returns (m: int)
    requires 0 <= i < |saved| && saved[i].ssid == ssid
    ensures 0 <= m <= i && saved[m].ssid == ssid && forall j | 0 <= j < m :: saved[j].ssid != ssid
  {
    m := 0;
    while saved[m].ssid != ssid
      invariant m <= i
      decreases i - m
      invariant forall j | 0 <= j < m :: saved[j].ssid != ssid
    {
      m := m + 1;
    }
  }
}
