/**
 A Bluetooth scan: a callback adds discovered devices to a list under a mutex, and the scan
 thread walks the list again and again, announcing to the page each device it has not
 announced yet.
 */
module BtScan {
  import opened Common

  datatype Device = Device(addr: string, name: string)

  /** What the page is told: the row, and the name to show. */
  datatype Announcement = Announcement(id: nat, name: string, addr: string)

  /** `added` counts announcements; `sent` is what was enqueued for the page. */
  datatype Scan = Scan(devices: seq<Device>, added: nat, sent: seq<Announcement>)

  // ---------------------------------------------------------------- operations

  predicate Known(devices: seq<Device>, addr: string) {
    exists i | 0 <= i < |devices| :: devices[i].addr == addr
  }

  function AddDevice(devices: seq<Device>, d: Device): seq<Device> {
    if Known(devices, d.addr) then devices else devices + [d]
  }

  /** A device without a name is shown by its address. */
  function Announce(id: nat, d: Device): Announcement {
    Announcement(id, if d.name == " " then d.addr else d.name, d.addr)
  }

  /** The scan thread at list position `i`; it leaves the list early before position `stop`. */
  function Walk(s: Scan, i: nat, stop: nat): Scan
    decreases |s.devices| - i
  {
    if i >= |s.devices| || i >= stop then s
    else if i == s.added then
      Walk(s.(added := s.added + 1, sent := s.sent + [Announce(s.added, s.devices[i])]), i + 1, stop)
    else Walk(s, i + 1, stop)
  }

  datatype Event = Found(d: Device) | Pass(stop: nat)

  function Step(s: Scan, e: Event): Scan {
    match e
    case Found(d) => s.(devices := AddDevice(s.devices, d))
    case Pass(stop) => Walk(s, 0, stop)
  }

  function Run(s: Scan, es: seq<Event>): Scan
    decreases |es|
  {
    if es == [] then s else Run(Step(s, es[0]), es[1..])
  }

  /** A scan begins with whatever earlier scans left in the list. */
  function Begin(devices: seq<Device>): Scan {
    Scan(devices, 0, [])
  }

  // ---------------------------------------------------------------- announcements

  /** The first `n` devices, each announced once with its own index. */
  function Rows(devices: seq<Device>, n: nat): seq<Announcement>
    requires n <= |devices|
  {
    if n == 0 then [] else Rows(devices, n - 1) + [Announce(n - 1, devices[n - 1])]
  }

  /** The announcement gives the row, the device's address, and its name, or for one without a name its address. */
  predicate Tells(a: Announcement, row: int, d: Device) {
    a.id == row && a.addr == d.addr && (d.name != " " ==> a.name == d.name) && (d.name == " " ==> a.name == d.addr)
  }

  ghost predicate DistinctAddresses(devices: seq<Device>) {
    forall i, j | 0 <= i < j < |devices| :: devices[i].addr != devices[j].addr
  }

  predicate Inv(s: Scan) {
    s.added <= |s.devices| && s.sent == Rows(s.devices, s.added)
  }

  lemma {:induction false} RowsShape(devices: seq<Device>, n: nat)
    requires n <= |devices|
    ensures |Rows(devices, n)| == n && forall i | 0 <= i < n :: Rows(devices, n)[i] == Announce(i, devices[i])
  {
    if n > 0 {
      RowsShape(devices, n - 1);
    }
  }

  lemma {:induction false} RowsGrow(devices: seq<Device>, d: Device, n: nat)
    requires n <= |devices|
    ensures Rows(devices + [d], n) == Rows(devices, n)
  {
    if n > 0 {
      RowsGrow(devices, d, n - 1);
    }
  }

  /** One walk announces exactly the devices between the last announcement and where it stops. */
  lemma {:induction false} WalkAnnounces(s: Scan, i: nat, stop: nat)
    requires Inv(s) && i <= s.added
    ensures var t := Walk(s, i, stop);
            && Inv(t) && t.devices == s.devices
            && t.added == Max(s.added, Min(stop, |s.devices|))
    decreases |s.devices| - i
  {
    if i < |s.devices| && i < stop {
      if i == s.added {
        WalkAnnounces(s.(added := s.added + 1, sent := s.sent + [Announce(s.added, s.devices[i])]), i + 1, stop);
      } else {
        WalkAnnounces(s, i + 1, stop);
      }
    }
  }

  lemma AddKeepsDistinct(devices: seq<Device>, d: Device)
    requires DistinctAddresses(devices)
    ensures DistinctAddresses(AddDevice(devices, d)) && devices <= AddDevice(devices, d)
  {
  }

  lemma StepKeeps(s: Scan, e: Event)
    requires Inv(s) && DistinctAddresses(s.devices)
    ensures var t := Step(s, e);
            && Inv(t) && DistinctAddresses(t.devices)
            && s.devices <= t.devices && s.added <= t.added
            && (e == Pass(|s.devices|) ==> t.added == |t.devices|)
  {
    match e
    case Found(d) =>
      AddKeepsDistinct(s.devices, d);
      if !Known(s.devices, d.addr) {
        RowsGrow(s.devices, d, s.added);
      }
    case Pass(stop) => WalkAnnounces(s, 0, stop);
  }

  lemma {:induction false} RunKeeps(s: Scan, es: seq<Event>)
    requires Inv(s) && DistinctAddresses(s.devices)
    ensures var t := Run(s, es);
            Inv(t) && DistinctAddresses(t.devices) && s.devices <= t.devices && s.added <= t.added
    decreases |es|
  {
    if es != [] {
      StepKeeps(s, es[0]);
      RunKeeps(Step(s, es[0]), es[1..]);
    }
  }

  /** A device found is in the list from then on, under the name of its first discovery; nothing else joins it. */
  lemma FoundJoins(s: Scan, d: Device)
    ensures var t := Step(s, Found(d));
            && Known(t.devices, d.addr)
            && (if Known(s.devices, d.addr) then t.devices == s.devices else t.devices == s.devices + [d])
            && t.added == s.added && t.sent == s.sent
  {
    if !Known(s.devices, d.addr) {
      assert (s.devices + [d])[|s.devices|].addr == d.addr;
    }
  }

  lemma KnownStays(devices: seq<Device>, longer: seq<Device>, addr: string)
    requires Known(devices, addr) && devices <= longer
    ensures Known(longer, addr)
  {
    var i :| 0 <= i < |devices| && devices[i].addr == addr;
    assert longer[i].addr == addr;
  }

  /** For any interleaving of discoveries and walks, complete or cut short: the page was told of the first so many
      devices of the list, in order, each exactly once, with its list index as row, and under distinct addresses. */
  lemma AnnouncedOnce(devices: seq<Device>, es: seq<Event>)
    requires DistinctAddresses(devices)
    ensures var t := Run(Begin(devices), es);
            && |t.sent| == t.added <= |t.devices|
            && (forall i | 0 <= i < |t.sent| :: Tells(t.sent[i], i, t.devices[i]))
            && (forall i, j | 0 <= i < j < |t.sent| :: t.sent[i].addr != t.sent[j].addr)
  {
    RunKeeps(Begin(devices), es);
    var t := Run(Begin(devices), es);
    RowsShape(t.devices, t.added);
  }

  lemma {:induction false} RunAppend(s: Scan, first: seq<Event>, second: seq<Event>)
    ensures Run(s, first + second) == Run(Run(s, first), second)
    decreases |first|
  {
    if first == [] {
      assert first + second == second;
    } else {
      assert (first + second)[1..] == first[1..] + second;
      RunAppend(Step(s, first[0]), first[1..], second);
    }
  }

  /** Nothing found is lost: once a walk has gone through the whole list, every device in it has been announced,
      and announcements already made never change. */
  lemma CompletePassCatchesUp(devices: seq<Device>, es: seq<Event>)
    requires DistinctAddresses(devices)
    ensures var s := Run(Begin(devices), es);
            var t := Run(Begin(devices), es + [Pass(|s.devices|)]);
            && t.devices == s.devices && |t.sent| == |t.devices| && s.sent <= t.sent
            && forall k | 0 <= k < |t.devices| :: Tells(t.sent[k], k, t.devices[k])
  {
    var s := Run(Begin(devices), es);
    var pass := Pass(|s.devices|);
    RunKeeps(Begin(devices), es);
    RunAppend(Begin(devices), es, [pass]);
    var t := Run(Begin(devices), es + [pass]);
    assert t == Step(s, pass);
    WalkAnnounces(s, 0, |s.devices|);
    RowsShape(s.devices, s.added);
    RowsShape(t.devices, t.added);
  }

  /** Whatever is found is announced: over every run in which a device is found, at whatever moment, a complete walk
      at the end leaves an announcement of its address. */
  lemma FoundIsAnnounced(devices: seq<Device>, before: seq<Event>, d: Device, after: seq<Event>)
    requires DistinctAddresses(devices)
    ensures var es := before + [Found(d)] + after;
            var t := Run(Begin(devices), es + [Pass(|Run(Begin(devices), es).devices|)]);
            exists k :: 0 <= k < |t.sent| && t.sent[k].addr == d.addr
  {
    var es := before + [Found(d)] + after;
    var u := Run(Begin(devices), before);
    var found := Step(u, Found(d));
    RunKeeps(Begin(devices), before);
    RunAppend(Begin(devices), before + [Found(d)], after);
    RunAppend(Begin(devices), before, [Found(d)]);
    assert Run(u, [Found(d)]) == found;
    StepKeeps(u, Found(d));
    RunKeeps(found, after);
    FoundJoins(u, d);
    KnownStays(found.devices, Run(found, after).devices, d.addr);
    CompletePassCatchesUp(devices, es);
    var t := Run(Begin(devices), es + [Pass(|Run(Begin(devices), es).devices|)]);
    var k :| 0 <= k < |t.devices| && t.devices[k].addr == d.addr;
    assert Tells(t.sent[k], k, t.devices[k]);
  }

  // ---------------------------------------------------------------- the list and the thread

  class Scanner {
    var devices: seq<Device>
    var addCount: nat
    var sent: seq<Announcement>

    ghost function View(): Scan
      reads this
    {
      Scan(devices, addCount, sent)
    }

    constructor (left: seq<Device>)
      ensures View() == Begin(left)
    {
      devices, addCount, sent := left, 0, [];
    }

    method FindDevice(addr: string) returns (found: bool)
      ensures found <==> Known(devices, addr)
    {
      found := false;
      for i := 0 to |devices|
        invariant !Known(devices[..i], addr)
      {
        if devices[i].addr == addr {
          return true;
        }
      }
    }

    /** The discovery callback, in one critical section. */
    method DevAdd(d: Device)
      modifies `devices
      ensures View() == Step(old(View()), Found(d))
    {
      var found := FindDevice(d.addr);
      if found {
        return;
      }
      devices := devices + [d];
    }

    /** One turn of the scan thread, in one critical section. `stop` is the first node at which the thread notices
        that it should end. */
    method ScanPass(stop: nat)
      modifies `addCount, `sent
      ensures View() == Step(old(View()), Pass(stop))
    {
      var scanCount := 0;
      while scanCount < |devices|
        invariant scanCount <= |devices|
        invariant Walk(View(), scanCount, stop) == Walk(old(View()), 0, stop)
      {
        if scanCount >= stop {
          break;
        }
        if scanCount == addCount {
          sent := sent + [Announce(addCount, devices[scanCount])];
          addCount := addCount + 1;
        }
        scanCount := scanCount + 1;
      }
    }
  }
}
