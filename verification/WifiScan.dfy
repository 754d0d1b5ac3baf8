/**
 The Wi-Fi scan: results are read into a fixed array, de-duplicated by SSID in place with
 the help of a side table, and sorted by signal strength.

 An SSID is at most 32 octets (section 9.4.2.2 of IEEE 802.11-2020).
 */
module WifiScan {
  import opened Common
  import Qsort

  const SCAN_LIST_LEN := 100
  const SSID_MAX := 32

  datatype ScanEntry = ScanEntry(ssid: string, bssid: string, rssi: int, freq: int, keyMgmt: int)

  datatype TableEntry = TableEntry(used: bool, ssid: string, bssid: string)

  const ZERO_ENTRY := ScanEntry("", "", 0, 0, 0)

  function RssiKey(e: ScanEntry): int {
    e.rssi
  }

  predicate ShortSsids(s: seq<ScanEntry>) {
    forall i | 0 <= i < |s| :: |s[i].ssid| <= SSID_MAX
  }

  // ---------------------------------------------------------------- keep the first of each SSID

  predicate HasSsid(s: seq<ScanEntry>, ssid: string) {
    exists i :: 0 <= i < |s| && s[i].ssid == ssid
  }

  function KeepFirst(s: seq<ScanEntry>): (r: seq<ScanEntry>)
    ensures |r| <= |s|
  {
    if s == [] then []
    else
      var kept := KeepFirst(s[..|s| - 1]);
      if HasSsid(kept, s[|s| - 1].ssid) then kept else kept + [s[|s| - 1]]
  }

  lemma KeepFirstNext(raw: seq<ScanEntry>, i: nat)
    requires i < |raw|
    ensures KeepFirst(raw[..i + 1]) ==
            KeepFirst(raw[..i]) + if HasSsid(KeepFirst(raw[..i]), raw[i].ssid) then [] else [raw[i]]
  {
    assert raw[..i + 1][..i] == raw[..i];
  }

  ghost predicate DistinctSsids(s: seq<ScanEntry>) {
    forall i, j | 0 <= i < j < |s| :: s[i].ssid != s[j].ssid
  }

  /** Entry i is the first of the list with its SSID. */
  predicate IsFirst(s: seq<ScanEntry>, i: int)
    requires 0 <= i < |s|
  {
    forall j | 0 <= j < i :: s[j].ssid != s[i].ssid
  }

  lemma HasSsidSnoc(s: seq<ScanEntry>, e: ScanEntry, ssid: string)
    ensures HasSsid(s + [e], ssid) <==> HasSsid(s, ssid) || e.ssid == ssid
  {
    if i :| 0 <= i < |s| && s[i].ssid == ssid {
      assert (s + [e])[i].ssid == ssid;
    }
    if e.ssid == ssid {
      assert (s + [e])[|s|].ssid == ssid;
    }
  }

  lemma {:induction false} KeepFirstSameSsids(s: seq<ScanEntry>, ssid: string)
    ensures HasSsid(KeepFirst(s), ssid) <==> HasSsid(s, ssid)
  {
    if s != [] {
      var front, last := s[..|s| - 1], s[|s| - 1];
      assert s == front + [last];
      KeepFirstSameSsids(front, ssid);
      HasSsidSnoc(front, last, ssid);
      HasSsidSnoc(KeepFirst(front), last, ssid);
    }
  }

  lemma FirstInFront(s: seq<ScanEntry>, i: int)
    requires 0 <= i < |s| - 1
    ensures IsFirst(s[..|s| - 1], i) <==> IsFirst(s, i)
  {
    assert forall j | 0 <= j <= i :: s[..|s| - 1][j] == s[j];
  }

  lemma LastIsFirstIff(s: seq<ScanEntry>)
    requires s != []
    ensures IsFirst(s, |s| - 1) <==> !HasSsid(s[..|s| - 1], s[|s| - 1].ssid)
  {
    var front := s[..|s| - 1];
    assert forall j | 0 <= j < |front| :: front[j] == s[j];
  }

  /** The kept entries are exactly the first occurrences, in their order: where[k] is the place of the k-th. */
  lemma {:induction false} KeptAreFirsts(s: seq<ScanEntry>) returns (where: seq<int>)
    ensures var kept := KeepFirst(s);
            && |where| == |kept|
            && (forall k | 0 <= k < |kept| :: 0 <= where[k] < |s| && s[where[k]] == kept[k] && IsFirst(s, where[k]))
            && (forall k, l | 0 <= k < l < |kept| :: where[k] < where[l])
            && (forall i | 0 <= i < |s| && IsFirst(s, i) :: i in where)
  {
    where := [];
    if s != [] {
      var front, last := s[..|s| - 1], s[|s| - 1];
      where := KeptAreFirsts(front);
      KeepFirstSameSsids(front, last.ssid);
      forall i | 0 <= i < |front|
        ensures IsFirst(front, i) <==> IsFirst(s, i)
      {
        FirstInFront(s, i);
      }
      LastIsFirstIff(s);
      if !HasSsid(front, last.ssid) {
        where := where + [|s| - 1];
      }
    }
  }

  lemma KeptAreDistinct(s: seq<ScanEntry>)
    ensures DistinctSsids(KeepFirst(s))
  {
    var where := KeptAreFirsts(s);
    var kept := KeepFirst(s);
    forall k, l | 0 <= k < l < |kept|
      ensures kept[k].ssid != kept[l].ssid
    {
      assert IsFirst(s, where[l]) && where[k] < where[l];
      assert s[where[k]] == kept[k] && s[where[l]] == kept[l];
    }
  }

  /** What a scan of `raw` may leave behind. */
  ghost predicate ScanOutcome(raw: seq<ScanEntry>, final: seq<ScanEntry>) {
    multiset(final) == multiset(KeepFirst(raw)) && Qsort.Descending(final, RssiKey)
  }

  lemma OnceInDistinct(s: seq<ScanEntry>, e: ScanEntry)
    requires DistinctSsids(s)
    ensures multiset(s)[e] <= 1
  {
    if s != [] {
      var front := s[..|s| - 1];
      assert s == front + [s[|s| - 1]];
      OnceInDistinct(front, e);
      if e == s[|s| - 1] {
        forall i | 0 <= i < |front|
          ensures front[i] != e
        {
          assert s[i].ssid != s[|s| - 1].ssid;
        }
        assert e !in front;
      }
    }
  }

  lemma OutcomeDistinct(raw: seq<ScanEntry>, final: seq<ScanEntry>, i: int, j: int)
    requires ScanOutcome(raw, final) && 0 <= i < j < |final|
    ensures final[i].ssid != final[j].ssid
  {
    var kept := KeepFirst(raw);
    KeptAreDistinct(raw);
    var l := PlaceIn(final, kept, i);
    var m := PlaceIn(final, kept, j);
    if final[i] == final[j] {
      OnceInDistinct(kept, final[i]);
      TwiceIn(final, i, j);
    } else if l < m {
      assert kept[l].ssid != kept[m].ssid;
    } else {
      assert kept[m].ssid != kept[l].ssid;
    }
  }

  lemma OutcomeSameSsids(raw: seq<ScanEntry>, final: seq<ScanEntry>, ssid: string)
    requires ScanOutcome(raw, final)
    ensures HasSsid(final, ssid) <==> HasSsid(raw, ssid)
  {
    var kept := KeepFirst(raw);
    KeepFirstSameSsids(raw, ssid);
    if k :| 0 <= k < |final| && final[k].ssid == ssid {
      var l := PlaceIn(final, kept, k);
      assert kept[l].ssid == ssid;
    }
    if l :| 0 <= l < |kept| && kept[l].ssid == ssid {
      var k := PlaceIn(kept, final, l);
      assert final[k].ssid == ssid;
    }
  }

  /** The entry is the first one heard with its SSID. */
  predicate HeardFirst(raw: seq<ScanEntry>, e: ScanEntry) {
    exists i :: 0 <= i < |raw| && raw[i] == e && IsFirst(raw, i)
  }

  lemma OutcomeHeardFirst(raw: seq<ScanEntry>, final: seq<ScanEntry>, k: int)
    requires ScanOutcome(raw, final) && 0 <= k < |final|
    ensures HeardFirst(raw, final[k])
  {
    var where := KeptAreFirsts(raw);
    var l := PlaceIn(final, KeepFirst(raw), k);
    assert raw[where[l]] == final[k] && IsFirst(raw, where[l]);
  }

  /** The list a user sees: one entry per SSID heard, the first one heard, none missing, strongest first. */
  lemma ScanSound(raw: seq<ScanEntry>, final: seq<ScanEntry>)
    requires ScanOutcome(raw, final)
    ensures DistinctSsids(final)
    ensures forall ssid :: HasSsid(final, ssid) <==> HasSsid(raw, ssid)
    ensures forall k | 0 <= k < |final| :: HeardFirst(raw, final[k])
    ensures forall k, l | 0 <= k < l < |final| :: final[k].rssi >= final[l].rssi
  {
    forall i, j | 0 <= i < j < |final|
      ensures final[i].ssid != final[j].ssid
    {
      OutcomeDistinct(raw, final, i, j);
    }
    forall ssid
      ensures HasSsid(final, ssid) <==> HasSsid(raw, ssid)
    {
      OutcomeSameSsids(raw, final, ssid);
    }
    forall k | 0 <= k < |final|
      ensures HeardFirst(raw, final[k])
    {
      OutcomeHeardFirst(raw, final, k);
    }
    forall k, l | 0 <= k < l < |final|
      ensures final[k].rssi >= final[l].rssi
    {
      assert RssiKey(final[k]) >= RssiKey(final[l]);
    }
  }

  // ---------------------------------------------------------------- the arrays themselves

  /** The table entry the source writes for a kept result. */
  function Mark(e: ScanEntry): TableEntry {
    TableEntry(true, e.ssid[..Min(|e.ssid|, SSID_MAX)], e.bssid)
  }

  class ScanStore {
    const results: array<ScanEntry>
    const table: array<TableEntry>
    var resultsNum: nat

    ghost predicate Valid()
      reads this
    {
      results.Length == SCAN_LIST_LEN && table.Length == SCAN_LIST_LEN && resultsNum <= SCAN_LIST_LEN
    }

    /** The first |kept| slots of the table hold `kept`, the others are free. */
    ghost predicate TableHolds(kept: seq<ScanEntry>)
      reads table
    {
      && |kept| <= table.Length
      && (forall i | 0 <= i < |kept| :: table[i] == Mark(kept[i]))
      && (forall i | |kept| <= i < table.Length :: !table[i].used)
    }

    constructor ()
      ensures Valid() && fresh(results) && fresh(table) && resultsNum == 0
    {
      results := new ScanEntry[SCAN_LIST_LEN](_ => ZERO_ENTRY);
      table := new TableEntry[SCAN_LIST_LEN](_ => TableEntry(false, "", ""));
      resultsNum := 0;
    }

    method TableInit()
      modifies table
      ensures TableHolds([])
    {
      for i := 0 to table.Length
        invariant forall j | 0 <= j < i :: !table[j].used
      {
        table[i] := table[i].(used := false);
      }
    }

    method SsidExists(ssid: string, ghost kept: seq<ScanEntry>) returns (found: bool)
      requires TableHolds(kept) && ShortSsids(kept)
      ensures found <==> HasSsid(kept, ssid)
    {
      for i := 0 to table.Length
        invariant forall j | 0 <= j < i && j < |kept| :: kept[j].ssid != ssid
      {
        if table[i].used && table[i].ssid == ssid {
          assert kept[i].ssid == ssid;
          return true;
        }
      }
      return false;
    }

    /** There is always a free slot while fewer entries are kept than the table holds. */
    method SsidAdd(e: ScanEntry, ghost kept: seq<ScanEntry>)
      requires TableHolds(kept) && |kept| < table.Length
      modifies table
      ensures TableHolds(kept + [e])
    {
      for i := 0 to table.Length
        invariant i <= |kept|
        invariant TableHolds(kept)
      {
        if !table[i].used {
          table[i] := TableEntry(true, e.ssid[..Min(|e.ssid|, SSID_MAX)], e.bssid);
          return;
        }
      }
    }

    /** Reads and writes the same array: the kept entries overwrite the front while the rest is still to be
        read, and nothing unread is lost. */
    method Compact(n: nat) returns (unique: nat)
      requires Valid() && n <= SCAN_LIST_LEN
      requires ShortSsids(results[..n])
      modifies results, table
      ensures unique <= n
      ensures results[..unique] == KeepFirst(old(results[..n]))
      ensures results[unique..] == old(results[unique..])
      ensures TableHolds(KeepFirst(old(results[..n])))
    {
      ghost var raw := results[..];
      assert raw[..n] == results[..n];
      TableInit();
      unique := 0;
      for i := 0 to n
        invariant unique <= i
        invariant results[..unique] == KeepFirst(raw[..i])
        invariant forall k | unique <= k < results.Length :: results[k] == raw[k]
        invariant TableHolds(KeepFirst(raw[..i])) && ShortSsids(KeepFirst(raw[..i]))
      {
        KeepFirstNext(raw, i);
        assert |raw[..n][i].ssid| <= SSID_MAX;
        unique := Consider(i, unique, KeepFirst(raw[..i]));
      }
      assert raw[..n] == old(results[..n]);
    }

    /** The loop body of the compaction: keep the i-th result if its SSID is new. */
    method Consider(i: nat, unique: nat, ghost kept: seq<ScanEntry>) returns (next: nat)
      requires unique <= i < results.Length && results[..unique] == kept && |results[i].ssid| <= SSID_MAX
      requires |kept| < table.Length && TableHolds(kept) && ShortSsids(kept)
      modifies results, table
      ensures next == if HasSsid(kept, old(results[i]).ssid) then unique else unique + 1
      ensures results[..next] == kept + if HasSsid(kept, old(results[i]).ssid) then [] else [old(results[i])]
      ensures forall k | next <= k < results.Length :: results[k] == old(results[k])
      ensures TableHolds(results[..next]) && ShortSsids(results[..next])
    {
      next := unique;
      var known := SsidExists(results[i].ssid, kept);
      if !known {
        SsidAdd(results[i], kept);
        results[unique] := results[i];
        next := unique + 1;
        assert results[..next] == kept + [old(results[i])];
      }
    }

    /** One scan. `heard` is what the library reports; only the first 100 fit. */
    method Scan(ok: bool, heard: seq<ScanEntry>) returns (ret: int)
      requires Valid() && ShortSsids(heard)
      modifies `resultsNum, results, table
      ensures Valid()
      ensures ret == if ok then 0 else -1
      ensures !ok ==> resultsNum == 0
      ensures ok ==> ScanOutcome(heard[..Min(|heard|, SCAN_LIST_LEN)], results[..resultsNum])
    {
      for i := 0 to SCAN_LIST_LEN
        invariant resultsNum == old(resultsNum)
      {
        results[i] := ZERO_ENTRY;
      }
      if !ok {
        resultsNum := 0;
        return -1;
      }
      var n := Min(|heard|, SCAN_LIST_LEN);
      for i := 0 to n
        invariant resultsNum == old(resultsNum) && results[..i] == heard[..i]
      {
        results[i] := heard[i];
      }
      var unique := Compact(n);
      ghost var kept := results[..unique];
      Qsort.SortDescending(results, unique, RssiKey);
      resultsNum := unique;
      return 0;
    }
  }
}
