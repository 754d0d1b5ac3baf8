/**
 Seek presses on the DLNA page: quick presses in a row make the jump grow. The jump is
 kept in a 32-bit `int`, the two times read from the renderer are cast to `uint32_t`.
 */
module DlnaSeek {
  import opened Common
  import DlnaPlayer

  const BURST_MS := 800
  const STEP_MS := 10000
  const MAX_JUMP_MS := 300000
  const TWO_TO_THE_32 := 0x1_0000_0000

  /** The value a C `int` is left with (two's complement). */
  function ToInt32(x: int): (r: int)
    ensures -0x8000_0000 <= r < 0x8000_0000
    ensures -0x8000_0000 <= x < 0x8000_0000 ==> r == x
  {
    (x + 0x8000_0000) % TWO_TO_THE_32 - 0x8000_0000
  }

  /** The value a `uint32_t` is left with. */
  function ToUint32(x: int): (r: int)
    ensures 0 <= r < TWO_TO_THE_32
    ensures 0 <= x < TWO_TO_THE_32 ==> r == x
  {
    x % TWO_TO_THE_32
  }

  /** One press: its time, its direction, and what the renderer reports at that moment. */
  datatype Press = Press(now: int, forward: bool, duration: int, position: int)

  datatype SeekState = SeekState(seekTime: int, lastOp: int)

  /** A press that does something: the position is before the end. */
  predicate Counts(p: Press) {
    ToUint32(p.position) < ToUint32(p.duration)
  }

  function Grown(s: SeekState, now: int): int {
    if now - s.lastOp < BURST_MS then ToInt32(s.seekTime + STEP_MS) else STEP_MS
  }

  function Jump(seekTime: int): int {
    if seekTime < MAX_JUMP_MS then ToUint32(seekTime) else MAX_JUMP_MS
  }

  function Target(p: Press, jump: int): int {
    var total, cur := ToUint32(p.duration), ToUint32(p.position);
    if p.forward then
      if ToUint32(cur + jump) > total then total else ToUint32(cur + jump)
    else if cur > jump then cur - jump else 0
  }

  /** The state after a press, and the seek it asks the renderer for. */
  function OnPress(s: SeekState, p: Press): (SeekState, Option<int>) {
    if !Counts(p) then (s, None)
    else
      var grown := Grown(s, p.now);
      (SeekState(grown, p.now), Some(Target(p, Jump(grown))))
  }

  function After(s: SeekState, ps: seq<Press>): SeekState
    decreases |ps|
  {
    if ps == [] then s else OnPress(After(s, ps[..|ps| - 1]), ps[|ps| - 1]).0
  }

  /** Length of the burst the last counting press belongs to; presses that do nothing are not counted.
      `last` is the time of the counting press before the sequence. */
  function BurstLength(last: int, length: nat, ps: seq<Press>): (r: (int, nat))
    decreases |ps|
  {
    if ps == [] then (last, length)
    else
      var before := BurstLength(last, length, ps[..|ps| - 1]);
      var p := ps[|ps| - 1];
      if !Counts(p) then before
      else (p.now, if p.now - before.0 < BURST_MS then before.1 + 1 else 1)
  }

  /** The longest burst a 32-bit counter can hold. */
  const LONGEST_BURST := 214748

  predicate BurstsFit(ps: seq<Press>) {
    forall k | 0 <= k <= |ps| :: BurstLength(0, 0, ps[..k]).1 <= LONGEST_BURST
  }

  lemma {:induction false} CounterIsBurst(ps: seq<Press>)
    requires BurstsFit(ps)
    ensures var s := After(SeekState(0, 0), ps);
            var b := BurstLength(0, 0, ps);
            s.lastOp == b.0 && s.seekTime == STEP_MS * b.1
    decreases |ps|
  {
    if ps != [] {
      var front := ps[..|ps| - 1];
      forall k | 0 <= k <= |front|
        ensures BurstLength(0, 0, front[..k]).1 <= LONGEST_BURST
      {
        assert front[..k] == ps[..k];
      }
      assert ps[..|ps|] == ps;
      CounterIsBurst(front);
    }
  }

  /** Over any timed presses whose bursts fit: the jump is the burst length times ten seconds, capped at five
      minutes; the target stays inside the film, moves in the pressed direction and by at most the jump. */
  lemma PressAfterRun(ps: seq<Press>, p: Press)
    requires BurstsFit(ps + [p])
    requires Counts(p) && 0 <= p.position < p.duration < 0x8000_0000
    ensures var n := BurstLength(0, 0, ps + [p]).1;
            var jump := Min(MAX_JUMP_MS, STEP_MS * n);
            var (t, seek) := OnPress(After(SeekState(0, 0), ps), p);
            && n >= 1
            && Jump(t.seekTime) == jump
            && seek.Some?
            && 0 <= seek.value <= p.duration
            && (if p.forward
                then p.position < seek.value <= p.position + jump
                else seek.value <= p.position <= seek.value + jump)
            && (p.forward ==> seek.value == Min(p.duration, p.position + jump))
            && (!p.forward ==> seek.value == Max(0, p.position - jump))
  {
    var all := ps + [p];
    assert all[..|all| - 1] == ps;
    CounterIsBurst(all);
    BurstAtLeastOne(ps, p);
  }

  lemma BurstAtLeastOne(ps: seq<Press>, p: Press)
    requires Counts(p)
    ensures BurstLength(0, 0, ps + [p]).1 >= 1
  {
    assert (ps + [p])[..|ps + [p]| - 1] == ps;
  }

  /** A burst of `n` presses at one instant: bursts of every length exist. */
  function Burst(n: nat, p: Press): (ps: seq<Press>)
    ensures |ps| == n && forall i | 0 <= i < n :: ps[i] == p
  {
    seq(n, i => p)
  }

  lemma {:induction false} BurstOfLength(n: nat, p: Press)
    requires Counts(p) && p.now >= BURST_MS
    ensures BurstLength(0, 0, Burst(n, p)).1 == n
    ensures n > 0 ==> BurstLength(0, 0, Burst(n, p)).0 == p.now
  {
    if n > 0 {
      assert Burst(n, p)[..n - 1] == Burst(n - 1, p);
      BurstOfLength(n - 1, p);
    }
  }

  /** Every press that does something jumps by ten seconds times its burst's length, capped at five minutes. */
  ghost predicate JumpLaw(ps: seq<Press>) {
    forall k | 1 <= k <= |ps| && Counts(ps[k - 1]) ::
      Jump(After(SeekState(0, 0), ps[..k]).seekTime) == Min(MAX_JUMP_MS, STEP_MS * BurstLength(0, 0, ps[..k]).1)
  }

  lemma PrefixFits(ps: seq<Press>, k: nat)
    requires k <= |ps| && BurstsFit(ps)
    ensures BurstsFit(ps[..k])
  {
    forall j | 0 <= j <= k
      ensures BurstLength(0, 0, ps[..k][..j]).1 <= LONGEST_BURST
    {
      assert ps[..k][..j] == ps[..j];
    }
  }

  /** The first press whose burst is too long. */
  lemma FirstOverflow(ps: seq<Press>) returns (k: nat)
    requires !BurstsFit(ps)
    ensures 1 <= k <= |ps| && BurstsFit(ps[..k - 1]) && BurstLength(0, 0, ps[..k]).1 > LONGEST_BURST
  {
    k := 0;
    while BurstLength(0, 0, ps[..k]).1 <= LONGEST_BURST
      invariant k <= |ps|
      invariant forall j | 0 <= j < k :: BurstLength(0, 0, ps[..j]).1 <= LONGEST_BURST
      decreases |ps| - k
    {
      k := k + 1;
    }
    var front := ps[..k - 1];
    forall j | 0 <= j <= |front|
      ensures BurstLength(0, 0, front[..j]).1 <= LONGEST_BURST
    {
      assert front[..j] == ps[..j];
    }
  }

  /** The law breaks at that very press: the 32-bit counter wraps and the jump is no longer capped. */
  lemma OverflowBreaks(ps: seq<Press>, k: nat)
    requires 1 <= k <= |ps| && BurstsFit(ps[..k - 1]) && BurstLength(0, 0, ps[..k]).1 > LONGEST_BURST
    ensures Counts(ps[k - 1])
    ensures Jump(After(SeekState(0, 0), ps[..k]).seekTime) > MAX_JUMP_MS
  {
    var front := ps[..k - 1];
    assert ps[..k][..k - 1] == front;
    assert front[..|front|] == front;
    CounterIsBurst(front);
  }

  /** The jump law holds for every press of a run exactly when no burst of the run is longer than the 32-bit
      counter allows. */
  lemma JumpLawIff(ps: seq<Press>)
    ensures JumpLaw(ps) <==> BurstsFit(ps)
  {
    if BurstsFit(ps) {
      forall k | 1 <= k <= |ps| && Counts(ps[k - 1])
        ensures Jump(After(SeekState(0, 0), ps[..k]).seekTime)
             == Min(MAX_JUMP_MS, STEP_MS * BurstLength(0, 0, ps[..k]).1)
      {
        PrefixFits(ps, k);
        CounterIsBurst(ps[..k]);
      }
    } else {
      var k := FirstOverflow(ps);
      OverflowBreaks(ps, k);
    }
  }

  /** While the advert is pending both times read -1, so a press changes nothing and seeks nowhere. */
  lemma NoSeekDuringAdvert(s: SeekState, p: DlnaPlayer.Playback, g: DlnaPlayer.Programme,
                           now: int, forward: bool, reported: int)
    requires DlnaPlayer.AdvertPending(g)
    ensures var press := Press(now, forward, DlnaPlayer.GetDuration(p, g, reported).1,
                               DlnaPlayer.GetPosition(p, g, reported).1);
            OnPress(s, press) == (s, None)
  {
  }

  /** The two reads of one press take no lock, so the player and the advert may change between them. Each answers
      for its own instant: the duration at the first, the position at the second. */
  function PressAcross(now: int, forward: bool,
                       p1: DlnaPlayer.Playback, g1: DlnaPlayer.Programme, reported1: int,
                       p2: DlnaPlayer.Playback, g2: DlnaPlayer.Programme, reported2: int): Press {
    Press(now, forward, DlnaPlayer.GetDuration(p1, g1, reported1).1, DlnaPlayer.GetPosition(p2, g2, reported2).1)
  }

  /** A press whose first read meets the pending advert seeks nowhere exactly when the second read meets it too. If
      the advert ends in between, the duration reads -1, which is 4294967295 unsigned, and a seek is issued. */
  lemma AdvertSeekIff(s: SeekState, now: int, forward: bool,
                      p1: DlnaPlayer.Playback, g1: DlnaPlayer.Programme, reported1: int,
                      p2: DlnaPlayer.Playback, g2: DlnaPlayer.Programme, reported2: int)
    requires DlnaPlayer.AdvertPending(g1)
    requires !DlnaPlayer.AdvertPending(g2) ==> 0 <= DlnaPlayer.GetPosition(p2, g2, reported2).1 < 0x8000_0000
    ensures var press := PressAcross(now, forward, p1, g1, reported1, p2, g2, reported2);
            && (OnPress(s, press).1 == None <==> DlnaPlayer.AdvertPending(g2))
            && (OnPress(s, press).1 == None ==> OnPress(s, press).0 == s)
  {
  }

  /** An advert set between the reads stops the press. */
  lemma LateAdvertStopsPress(s: SeekState, now: int, forward: bool,
                             p1: DlnaPlayer.Playback, g1: DlnaPlayer.Programme, reported1: int,
                             p2: DlnaPlayer.Playback, g2: DlnaPlayer.Programme, reported2: int)
    requires DlnaPlayer.AdvertPending(g2)
    ensures OnPress(s, PressAcross(now, forward, p1, g1, reported1, p2, g2, reported2)) == (s, None)
  {
  }

  /** The two statics of the page and the press handler. */
  class SeekControl {
    var burst: int
    var lastSeekOpTime: int

    ghost function View(): SeekState
      reads this
    {
      SeekState(burst, lastSeekOpTime)
    }

    constructor ()
      ensures View() == SeekState(0, 0)
    {
      burst, lastSeekOpTime := 0, 0;
    }

    method SetSeek(p: Press) returns (seek: Option<int>)
      modifies this
      ensures (View(), seek) == OnPress(old(View()), p)
    {
      var totalTime := ToUint32(p.duration);
      var curPlayTime := ToUint32(p.position);
      if curPlayTime >= totalTime {
        return None;
      }
      if p.now - lastSeekOpTime < BURST_MS {
        burst := ToInt32(burst + STEP_MS);
      } else {
        burst := STEP_MS;
      }
      lastSeekOpTime := p.now;
      var jumpInterval := MAX_JUMP_MS;
      if burst < MAX_JUMP_MS {
        jumpInterval := ToUint32(burst);
      }
      var seekTime := 0;
      if p.forward {
        if ToUint32(curPlayTime + jumpInterval) > totalTime {
          seekTime := totalTime;
        } else {
          seekTime := ToUint32(curPlayTime + jumpInterval);
        }
      } else if curPlayTime > jumpInterval {
        seekTime := curPlayTime - jumpInterval;
      }
      return Some(seekTime);
    }
  }
}
