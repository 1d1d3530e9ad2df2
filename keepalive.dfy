/**
 * The keepalive rule of the run loop (uhome/uhome.py:20-21, 32-39): a ping
 * is due when strictly more than `ping_interval` seconds have passed since
 * the last one. Time is an integer number of seconds.
 */
module Keepalive {

  /**
   * `int(keepalive * 0.8)`: four fifths of the client's keepalive, rounded
   * down; it stays below the keepalive so the broker hears from us in time.
   */
  function PingInterval(keepalive: nat): (r: nat)
    ensures 5 * r <= 4 * keepalive < 5 * r + 5
    ensures keepalive > 0 ==> r < keepalive
  {
    keepalive * 4 / 5
  }

  /** Strictly more than `interval` seconds since the last ping; exactly `interval` is not enough. */
  predicate PingDue(now: int, lastPing: int, interval: int): (due: bool)
    ensures now == lastPing + interval ==> !due
    ensures now == lastPing + interval + 1 ==> due
    ensures due && interval >= 0 ==> now > lastPing
  {
    now - lastPing > interval
  }

  /** The time of the last ping after one step of the run loop at `now`. */
  function NextLastPing(now: int, lastPing: int, interval: int): (r: int)
    ensures r == now || r == lastPing
    ensures r != lastPing ==> r - lastPing > interval
    ensures interval >= 0 ==> !PingDue(now, r, interval)
  {
    if PingDue(now, lastPing, interval) then now else lastPing
  }

  /** The times at which pings go out when the loop runs at each of `times` in turn. */
  function PingTimes(lastPing: int, interval: int, times: seq<int>): (ps: seq<int>)
    ensures |ps| <= |times|
    ensures times != [] && PingDue(times[0], lastPing, interval) ==> ps != [] && ps[0] == times[0]
    decreases |times|
  {
    if times == [] then []
    else
      (if PingDue(times[0], lastPing, interval) then [times[0]] else [])
      + PingTimes(NextLastPing(times[0], lastPing, interval), interval, times[1..])
  }

  /**
   * Pings are spaced: the first comes more than `interval` after the last
   * ping before the run, each later one more than `interval` after the
   * previous one, and each is the time of some step of the run.
   */
  lemma {:induction false} PingsSpaced(lastPing: int, interval: int, times: seq<int>)
    ensures var ps := PingTimes(lastPing, interval, times);
      && |ps| <= |times|
      && (ps != [] ==> ps[0] - lastPing > interval)
      && (forall i :: 0 < i < |ps| ==> ps[i] - ps[i - 1] > interval)
      && (forall i :: 0 <= i < |ps| ==> ps[i] in times)
    decreases |times|
  {
    if times != [] {
      var next := NextLastPing(times[0], lastPing, interval);
      var rest := PingTimes(next, interval, times[1..]);
      PingsSpaced(next, interval, times[1..]);
      assert forall t :: t in times[1..] ==> t in times;
    }
  }

  /** A run during which no step finds a ping due from `lastPing` sends no ping. */
  lemma {:induction false} QuietRunSendsNoPing(lastPing: int, interval: int, times: seq<int>)
    requires forall i :: 0 <= i < |times| ==> !PingDue(times[i], lastPing, interval)
    ensures PingTimes(lastPing, interval, times) == []
    decreases |times|
  {
    if times != [] {
      QuietRunSendsNoPing(lastPing, interval, times[1..]);
    }
  }

  /** However often the loop runs inside one window of `interval` seconds, it pings at most once. */
  lemma {:induction false} AtMostOnePingPerWindow(lastPing: int, interval: int, times: seq<int>, start: int)
    requires forall i :: 0 <= i < |times| ==> start <= times[i] <= start + interval
    ensures |PingTimes(lastPing, interval, times)| <= 1
    decreases |times|
  {
    if times != [] {
      if PingDue(times[0], lastPing, interval) {
        QuietRunSendsNoPing(times[0], interval, times[1..]);
      } else {
        AtMostOnePingPerWindow(lastPing, interval, times[1..], start);
      }
    }
  }
}
