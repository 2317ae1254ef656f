/** The two-part autonomous-reply throttle: a strict cooldown since the last send and an
    inclusive count of sends inside a trailing window. */
module RateLimit {

  /** `[t for t in stamps if now - t <= window]`: the send times still inside the window,
      in their original order. */
  function InWindow(stamps: seq<int>, now: int, window: int): (r: seq<int>)
    ensures |r| <= |stamps|
    ensures forall t :: multiset(r)[t] == if now - t <= window then multiset(stamps)[t] else 0
    decreases |stamps|
  {
    if stamps == [] then []
    else
      var init := stamps[..|stamps| - 1];
      var t := stamps[|stamps| - 1];
      assert stamps == init + [t];
      InWindow(init, now, window) + (if now - t <= window then [t] else [])
  }

  /** The positions of the send times inside the window. */
  ghost function WindowIndices(stamps: seq<int>, now: int, window: int): set<int> {
    set i | 0 <= i < |stamps| && now - stamps[i] <= window
  }

  /** The filtered list is as long as the number of send times inside the window. */
  lemma {:induction false} InWindowCounts(stamps: seq<int>, now: int, window: int)
    ensures |InWindow(stamps, now, window)| == |WindowIndices(stamps, now, window)|
    decreases |stamps|
  {
    if stamps != [] {
      var n := |stamps| - 1;
      var init := stamps[..n];
      InWindowCounts(init, now, window);
      var before := WindowIndices(init, now, window);
      var after := WindowIndices(stamps, now, window);
      var last := if now - stamps[n] <= window then {n} else {};
      forall i
        ensures i in after <==> i in before + last
      {
        if 0 <= i < n {
          assert init[i] == stamps[i];
        }
      }
      assert after == before + last;
      assert n !in before;
    }
  }

  /** `can_autoreply` for one channel, given its last send time (0 when it never sent)
      and its list of send times: false while `now - last < cooldown`, false when at least
      `maxIn` send times satisfy `now - t <= window`, true otherwise. */
  function CanFire(last: int, stamps: seq<int>, now: int, cooldown: int, window: int, maxIn: int): (r: bool)
    ensures r <==> last + cooldown <= now && |WindowIndices(stamps, now, window)| < maxIn
  {
    InWindowCounts(stamps, now, window);
    !(now - last < cooldown) && !(|InWindow(stamps, now, window)| >= maxIn)
  }

  /** Filtering distributes over concatenation. */
  lemma {:induction false} InWindowAppend(stamps: seq<int>, extra: seq<int>, now: int, window: int)
    ensures InWindow(stamps + extra, now, window) == InWindow(stamps, now, window) + InWindow(extra, now, window)
    decreases |extra|
  {
    if extra != [] {
      var init := extra[..|extra| - 1];
      assert (stamps + extra)[..|stamps + extra| - 1] == stamps + init;
      InWindowAppend(stamps, init, now, window);
    } else {
      assert stamps + extra == stamps;
    }
  }

  /** Send times all inside the window are all kept. */
  lemma {:induction false} InWindowKeepsRecent(recent: seq<int>, now: int, window: int)
    requires forall i :: 0 <= i < |recent| ==> now - recent[i] <= window
    ensures InWindow(recent, now, window) == recent
    decreases |recent|
  {
    if recent != [] {
      InWindowKeepsRecent(recent[..|recent| - 1], now, window);
    }
  }

  /** A send time that has left the window no longer counts. */
  lemma AgedOutDropped(t: int, rest: seq<int>, now: int, window: int)
    requires now - t > window
    ensures InWindow([t] + rest, now, window) == InWindow(rest, now, window)
  {
    InWindowAppend([t], rest, now, window);
    assert InWindow([t], now, window) == InWindow([], now, window) + [];
  }

  /** Once `maxIn` sends lie inside the window, the throttle is closed whatever the
      cooldown says and whatever older sends preceded them. */
  lemma RecentSendsBlock(last: int, older: seq<int>, recent: seq<int>, now: int,
                         cooldown: int, window: int, maxIn: int)
    requires forall i :: 0 <= i < |recent| ==> now - recent[i] <= window
    requires |recent| >= maxIn
    ensures !CanFire(last, older + recent, now, cooldown, window, maxIn)
  {
    InWindowAppend(older, recent, now, window);
    InWindowKeepsRecent(recent, now, window);
  }
}
