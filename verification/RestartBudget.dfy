/** The restart budget: a deque of restart times that stands in for the whole
    history of granted restarts. */
module RestartBudget {

  const U16_MAX: nat := 65535

  type U16 = n: nat | n <= U16_MAX

  /** At most `maxRestarts` restarts in any `within` units of time. */
  datatype Intensity = Intensity(maxRestarts: U16, within: nat)

  datatype Limiter = Limiter(intensity: Intensity, restarts: seq<int>)

  /** The setting that stands for "no limit". */
  predicate Unlimited(i: Intensity) {
    i.maxRestarts == U16_MAX && i.within == 0
  }

  function Fresh(i: Intensity): Limiter {
    Limiter(i, [])
  }

  /** Time elapsed from `earlier` to `now`, zero if the clock ran backwards. */
  function Elapsed(now: int, earlier: int): nat {
    if earlier <= now then now - earlier else 0
  }

  /** What is left of the deque once the entries that aged out are popped off its front. */
  function Pruned(restarts: seq<int>, within: nat, now: int): seq<int> {
    if restarts != [] && Elapsed(now, restarts[0]) > within then Pruned(restarts[1..], within, now)
    else restarts
  }

  /** One request for a permit: the limiter afterwards, and whether it was granted. */
  function Permit(l: Limiter, now: int): (Limiter, bool) {
    if Unlimited(l.intensity) then (l, true)
    else
      var kept := Pruned(l.restarts, l.intensity.within, now);
      if |kept| >= l.intensity.maxRestarts then (l.(restarts := kept), false)
      else (l.(restarts := kept + [now]), true)
  }

  class RestartLimiter {
    const intensity: Intensity
    var restarts: seq<int>

    function View(): Limiter
      reads this
    {
      Limiter(intensity, restarts)
    }

    constructor (i: Intensity)
      ensures View() == Fresh(i)
    {
      intensity := i;
      restarts := [];
    }

    method AcquirePermit(now: int) returns (granted: bool)
      modifies this
      ensures (View(), granted) == Permit(old(View()), now)
    {
      if intensity.maxRestarts == U16_MAX && intensity.within == 0 {
        return true;
      }
      while restarts != [] && Elapsed(now, restarts[0]) > intensity.within
        invariant Pruned(restarts, intensity.within, now) == Pruned(old(restarts), intensity.within, now)
        decreases |restarts|
      {
        restarts := restarts[1..];
      }
      if |restarts| >= intensity.maxRestarts {
        return false;
      }
      restarts := restarts + [now];
      return true;
    }
  }

  // ----- The full history, as a reference -----

  /** How many of `history` lie in the closed interval from `low` to `high`. */
  function CountIn(history: seq<int>, low: int, high: int): nat {
    if history == [] then 0
    else
      var n := |history| - 1;
      CountIn(history[..n], low, high) + if low <= history[n] <= high then 1 else 0
  }

  /** One more request put to a limiter that never forgets: it is granted if fewer than
      `maxRestarts` grants lie within the window that ends with it. */
  function GrantFromHistory(i: Intensity, before: seq<int>, now: int): seq<int> {
    if Unlimited(i) || CountIn(before, now - i.within, now) < i.maxRestarts then before + [now] else before
  }

  /** Every grant such a limiter makes over the requests `times`. */
  function AllGrants(i: Intensity, times: seq<int>): seq<int> {
    if times == [] then []
    else GrantFromHistory(i, AllGrants(i, times[..|times| - 1]), times[|times| - 1])
  }

  /** A limiter together with the grants it has made so far. */
  datatype Service = Service(limiter: Limiter, grants: seq<int>)

  function ServeOne(s: Service, now: int): Service {
    var (l, granted) := Permit(s.limiter, now);
    Service(l, if granted then s.grants + [now] else s.grants)
  }

  /** The actual limiter serving the requests `times`. */
  function Serve(i: Intensity, times: seq<int>): Service {
    if times == [] then Service(Fresh(i), [])
    else ServeOne(Serve(i, times[..|times| - 1]), times[|times| - 1])
  }

  predicate Ascending(times: seq<int>) {
    forall j, k :: 0 <= j <= k < |times| ==> times[j] <= times[k]
  }

  /** Pruning an ascending deque keeps exactly the entries still in the window. */
  lemma {:induction false} PrunedIsSuffix(restarts: seq<int>, within: nat, now: int)
    requires Ascending(restarts)
    requires forall k :: 0 <= k < |restarts| ==> restarts[k] <= now
    ensures var kept := Pruned(restarts, within, now);
            && |kept| <= |restarts| && kept == restarts[|restarts| - |kept|..]
            && (forall k :: 0 <= k < |restarts| - |kept| ==> restarts[k] < now - within)
            && (forall k :: 0 <= k < |kept| ==> now - within <= kept[k])
  {
    if restarts != [] && Elapsed(now, restarts[0]) > within {
      PrunedIsSuffix(restarts[1..], within, now);
      var kept := Pruned(restarts, within, now);
      forall k | 0 <= k < |restarts| - |kept| ensures restarts[k] < now - within {
        if k > 0 { assert restarts[k] == restarts[1..][k - 1]; }
      }
    }
  }

  lemma {:induction false} CountSplits(a: seq<int>, b: seq<int>, low: int, high: int)
    ensures CountIn(a + b, low, high) == CountIn(a, low, high) + CountIn(b, low, high)
  {
    if b == [] {
      assert a + b == a;
    } else {
      assert (a + b)[..|a + b| - 1] == a + b[..|b| - 1];
      CountSplits(a, b[..|b| - 1], low, high);
    }
  }

  lemma {:induction false} CountNone(a: seq<int>, low: int, high: int)
    requires forall k :: 0 <= k < |a| ==> a[k] < low
    ensures CountIn(a, low, high) == 0
  {
    if a != [] { CountNone(a[..|a| - 1], low, high); }
  }

  lemma {:induction false} CountEvery(a: seq<int>, low: int, high: int)
    requires forall k :: 0 <= k < |a| ==> low <= a[k] <= high
    ensures CountIn(a, low, high) == |a|
  {
    if a != [] { CountEvery(a[..|a| - 1], low, high); }
  }

  /** A narrower interval holds no more. */
  lemma {:induction false} CountMonotone(a: seq<int>, low: int, high: int, low': int, high': int)
    requires forall k :: 0 <= k < |a| ==> low <= a[k] <= high ==> low' <= a[k] <= high'
    ensures CountIn(a, low, high) <= CountIn(a, low', high')
  {
    if a != [] { CountMonotone(a[..|a| - 1], low, high, low', high'); }
  }

  lemma {:induction false} GrantsAreRequests(i: Intensity, times: seq<int>)
    requires Ascending(times)
    ensures var g := AllGrants(i, times);
            && Ascending(g)
            && (forall k :: 0 <= k < |g| ==> times != [] && g[k] <= times[|times| - 1])
  {
    if times != [] {
      GrantsAreRequests(i, times[..|times| - 1]);
    }
  }

  ghost predicate AllBelow(a: seq<int>, bound: int) {
    forall k :: 0 <= k < |a| ==> a[k] < bound
  }

  ghost predicate AllAtMost(a: seq<int>, bound: int) {
    forall k :: 0 <= k < |a| ==> a[k] <= bound
  }

  /** `gone` is the part of the history that pruning drops. */
  lemma PruneSplits(restarts: seq<int>, within: nat, now: int) returns (gone: seq<int>)
    requires Ascending(restarts) && AllAtMost(restarts, now)
    ensures restarts == gone + Pruned(restarts, within, now)
    ensures AllBelow(gone, now - within)
    ensures CountIn(restarts, now - within, now) == |Pruned(restarts, within, now)|
  {
    hide CountIn, Pruned, Ascending;
    PrunedIsSuffix(restarts, within, now);
    var kept := Pruned(restarts, within, now);
    gone := restarts[..|restarts| - |kept|];
    CountSplits(gone, kept, now - within, now);
    CountNone(gone, now - within, now);
    CountEvery(kept, now - within, now);
  }

  lemma BelowBoth(a: seq<int>, b: seq<int>, bound: int)
    requires AllBelow(a, bound) && AllBelow(b, bound)
    ensures AllBelow(a + b, bound)
  {
  }

  /** Deciding from a deque that remembers the recent past is deciding from the whole of it:
      what it forgot lies before every window still to come. */
  lemma PermitFromHistory(l: Limiter, forgotten: seq<int>, now: int) returns (forgotten': seq<int>)
    requires !Unlimited(l.intensity)
    requires Ascending(l.restarts) && AllAtMost(l.restarts, now)
    requires AllBelow(forgotten, now - l.intensity.within)
    ensures Permit(l, now).1
            == (CountIn(forgotten + l.restarts, now - l.intensity.within, now) < l.intensity.maxRestarts)
    ensures Permit(l, now).0.intensity == l.intensity
    ensures forgotten' + Permit(l, now).0.restarts
            == forgotten + l.restarts + if Permit(l, now).1 then [now] else []
    ensures AllBelow(forgotten', now - l.intensity.within)
  {
    hide CountIn, Pruned, Ascending, AllAtMost;
    var w := l.intensity.within;
    var gone := PruneSplits(l.restarts, w, now);
    CountSplits(forgotten, l.restarts, now - w, now);
    CountNone(forgotten, now - w, now);
    forgotten' := forgotten + gone;
    var kept := Pruned(l.restarts, w, now);
    assert forgotten + l.restarts == forgotten' + kept;
    assert forgotten' + kept + [now] == forgotten' + (kept + [now]);
    BelowBoth(forgotten, gone, now - w);
  }

  lemma {:induction false} AscendingSuffix(a: seq<int>, b: seq<int>, bound: int)
    requires Ascending(a + b) && AllAtMost(a + b, bound)
    ensures Ascending(b) && AllAtMost(b, bound)
  {
    forall j | 0 <= j < |b| ensures b[j] == (a + b)[|a| + j] {}
    forall j, k | 0 <= j <= k < |b| ensures b[j] <= b[k] {
      assert (a + b)[|a| + j] <= (a + b)[|a| + k];
    }
  }

  /** What a run leaves in the deque is a suffix of the history of grants; the rest
      lies before the window of every request still to come. */
  lemma {:induction false} DequeIsRecentHistory(i: Intensity, times: seq<int>) returns (forgotten: seq<int>)
    requires Ascending(times) && !Unlimited(i)
    ensures Serve(i, times).grants == AllGrants(i, times)
    ensures Serve(i, times).limiter.intensity == i
    ensures AllGrants(i, times) == forgotten + Serve(i, times).limiter.restarts
    ensures if times == [] then forgotten == [] else AllBelow(forgotten, times[|times| - 1] - i.within)
  {
    if times == [] {
      forgotten := [];
    } else {
      var earlier, now := times[..|times| - 1], times[|times| - 1];
      var forgotten0 := DequeIsRecentHistory(i, earlier);
      GrantsAreRequests(i, earlier);
      forgotten := ServeOneMore(Serve(i, earlier), now, forgotten0);
    }
  }

  lemma ServeOneMore(s: Service, now: int, forgotten: seq<int>) returns (forgotten': seq<int>)
    requires !Unlimited(s.limiter.intensity)
    requires Ascending(s.grants) && AllAtMost(s.grants, now)
    requires s.grants == forgotten + s.limiter.restarts
    requires AllBelow(forgotten, now - s.limiter.intensity.within)
    ensures var s' := ServeOne(s, now);
            && s'.grants == GrantFromHistory(s.limiter.intensity, s.grants, now)
            && s'.grants == forgotten' + s'.limiter.restarts
            && s'.limiter.intensity == s.limiter.intensity
    ensures AllBelow(forgotten', now - s.limiter.intensity.within)
  {
    AscendingSuffix(forgotten, s.limiter.restarts, now);
    forgotten' := PermitFromHistory(s.limiter, forgotten, now);
  }

  /** Main result: under a clock that never runs backwards, the deque makes every
      decision the full history would have made. */
  lemma DequeRefinesHistory(i: Intensity, times: seq<int>)
    requires Ascending(times)
    ensures Serve(i, times).grants == AllGrants(i, times)
  {
    if Unlimited(i) {
      UnlimitedRecordsNothing(i, times);
      UnlimitedHistory(i, times);
    } else {
      var _ := DequeIsRecentHistory(i, times);
    }
  }

  lemma {:induction false} UnlimitedHistory(i: Intensity, times: seq<int>)
    requires Unlimited(i)
    ensures AllGrants(i, times) == times
  {
    if times != [] {
      UnlimitedHistory(i, times[..|times| - 1]);
      assert times == times[..|times| - 1] + [times[|times| - 1]];
    }
  }

  /** The unlimited setting grants every request and records none. */
  lemma {:induction false} UnlimitedRecordsNothing(i: Intensity, times: seq<int>)
    requires Unlimited(i)
    ensures Serve(i, times) == Service(Fresh(i), times)
  {
    if times != [] {
      UnlimitedRecordsNothing(i, times[..|times| - 1]);
      assert times == times[..|times| - 1] + [times[|times| - 1]];
    }
  }

  /** One more grant where the window that ends with it had room: no other window overflows. */
  lemma OneMoreFits(i: Intensity, before: seq<int>, now: int, start: int)
    requires AllAtMost(before, now)
    requires CountIn(before, now - i.within, now) < i.maxRestarts
    requires CountIn(before, start, start + i.within) <= i.maxRestarts
    ensures CountIn(before + [now], start, start + i.within) <= i.maxRestarts
  {
    CountSplits(before, [now], start, start + i.within);
    assert CountIn([now], start, start + i.within) <= 1;
    if start <= now <= start + i.within {
      CountMonotone(before, start, start + i.within, now - i.within, now);
    }
  }

  /** The full history never holds more than the limit in any window. */
  lemma {:induction false} HistoryRespectsLimit(i: Intensity, times: seq<int>, start: int)
    requires Ascending(times) && !Unlimited(i)
    ensures CountIn(AllGrants(i, times), start, start + i.within) <= i.maxRestarts
  {
    hide Unlimited;
    if times != [] {
      var earlier, now := times[..|times| - 1], times[|times| - 1];
      HistoryRespectsLimit(i, earlier, start);
      GrantsAreRequests(i, earlier);
      var before := AllGrants(i, earlier);
      hide CountIn, Ascending;
      if AllGrants(i, times) != before { OneMoreFits(i, before, now, start); }
    }
  }

  /** Main result: no closed interval as long as the window ever holds more grants
      than the limit, over any run of requests. */
  lemma NoWindowExceedsLimit(i: Intensity, times: seq<int>, start: int)
    requires Ascending(times) && !Unlimited(i)
    ensures CountIn(Serve(i, times).grants, start, start + i.within) <= i.maxRestarts
  {
    DequeRefinesHistory(i, times);
    HistoryRespectsLimit(i, times, start);
  }

  // ----- One limiter among others -----

  /** Fewer grants than the limit lie in the closed window that ends now. */
  predicate HasRoom(i: Intensity, grants: seq<int>, now: int) {
    Unlimited(i) || CountIn(grants, now - i.within, now) < i.maxRestarts
  }

  /** How many grants lie in the closed window that begins at `start`. */
  function InWindow(i: Intensity, grants: seq<int>, start: int): nat {
    CountIn(grants, start, start + i.within)
  }

  ghost predicate RateOk(i: Intensity, grants: seq<int>) {
    Unlimited(i) || forall start :: InWindow(i, grants, start) <= i.maxRestarts
  }

  /** At the time `now` the limiter's deque is what is left of all its `grants`: what it forgot
      lies before every window still to come. */
  ghost predicate Remembers(l: Limiter, grants: seq<int>, now: int) {
    && Ascending(grants) && AllAtMost(grants, now) && RateOk(l.intensity, grants)
    && (!Unlimited(l.intensity) ==>
          && |l.restarts| <= |grants| && l.restarts == grants[|grants| - |l.restarts|..]
          && AllBelow(grants[..|grants| - |l.restarts|], now - l.intensity.within))
  }

  lemma RoomKeepsRate(i: Intensity, grants: seq<int>, now: int)
    requires RateOk(i, grants) && AllAtMost(grants, now) && HasRoom(i, grants, now)
    ensures RateOk(i, grants + [now])
  {
    if !Unlimited(i) {
      forall start ensures InWindow(i, grants + [now], start) <= i.maxRestarts {
        assert InWindow(i, grants, start) <= i.maxRestarts;
        OneMoreFits(i, grants, now, start);
      }
    }
  }

  lemma SplitRemembers(l: Limiter, forgotten: seq<int>, now: int)
    requires var grants := forgotten + l.restarts;
             Ascending(grants) && AllAtMost(grants, now) && RateOk(l.intensity, grants)
    requires AllBelow(forgotten, now - l.intensity.within)
    ensures Remembers(l, forgotten + l.restarts, now)
  {
    var grants := forgotten + l.restarts;
    assert grants[..|forgotten|] == forgotten && grants[|forgotten|..] == l.restarts;
    hide RateOk, Ascending, AllAtMost;
  }

  lemma OneMoreGrant(i: Intensity, grants: seq<int>, now: int)
    requires Ascending(grants) && AllAtMost(grants, now) && RateOk(i, grants) && HasRoom(i, grants, now)
    ensures Ascending(grants + [now]) && AllAtMost(grants + [now], now) && RateOk(i, grants + [now])
  {
    RoomKeepsRate(i, grants, now);
    hide RateOk, HasRoom;
  }

  /** What a limiter that remembers all its grants has forgotten of them. */
  lemma Forgotten(l: Limiter, grants: seq<int>, now: int) returns (forgotten: seq<int>)
    requires Remembers(l, grants, now) && !Unlimited(l.intensity)
    ensures grants == forgotten + l.restarts && AllBelow(forgotten, now - l.intensity.within)
    ensures Ascending(l.restarts) && AllAtMost(l.restarts, now)
    ensures Ascending(grants) && AllAtMost(grants, now) && RateOk(l.intensity, grants)
  {
    hide RateOk, Unlimited;
    forgotten := grants[..|grants| - |l.restarts|];
    assert grants == forgotten + l.restarts;
    AscendingSuffix(forgotten, l.restarts, now);
  }

  lemma LimitedRemembers(l: Limiter, grants: seq<int>, now: int)
    requires Remembers(l, grants, now) && !Unlimited(l.intensity)
    ensures Permit(l, now).1 == HasRoom(l.intensity, grants, now)
    ensures Permit(l, now).0.intensity == l.intensity
    ensures Remembers(Permit(l, now).0, if Permit(l, now).1 then grants + [now] else grants, now)
  {
    hide Permit, RateOk, CountIn, Remembers, Ascending, AllAtMost, AllBelow, Unlimited;
    var forgotten := Forgotten(l, grants, now);
    var forgotten' := PermitFromHistory(l, forgotten, now);
    if Permit(l, now).1 { OneMoreGrant(l.intensity, grants, now); } else { assert grants + [] == grants; }
    SplitRemembers(Permit(l, now).0, forgotten', now);
  }

  /** A request is granted just if the grants so far leave room for it, and the deque goes on
      to remember them. */
  lemma PermitRemembers(l: Limiter, grants: seq<int>, before: int, now: int)
    requires Remembers(l, grants, before) && before <= now
    ensures Permit(l, now).1 == HasRoom(l.intensity, grants, now)
    ensures Permit(l, now).0.intensity == l.intensity
    ensures Remembers(Permit(l, now).0, if Permit(l, now).1 then grants + [now] else grants, now)
  {
    StillRemembers(l, grants, before, now);
    if Unlimited(l.intensity) {
      UnlimitedRemembers(l, grants, now);
    } else {
      LimitedRemembers(l, grants, now);
    }
    hide Remembers, Permit, HasRoom;
  }

  lemma UnlimitedRemembers(l: Limiter, grants: seq<int>, now: int)
    requires Remembers(l, grants, now) && Unlimited(l.intensity)
    ensures Remembers(l, grants + [now], now)
  {
  }

  /** Time passes. */
  lemma StillRemembers(l: Limiter, grants: seq<int>, before: int, now: int)
    requires Remembers(l, grants, before) && before <= now
    ensures Remembers(l, grants, now)
  {
  }

  lemma NothingToRemember(i: Intensity, now: int)
    ensures Remembers(Fresh(i), [], now)
  {
    forall start ensures InWindow(i, [], start) == 0 {}
  }
}
