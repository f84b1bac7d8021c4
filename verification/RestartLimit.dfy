/** The restart limiter of `erl/supervisor/supervisor_state.go`: a trimmed list of timestamps decides exactly what the
    whole history would. */
module RestartLimit {

  const NANOS_PER_SECOND: int := 1_000_000_000

  /** The number of timestamps later than `limit`. */
  function Recent(times: seq<int>, limit: int): nat {
    if times == [] then 0
    else Recent(times[..|times| - 1], limit) + if times[|times| - 1] > limit then 1 else 0
  }

  ghost predicate Sorted(times: seq<int>) {
    forall i, j :: 0 <= i < j < |times| ==> times[i] <= times[j]
  }

  /** More restarts than allowed in the window that ends now; the check is made only when a restart is counted. */
  predicate Exceeded(times: seq<int>, limit: int, intensity: int) {
    Recent(times, limit) > 0 && Recent(times, limit) > intensity
  }

  function WindowStart(now: int, period: int): int {
    now - period * NANOS_PER_SECOND
  }

  lemma {:induction false} RecentAppend(a: seq<int>, b: seq<int>, limit: int)
    ensures Recent(a + b, limit) == Recent(a, limit) + Recent(b, limit)
  {
    if b == [] {
      assert a + b == a;
    } else {
      RecentAppend(a, b[..|b| - 1], limit);
      assert (a + b)[..|a + b| - 1] == a + b[..|b| - 1];
    }
  }

  lemma {:induction false} RecentNone(times: seq<int>, limit: int)
    requires forall i :: 0 <= i < |times| ==> times[i] <= limit
    ensures Recent(times, limit) == 0
  {
    if times != [] {
      RecentNone(times[..|times| - 1], limit);
    }
  }

  lemma {:induction false} RecentAll(times: seq<int>, limit: int)
    requires forall i :: 0 <= i < |times| ==> times[i] > limit
    ensures Recent(times, limit) == |times|
  {
    if times != [] {
      RecentAll(times[..|times| - 1], limit);
    }
  }

  lemma RecentGrows(times: seq<int>, k: nat, limit: int)
    requires k <= |times|
    ensures Recent(times[..k], limit) <= Recent(times, limit)
  {
    assert times == times[..k] + times[k..];
    RecentAppend(times[..k], times[k..], limit);
  }

  /** `addRestart`: counts inside the window and remembers the last index outside it; that many entries are cut off,
      so the last expired entry stays. */
  method AddRestart(restarts: seq<int>, now: int, period: int, intensity: int)
    returns (kept: seq<int>, exceeded: bool, ghost cut: nat)
    requires Sorted(restarts + [now])
    ensures exceeded == Exceeded(restarts + [now], WindowStart(now, period), intensity)
    ensures cut <= |restarts| && kept == (restarts + [now])[cut..]
    ensures forall i :: 0 <= i < cut ==> restarts[i] <= WindowStart(now, period)
    ensures !exceeded ==> |kept| <= (if intensity < 0 then 0 else intensity) + 1
  {
    var all := restarts + [now];
    var limit := WindowStart(now, period);
    exceeded := false;
    var c, trim, idx := 0, 0, 0;
    while idx < |all| && !exceeded
      invariant 0 <= idx <= |all| && 0 <= trim <= |restarts| && 0 <= c
      invariant c == Recent(all[..idx], limit)
      invariant exceeded <==> c > 0 && c > intensity
      invariant forall i :: 0 <= i < trim ==> all[i] <= limit
      invariant c > 0 ==> idx > 0 && all[idx - 1] > limit
      invariant c == idx || trim + c + 1 == idx
      decreases |all| - idx
    {
      assert all[..idx + 1][..idx] == all[..idx];
      if all[idx] > limit {
        c := c + 1;
        if c > intensity {
          exceeded := true;
        }
      } else {
        trim := idx;
        assert all[trim] <= limit && forall i :: 0 <= i < trim ==> all[i] <= all[trim];
      }
      idx := idx + 1;
    }
    RecentGrows(all, idx, limit);
    assert !exceeded ==> all[..idx] == all;
    kept := all[trim..];
    cut := trim;
  }

  // ---------------------------------------------------------------- a whole life

  /** The list that is carried from restart to restart: a suffix of the history, from which only entries are missing
      that no later window can contain. */
  ghost predicate Represents(kept: seq<int>, history: seq<int>, cut: nat, last: int, period: int) {
    && cut <= |history| && kept == history[cut..]
    && Sorted(history)
    && (forall i :: 0 <= i < |history| ==> history[i] <= last)
    && (forall i :: 0 <= i < cut ==> history[i] <= WindowStart(last, period))
  }

  lemma SuffixCounts(history: seq<int>, cut: nat, limit: int)
    requires cut <= |history| && forall i :: 0 <= i < cut ==> history[i] <= limit
    ensures Recent(history, limit) == Recent(history[cut..], limit)
  {
    assert history == history[..cut] + history[cut..];
    RecentAppend(history[..cut], history[cut..], limit);
    RecentNone(history[..cut], limit);
  }

  lemma SortedSuffix(kept: seq<int>, history: seq<int>, cut: nat, last: int, period: int, now: int)
    requires Represents(kept, history, cut, last, period) && last <= now
    ensures Sorted(kept + [now]) && Sorted(history + [now])
    ensures (history + [now])[cut..] == kept + [now]
    ensures forall i :: 0 <= i < cut ==> (history + [now])[i] <= WindowStart(now, period)
  {
    assert WindowStart(last, period) <= WindowStart(now, period);
  }

  lemma CutFurther(history: seq<int>, kept: seq<int>, cut: nat, more: nat, limit: int)
    requires cut <= |history| && kept == history[cut..] && more <= |kept|
    requires forall i :: 0 <= i < cut ==> history[i] <= limit
    requires forall i :: 0 <= i < more ==> kept[i] <= limit
    ensures kept[more..] == history[cut + more..]
    ensures forall i :: 0 <= i < cut + more ==> history[i] <= limit
  {
    forall i | cut <= i < cut + more
      ensures history[i] <= limit
    {
      assert history[i] == kept[i - cut];
    }
  }

  /** One restart on the trimmed list errs exactly when it would on the whole history. */
  method AddToLife(kept: seq<int>, ghost history: seq<int>, ghost cut: nat, ghost last: int, now: int, period: int,
                   intensity: int)
    returns (more: seq<int>, exceeded: bool, ghost cut': nat)
    requires Represents(kept, history, cut, last, period) && last <= now
    ensures exceeded == Exceeded(history + [now], WindowStart(now, period), intensity)
    ensures Represents(more, history + [now], cut', now, period)
    ensures !exceeded ==> |more| <= (if intensity < 0 then 0 else intensity) + 1
  {
    SortedSuffix(kept, history, cut, last, period, now);
    ghost var further;
    more, exceeded, further := AddRestart(kept, now, period, intensity);
    SuffixCounts(history + [now], cut, WindowStart(now, period));
    CutFurther(history + [now], kept + [now], cut, further, WindowStart(now, period));
    cut' := cut + further;
  }

  /** The restart with number `k` is refused when the history up to it is judged as a whole. */
  ghost predicate RefusedAt(times: seq<int>, k: nat, period: int, intensity: int)
    requires k < |times|
  {
    Exceeded(times[..k + 1], WindowStart(times[k], period), intensity)
  }

  /** A supervisor's restarts from its start on: the number of the first one that is refused, if any. */
  method Life(times: seq<int>, period: int, intensity: int) returns (refused: nat)
    requires Sorted(times)
    ensures refused <= |times|
    ensures forall k :: 0 <= k < refused ==> !RefusedAt(times, k, period, intensity)
    ensures refused < |times| ==> RefusedAt(times, refused, period, intensity)
  {
    if times == [] {
      return 0;
    }
    var kept: seq<int> := [];
    ghost var last, cut := times[0], 0;
    refused := 0;
    while refused < |times|
      invariant refused <= |times|
      invariant Represents(kept, times[..refused], cut, last, period)
      invariant refused < |times| ==> last <= times[refused]
      invariant forall k :: 0 <= k < refused ==> !RefusedAt(times, k, period, intensity)
    {
      var exceeded;
      assert times[..refused + 1] == times[..refused] + [times[refused]];
      kept, exceeded, cut := AddToLife(kept, times[..refused], cut, last, times[refused], period, intensity);
      if exceeded {
        return;
      }
      last := times[refused];
      refused := refused + 1;
    }
  }

  /** For a limit of at least zero, the condition is about a single earlier restart: the one `intensity` places
      before the last. */
  lemma ExceededByOne(times: seq<int>, limit: int, intensity: nat)
    requires Sorted(times)
    ensures Exceeded(times, limit, intensity) <==> |times| > intensity && times[|times| - 1 - intensity] > limit
  {
    if |times| > intensity {
      var k := |times| - 1 - intensity;
      assert times == times[..k] + times[k..];
      RecentAppend(times[..k], times[k..], limit);
      if times[k] > limit {
        RecentAll(times[k..], limit);
      } else {
        assert times == times[..k + 1] + times[k + 1..];
        RecentAppend(times[..k + 1], times[k + 1..], limit);
        RecentNone(times[..k + 1], limit);
        RecentAtMost(times[k + 1..], limit);
      }
    } else {
      RecentAtMost(times, limit);
    }
  }

  lemma {:induction false} RecentAtMost(times: seq<int>, limit: int)
    ensures Recent(times, limit) <= |times|
  {
    if times != [] {
      RecentAtMost(times[..|times| - 1], limit);
    }
  }
}
