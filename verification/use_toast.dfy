/**
 * The toast notifications hook: a module-wide counter hands out ids, each
 * toast is appended to the hook's list, a timer is scheduled to remove it
 * when its duration is positive, and dismiss removes a toast by id. The
 * counter is a separate object shared by every hook instance; the React
 * state setter becomes the assignment of the `toasts` field and setTimeout
 * becomes the list `timers` of pending removals.
 */
module Toasts {
  import opened Wrappers

  const DefaultVariant := "default"
  const DefaultDuration := 5000

  datatype Toast = Toast(id: nat, title: string, description: string, variant: string, duration: int)

  /** A removal scheduled by setTimeout: remove toast `id` after `delay` milliseconds. */
  datatype Timer = Timer(id: nat, delay: int)

  /** prev.filter(toast => toast.id !== id). */
  function Without(ts: seq<Toast>, id: nat): (r: seq<Toast>)
    ensures |r| <= |ts|
    ensures forall i :: 0 <= i < |r| ==> r[i] in ts && r[i].id != id
    ensures forall i :: 0 <= i < |ts| && ts[i].id != id ==> ts[i] in r
  {
    if ts == [] then []
    else if ts[0].id != id then [ts[0]] + Without(ts[1..], id)
    else Without(ts[1..], id)
  }

  /** Dismissing splits over concatenation, so the survivors keep their order. */
  lemma {:induction false} WithoutConcat(a: seq<Toast>, b: seq<Toast>, id: nat)
    ensures Without(a + b, id) == Without(a, id) + Without(b, id)
  {
    if a == [] {
      assert a + b == b;
    } else {
      assert (a + b)[0] == a[0] && (a + b)[1..] == a[1..] + b;
      WithoutConcat(a[1..], b, id);
    }
  }

  /** Dismissing an id that is not in the list changes nothing. */
  lemma {:induction false} WithoutAbsent(ts: seq<Toast>, id: nat)
    requires forall i :: 0 <= i < |ts| ==> ts[i].id != id
    ensures Without(ts, id) == ts
  {
    if ts != [] {
      WithoutAbsent(ts[1..], id);
    }
  }

  /** Dismissing twice is dismissing once. */
  lemma WithoutIdempotent(ts: seq<Toast>, id: nat)
    ensures Without(Without(ts, id), id) == Without(ts, id)
  {
    WithoutAbsent(Without(ts, id), id);
  }

  /** Ids strictly increase along the list. */
  predicate Increasing(ts: seq<Toast>)
  {
    forall i, j :: 0 <= i < j < |ts| ==> ts[i].id < ts[j].id
  }

  lemma {:induction false} WithoutKeepsIncreasing(ts: seq<Toast>, id: nat)
    requires Increasing(ts)
    ensures Increasing(Without(ts, id))
    ensures forall i :: 0 <= i < |Without(ts, id)| ==> ts != [] && ts[0].id <= Without(ts, id)[i].id
  {
    if ts != [] {
      WithoutAbove(ts, id);
      TailIncreasing(ts);
      WithoutKeepsIncreasing(ts[1..], id);
      if ts[0].id != id {
        var rest := Without(ts[1..], id);
        assert forall i :: 0 <= i < |rest| ==> ts[0].id < rest[i].id by {
          if ts[1..] != [] {
            assert ts[0].id < ts[1..][0].id;
          }
        }
        ConsIncreasing(ts[0], rest);
      }
    }
  }

  lemma TailIncreasing(ts: seq<Toast>)
    requires Increasing(ts) && ts != []
    ensures Increasing(ts[1..])
  {
    var tail := ts[1..];
    forall i, j | 0 <= i < j < |tail| ensures tail[i].id < tail[j].id {
      assert tail[i] == ts[i + 1] && tail[j] == ts[j + 1];
    }
  }

  lemma ConsIncreasing(t: Toast, rest: seq<Toast>)
    requires Increasing(rest)
    requires forall i :: 0 <= i < |rest| ==> t.id < rest[i].id
    ensures Increasing([t] + rest)
  {
    var r := [t] + rest;
    forall i, j | 0 <= i < j < |r| ensures r[i].id < r[j].id {
      assert r[j] == rest[j - 1];
      if i > 0 {
        assert r[i] == rest[i - 1];
      }
    }
  }

  /** No toast left after dismissing has an id below the first one's. */
  lemma WithoutAbove(ts: seq<Toast>, id: nat)
    requires Increasing(ts) && ts != []
    ensures forall i :: 0 <= i < |Without(ts, id)| ==> ts[0].id <= Without(ts, id)[i].id
  {
    var r := Without(ts, id);
    forall i | 0 <= i < |r| ensures ts[0].id <= r[i].id {
      var k :| 0 <= k < |ts| && ts[k] == r[i];
      if k > 0 {
        assert ts[0].id < ts[k].id;
      }
    }
  }

  /** Ids in an increasing list are pairwise distinct, so dismiss removes at most one toast. */
  lemma IncreasingDistinct(ts: seq<Toast>)
    requires Increasing(ts)
    ensures forall i, j :: 0 <= i < |ts| && 0 <= j < |ts| && i != j ==> ts[i].id != ts[j].id
  {
    forall i, j | 0 <= i < |ts| && 0 <= j < |ts| && i != j
      ensures ts[i].id != ts[j].id
    {
      if i < j { assert ts[i].id < ts[j].id; } else { assert ts[j].id < ts[i].id; }
    }
  }

  /** The module-level `toastCount`, shared by every use of the hook. */
  class ToastCounter {
    var next: nat

    constructor()
      ensures next == 0
    {
      next := 0;
    }
  }

  /** One mounted use of the hook: its toast list and its pending removals. */
  class ToastHook {
    var toasts: seq<Toast>
    var timers: seq<Timer>
    const counter: ToastCounter

    /** Ids increase along the list and were all handed out by the counter. */
    ghost predicate Valid()
      reads this, counter
    {
      Increasing(toasts) && forall i :: 0 <= i < |toasts| ==> toasts[i].id < counter.next
    }

    constructor(counter: ToastCounter)
      ensures this.counter == counter && toasts == [] && timers == [] && Valid()
    {
      this.counter := counter;
      toasts := [];
      timers := [];
    }

    /**
     * toast({title, description, variant, duration}): an absent variant or
     * duration takes its default; the new id is the counter's value, which
     * is then incremented.
     */
    method ShowToast(title: string, description: string, variant: Option<string>, duration: Option<int>)
      returns (id: nat)
      requires Valid()
      modifies this, counter
      ensures id == old(counter.next) && counter.next == id + 1
      ensures toasts == old(toasts) + [Toast(id, title, description, variant.GetOr(DefaultVariant), duration.GetOr(DefaultDuration))]
      ensures timers == if duration.GetOr(DefaultDuration) > 0 then old(timers) + [Timer(id, duration.GetOr(DefaultDuration))] else old(timers)
      ensures Valid()
    {
      id := counter.next;
      counter.next := counter.next + 1;
      var d := duration.GetOr(DefaultDuration);
      toasts := toasts + [Toast(id, title, description, variant.GetOr(DefaultVariant), d)];
      if d > 0 {
        timers := timers + [Timer(id, d)];
      }
    }

    /** dismiss(toastId): removes exactly the toasts with that id. */
    method Dismiss(toastId: nat)
      requires Valid()
      modifies this
      ensures toasts == Without(old(toasts), toastId) && timers == old(timers)
      ensures Valid()
    {
      WithoutKeepsIncreasing(toasts, toastId);
      toasts := Without(toasts, toastId);
    }

    /** A scheduled removal fires: it removes only the toast it was scheduled for. */
    method Expire(k: nat)
      requires Valid() && k < |timers|
      modifies this
      ensures timers == old(timers[..k] + timers[k + 1..])
      ensures toasts == Without(old(toasts), old(timers[k].id))
      ensures Valid()
    {
      var id := timers[k].id;
      WithoutKeepsIncreasing(toasts, id);
      toasts := Without(toasts, id);
      timers := timers[..k] + timers[k + 1..];
    }

    /** success(title, description, duration). */
    method Success(title: string, description: string, duration: Option<int>) returns (id: nat)
      requires Valid()
      modifies this, counter
      ensures id == old(counter.next) && counter.next == id + 1
      ensures toasts == old(toasts) + [Toast(id, title, description, "success", duration.GetOr(DefaultDuration))]
      ensures timers == if duration.GetOr(DefaultDuration) > 0 then old(timers) + [Timer(id, duration.GetOr(DefaultDuration))] else old(timers)
      ensures Valid()
    {
      id := ShowToast(title, description, Some("success"), duration);
    }

    /** error(title, description, duration). */
    method Error(title: string, description: string, duration: Option<int>) returns (id: nat)
      requires Valid()
      modifies this, counter
      ensures id == old(counter.next) && counter.next == id + 1
      ensures toasts == old(toasts) + [Toast(id, title, description, "destructive", duration.GetOr(DefaultDuration))]
      ensures timers == if duration.GetOr(DefaultDuration) > 0 then old(timers) + [Timer(id, duration.GetOr(DefaultDuration))] else old(timers)
      ensures Valid()
    {
      id := ShowToast(title, description, Some("destructive"), duration);
    }
  }

  /** A toast just shown is removed by its own timer and by nothing else's: other toasts survive it. */
  lemma ExpireRemovesOnlyItsToast(ts: seq<Toast>, t: Toast, other: nat)
    requires forall i :: 0 <= i < |ts| ==> ts[i].id < t.id
    requires other != t.id
    ensures Without(ts + [t], t.id) == ts
    ensures t in Without(ts + [t], other)
  {
    WithoutConcat(ts, [t], t.id);
    WithoutAbsent(ts, t.id);
    WithoutConcat(ts, [t], other);
  }
}
