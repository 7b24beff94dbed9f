/** The toast queue of app/context/toast-context.js: an ordered list of
    toasts with append and remove-by-id. The `setTimeout` that removes a toast
    after its duration becomes a pending timer and an explicit `Expire` event;
    the `Date.now()` id is a parameter. */
module Toasts {
  import opened JsValues
  import opened Lists

  datatype Toast = Toast(id: int, message: string, kind: string, duration: int)

  /** A scheduled removal: the id the callback captured and its delay. */
  datatype Timer = Timer(id: int, delay: int)

  predicate KeepsNot(id: int, t: Toast)
  {
    t.id != id
  }

  /** `prev.filter((toast) => toast.id !== id)`. */
  function WithoutId(ts: seq<Toast>, id: int): seq<Toast>
  {
    Filter(ts, t => KeepsNot(id, t))
  }

  /** The toast `addToast(message, type, duration)` creates at time `now`:
      type "success" and duration 3000 when they are not given. */
  function NewToast(message: string, kind: Option<string>, duration: Option<int>, now: int): (t: Toast)
    ensures t.id == now && t.message == message
    ensures kind.None? ==> t.kind == "success"
    ensures duration.None? ==> t.duration == 3000
    ensures kind.Some? ==> t.kind == kind.value
    ensures duration.Some? ==> t.duration == duration.value
  {
    Toast(now, message, kind.GetOr("success"), duration.GetOr(3000))
  }

  class ToastProvider {
    var toasts: seq<Toast>
    /** The removals scheduled and not yet fired, in the order they were set. */
    var timers: seq<Timer>

    constructor ()
      ensures toasts == [] && timers == []
    {
      toasts := [];
      timers := [];
    }

    /** `addToast`: one toast appended at the end, and its removal scheduled by its own id. */
    method AddToast(message: string, kind: Option<string>, duration: Option<int>, now: int)
      modifies this
      ensures toasts == old(toasts) + [NewToast(message, kind, duration, now)]
      ensures timers == old(timers) + [Timer(now, NewToast(message, kind, duration, now).duration)]
    {
      var t := NewToast(message, kind, duration, now);
      toasts := toasts + [t];
      timers := timers + [Timer(now, t.duration)];
    }

    /** `removeToast(id)`, as the close button calls it. */
    method RemoveToast(id: int)
      modifies this
      ensures toasts == WithoutId(old(toasts), id)
      ensures timers == old(timers)
    {
      toasts := WithoutId(toasts, id);
    }

    /** The `k`-th pending timer fires and removes by the id it captured. */
    method Expire(k: nat)
      requires k < |timers|
      modifies this
      ensures toasts == WithoutId(old(toasts), old(timers)[k].id)
      ensures timers == old(timers)[..k] + old(timers)[k + 1..]
    {
      var id := timers[k].id;
      timers := timers[..k] + timers[k + 1..];
      RemoveToast(id);
    }
  }

  /** Removal keeps exactly the toasts with another id, in their order. */
  lemma RemoveKeepsOthers(ts: seq<Toast>, id: int, t: Toast)
    ensures t in WithoutId(ts, id) <==> t in ts && t.id != id
    ensures IsSubsequence(WithoutId(ts, id), ts)
  {
    FilterMembers(ts, t => KeepsNot(id, t), t);
    FilterIsSubsequence(ts, t => KeepsNot(id, t));
  }

  /** Removing an id that no toast has changes nothing. */
  lemma RemoveAbsent(ts: seq<Toast>, id: int)
    requires forall t :: t in ts ==> t.id != id
    ensures WithoutId(ts, id) == ts
  {
    FilterAllPass(ts, t => KeepsNot(id, t));
  }

  /** Removing twice is removing once. */
  lemma RemoveIdempotent(ts: seq<Toast>, id: int)
    ensures WithoutId(WithoutId(ts, id), id) == WithoutId(ts, id)
  {
    FilterIdempotent(ts, t => KeepsNot(id, t));
  }

  /** Removing one id after adding a toast with another id keeps the new toast last. */
  lemma RemoveAfterAddOther(ts: seq<Toast>, t: Toast, id: int)
    requires t.id != id
    ensures WithoutId(ts + [t], id) == WithoutId(ts, id) + [t]
  {
    FilterConcat(ts, [t], x => KeepsNot(id, x));
    assert Filter([t], x => KeepsNot(id, x)) == [t];
  }

  /** A toast's own expiry removes it, and with it every toast sharing its id. */
  lemma ExpiryRemovesOwnToast(ts: seq<Toast>, t: Toast)
    ensures WithoutId(ts + [t], t.id) == WithoutId(ts, t.id)
    ensures t !in WithoutId(ts + [t], t.id)
  {
    FilterConcat(ts, [t], x => KeepsNot(t.id, x));
    assert Filter([t], x => KeepsNot(t.id, x)) == [];
    RemoveKeepsOthers(ts + [t], t.id, t);
  }

  /** Two toasts added in the same millisecond share an id: when either one's
      timer fires, both toasts go, and the other timer is left with nothing to do. */
  method SameMillisecondCollision(first: string, second: string, now: int, which: nat)
    returns (left: seq<Toast>, pending: nat)
    requires which < 2
    ensures left == [] && pending == 1
  {
    var p := new ToastProvider();
    p.AddToast(first, None, None, now);
    p.AddToast(second, Some("error"), None, now);
    var both := [NewToast(first, None, None, now), NewToast(second, Some("error"), None, now)];
    assert p.toasts == both && p.timers[which].id == now;
    p.Expire(which);
    left := p.toasts;
    pending := |p.timers|;
    RemoveAllShared(both, now);
  }

  /** Removing an id that every toast has empties the list. */
  lemma RemoveAllShared(ts: seq<Toast>, id: int)
    requires forall t :: t in ts ==> t.id == id
    ensures WithoutId(ts, id) == []
  {
    FilterNonePass(ts, t => KeepsNot(id, t));
  }

  /** A timer firing after its toast was closed by hand finds nothing to remove. */
  lemma LateExpiryHarmless(ts: seq<Toast>, id: int)
    ensures WithoutId(WithoutId(ts, id), id) == WithoutId(ts, id)
    ensures forall t :: t in WithoutId(ts, id) ==> t.id != id
  {
    RemoveIdempotent(ts, id);
    forall t | t in WithoutId(ts, id) ensures t.id != id {
      RemoveKeepsOthers(ts, id, t);
    }
  }
}
