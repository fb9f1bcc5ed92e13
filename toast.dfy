/**
 * The toast queue (`ToastProvider`): notifications are appended with the
 * current millisecond as their id and removed by id, either when the user
 * closes one or when its four-second timer fires. The timer is the event
 * `Expire`; the clock is the `now` parameter.
 */
module Toast {
  import opened Types
  import opened Strings

  /** `toasts.filter(t => t.id !== id)`. */
  function Without(ts: seq<ToastMessage>, id: string): (r: seq<ToastMessage>)
    ensures |r| <= |ts|
    ensures forall t :: t in r <==> t in ts && t.id != id
  {
    if ts == [] then []
    else (if ts[0].id == id then [] else [ts[0]]) + Without(ts[1..], id)
  }

  /** Filtering a list in two parts filters each part and keeps them in order. */
  lemma {:induction false} WithoutConcat(a: seq<ToastMessage>, b: seq<ToastMessage>, id: string)
    ensures Without(a + b, id) == Without(a, id) + Without(b, id)
  {
    if a == [] {
      assert a + b == b;
    } else {
      assert (a + b)[1..] == a[1..] + b;
      WithoutConcat(a[1..], b, id);
    }
  }

  /** Removing an id no toast carries changes nothing. */
  lemma {:induction false} WithoutAbsent(ts: seq<ToastMessage>, id: string)
    requires forall k :: 0 <= k < |ts| ==> ts[k].id != id
    ensures Without(ts, id) == ts
  {
    if ts != [] {
      WithoutAbsent(ts[1..], id);
    }
  }

  /** A toast expiring removes exactly that toast, provided no earlier toast shares its millisecond. */
  lemma ShowThenExpire(ts: seq<ToastMessage>, t: ToastMessage)
    requires forall k :: 0 <= k < |ts| ==> ts[k].id != t.id
    ensures Without(ts + [t], t.id) == ts
  {
    WithoutConcat(ts, [t], t.id);
    WithoutAbsent(ts, t.id);
    assert Without([t], t.id) == [];
  }

  /** What one `showToast` call adds: one toast under a provider, nothing under the default context. */
  function NewToasts(provided: bool, kind: ToastKind, message: string, now: nat): (r: seq<ToastMessage>)
    ensures |r| <= 1 && (provided <==> |r| == 1)
    ensures forall t :: t in r ==> t.id == NatToString(now) && t.kind == kind && t.message == message
  {
    if provided then [ToastMessage(NatToString(now), kind, message)] else []
  }

  class ToastQueue {
    /** Whether a provider encloses the caller; the default context's `showToast` does nothing. */
    const provided: bool
    var toasts: seq<ToastMessage>

    constructor(provided: bool)
      ensures this.provided == provided && toasts == []
    {
      this.provided := provided;
      toasts := [];
    }

    /** `showToast`: appends one toast, stamped with the current millisecond, after all the others. */
    method ShowToast(kind: ToastKind, message: string, now: nat) returns (id: string)
      modifies this`toasts
      ensures id == NatToString(now)
      ensures toasts == old(toasts) + NewToasts(provided, kind, message, now)
    {
      id := NatToString(now);
      if provided {
        toasts := toasts + [ToastMessage(id, kind, message)];
      }
    }

    /** `removeToast`: drops every toast with that id and keeps the others in order. */
    method RemoveToast(id: string)
      modifies this`toasts
      ensures toasts == Without(old(toasts), id)
    {
      toasts := Without(toasts, id);
    }

    /** The timer set by `showToast`: the same filter as `removeToast`, for the toast's own id. */
    method Expire(id: string)
      modifies this`toasts
      ensures toasts == Without(old(toasts), id)
    {
      RemoveToast(id);
    }
  }

  /** Two toasts shown in the same millisecond share an id, so removing one removes both. */
  lemma SameInstantRemovedTogether(ts: seq<ToastMessage>, a: ToastMessage, b: ToastMessage, now: nat)
    requires a in ts && b in ts && a.id == NatToString(now) && b.id == NatToString(now)
    ensures a !in Without(ts, a.id) && b !in Without(ts, a.id)
  {
  }
}
