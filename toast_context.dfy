/** The toast provider: an ordered list of notifications with append and dismiss-by-id. */
module ToastContext {
  import Wrappers
  import Strings
  import opened Sequences

  datatype ToastType = SuccessToast | ErrorToast | InfoToast | WarningToast

  datatype Toast = Toast(id: string, message: string, kind: ToastType, duration: int)

  const DEFAULT_TYPE := InfoToast
  const DEFAULT_DURATION := 5000

  /** The id of a new toast, from the clock reading and a random base-36 fragment. */
  function ToastId(nowMillis: nat, randomPart: string): (id: string)
    ensures |id| > 6 && id[..6] == "toast-"
  {
    "toast-" + Strings.NatToString(nowMillis) + "-" + randomPart
  }

  /** The toast showToast creates; an omitted type is "info" and an omitted duration 5000. */
  function NewToast(id: string, message: string, kind: Wrappers.Option<ToastType>, duration: Wrappers.Option<int>): (t: Toast)
    ensures t.id == id && t.message == message
    ensures kind.None? ==> t.kind == DEFAULT_TYPE
    ensures kind.Some? ==> t.kind == kind.value
    ensures duration.None? ==> t.duration == DEFAULT_DURATION
    ensures duration.Some? ==> t.duration == duration.value
  {
    Toast(id, message,
      if kind.Some? then kind.value else DEFAULT_TYPE,
      if duration.Some? then duration.value else DEFAULT_DURATION)
  }

  predicate HasToast(ts: seq<Toast>, id: string) {
    exists i :: 0 <= i < |ts| && ts[i].id == id
  }

  /** dismissToast's filter: every toast with `id` goes, the rest stay in order and as often as before. */
  function WithoutId(ts: seq<Toast>, id: string): (r: seq<Toast>)
    ensures !HasToast(r, id)
    ensures forall t :: t in ts && t.id != id ==> t in r
    ensures IsSubsequence(r, ts)
    ensures forall t :: multiset(r)[t] == if t.id == id then 0 else multiset(ts)[t]
  {
    var p := (t: Toast) => t.id != id;
    assert forall t :: multiset(Filter(ts, p))[t] == if t.id == id then 0 else multiset(ts)[t] by {
      forall t ensures multiset(Filter(ts, p))[t] == if t.id == id then 0 else multiset(ts)[t] {
        FilterCounts(ts, p, t);
      }
    }
    Filter(ts, p)
  }

  /** Dismissing an id that no toast carries changes nothing. */
  lemma DismissAbsentIsNoop(ts: seq<Toast>, id: string)
    requires !HasToast(ts, id)
    ensures WithoutId(ts, id) == ts
  {
    FilterKeepsAll(ts, (t: Toast) => t.id != id);
  }

  /** Showing a toast with a fresh id and then dismissing that id restores the list. */
  lemma ShowThenDismissRestores(ts: seq<Toast>, t: Toast)
    requires !HasToast(ts, t.id)
    ensures WithoutId(ts + [t], t.id) == ts
  {
    var p := (x: Toast) => x.id != t.id;
    FilterConcat(ts, [t], p);
    FilterKeepsAll(ts, p);
    FilterCons(t, [], p);
    assert [t] + [] == [t];
  }

  /** The provider's state. */
  class ToastQueue {
    var toasts: seq<Toast>

    /** The list starts empty. */
    constructor ()
      ensures toasts == []
    {
      toasts := [];
    }

    /** Appends one toast at the end; the earlier toasts keep their values and order. */
    method ShowToast(message: string, kind: Wrappers.Option<ToastType>, duration: Wrappers.Option<int>,
                     nowMillis: nat, randomPart: string)
      modifies this
      ensures toasts == old(toasts) + [NewToast(ToastId(nowMillis, randomPart), message, kind, duration)]
    {
      var t := NewToast(ToastId(nowMillis, randomPart), message, kind, duration);
      toasts := toasts + [t];
    }

    /** Removes every toast with `id`, keeping the rest in order. */
    method DismissToast(id: string)
      modifies this
      ensures toasts == WithoutId(old(toasts), id)
    {
      toasts := WithoutId(toasts, id);
    }
  }
}
