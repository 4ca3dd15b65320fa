/** The toast store: an ordered list of toasts held in module state and
    changed only through `dispatch`. Listener notification (React state
    plumbing) and the progress timer are not part of this model; the ids
    `uuid()` would produce are parameters. */
module Toasts {
  import opened Wrappers

  datatype Priority = Low | Normal | High

  /** A toast in the list. Members other than `id` may be absent. */
  datatype ToasterToast = ToasterToast(
    id: string, title: Option<string>, description: Option<string>,
    duration: Option<int>, priority: Option<Priority>, progress: Option<int>)

  /** The members an update sets; an absent member leaves the toast's own. */
  datatype Patch = Patch(
    title: Option<string>, description: Option<string>,
    duration: Option<int>, priority: Option<Priority>, progress: Option<int>)

  datatype Action =
    | AddToast(toast: ToasterToast)
    | UpdateToast(id: string, patch: Patch)
    | DismissToast(toastId: Option<string>)

  /** `{ ...t, ...rest }`: every member the patch gives wins, the others stay. */
  function Merge(t: ToasterToast, p: Patch): (r: ToasterToast)
    ensures r.id == t.id
    ensures r.title == (if p.title.Some? then p.title else t.title)
    ensures r.description == (if p.description.Some? then p.description else t.description)
    ensures r.duration == (if p.duration.Some? then p.duration else t.duration)
    ensures r.priority == (if p.priority.Some? then p.priority else t.priority)
    ensures r.progress == (if p.progress.Some? then p.progress else t.progress)
  {
    ToasterToast(t.id,
      if p.title.Some? then p.title else t.title,
      if p.description.Some? then p.description else t.description,
      if p.duration.Some? then p.duration else t.duration,
      if p.priority.Some? then p.priority else t.priority,
      if p.progress.Some? then p.progress else t.progress)
  }

  /** `ts.map(t => t.id === id ? { ...t, ...rest } : t)` */
  function UpdateMatching(ts: seq<ToasterToast>, id: string, p: Patch): (r: seq<ToasterToast>)
    ensures |r| == |ts|
    ensures forall i :: 0 <= i < |ts| ==> r[i] == if ts[i].id == id then Merge(ts[i], p) else ts[i]
  {
    seq(|ts|, i requires 0 <= i < |ts| => if ts[i].id == id then Merge(ts[i], p) else ts[i])
  }

  /** `ts.filter(t => t.id !== toastId)`; an absent id equals no toast's id. */
  function WithoutId(ts: seq<ToasterToast>, toastId: Option<string>): (r: seq<ToasterToast>)
    ensures |r| <= |ts|
  {
    if |ts| == 0 then []
    else (if toastId.Some? && ts[0].id == toastId.value then [] else [ts[0]]) + WithoutId(ts[1..], toastId)
  }

  /** The new list `dispatch(action)` leaves in the store. */
  function Reduce(ts: seq<ToasterToast>, a: Action): seq<ToasterToast> {
    match a
    case AddToast(t) => ts + [t]
    case UpdateToast(id, p) => UpdateMatching(ts, id, p)
    case DismissToast(toastId) => WithoutId(ts, toastId)
  }

  /** Adding puts the toast last and leaves the earlier ones as they were. */
  lemma AddAppends(ts: seq<ToasterToast>, t: ToasterToast)
    ensures |Reduce(ts, AddToast(t))| == |ts| + 1
    ensures Reduce(ts, AddToast(t))[|ts|] == t
    ensures Reduce(ts, AddToast(t))[..|ts|] == ts
  {
  }

  /** An update keeps the length, the order and every id, and changes only
      the toasts with the given id; applying it twice is the same as once. */
  lemma UpdateKeepsShape(ts: seq<ToasterToast>, id: string, p: Patch)
    ensures |Reduce(ts, UpdateToast(id, p))| == |ts|
    ensures forall i :: 0 <= i < |ts| ==> Reduce(ts, UpdateToast(id, p))[i].id == ts[i].id
    ensures forall i :: 0 <= i < |ts| && ts[i].id != id ==> Reduce(ts, UpdateToast(id, p))[i] == ts[i]
    ensures Reduce(Reduce(ts, UpdateToast(id, p)), UpdateToast(id, p)) == Reduce(ts, UpdateToast(id, p))
  {
    var once := UpdateMatching(ts, id, p);
    var twice := UpdateMatching(once, id, p);
    assert forall i :: 0 <= i < |ts| ==> twice[i] == once[i];
  }

  /** Dismissing removes exactly the toasts with the given id. */
  lemma {:induction false} DismissRemovesExactly(ts: seq<ToasterToast>, toastId: Option<string>)
    ensures forall t :: t in WithoutId(ts, toastId) <==> t in ts && (toastId.None? || t.id != toastId.value)
  {
    if |ts| > 0 {
      DismissRemovesExactly(ts[1..], toastId);
      assert ts == [ts[0]] + ts[1..];
    }
  }

  /** Dismissing works piecewise, so the toasts kept keep their relative order. */
  lemma {:induction false} DismissConcat(a: seq<ToasterToast>, b: seq<ToasterToast>, toastId: Option<string>)
    ensures WithoutId(a + b, toastId) == WithoutId(a, toastId) + WithoutId(b, toastId)
  {
    if |a| == 0 {
      assert a + b == b;
    } else {
      var head := if toastId.Some? && a[0].id == toastId.value then [] else [a[0]];
      assert (a + b)[0] == a[0];
      assert (a + b)[1..] == a[1..] + b;
      assert WithoutId(a + b, toastId) == head + WithoutId(a[1..] + b, toastId);
      assert WithoutId(a, toastId) == head + WithoutId(a[1..], toastId);
      DismissConcat(a[1..], b, toastId);
      assert head + (WithoutId(a[1..], toastId) + WithoutId(b, toastId)) ==
        (head + WithoutId(a[1..], toastId)) + WithoutId(b, toastId);
    }
  }

  /** `dismiss()` with no id, and dismissing an id no toast has, change nothing. */
  lemma {:induction false} DismissAbsentIsNoop(ts: seq<ToasterToast>, toastId: Option<string>)
    requires toastId.None? || forall i :: 0 <= i < |ts| ==> ts[i].id != toastId.value
    ensures WithoutId(ts, toastId) == ts
  {
    if |ts| > 0 {
      DismissAbsentIsNoop(ts[1..], toastId);
      assert [ts[0]] + ts[1..] == ts;
    }
  }

  /** Dismissing a toast just added under a fresh id gives the list back. */
  lemma AddThenDismiss(ts: seq<ToasterToast>, t: ToasterToast)
    requires forall i :: 0 <= i < |ts| ==> ts[i].id != t.id
    ensures Reduce(Reduce(ts, AddToast(t)), DismissToast(Some(t.id))) == ts
  {
    DismissConcat(ts, [t], Some(t.id));
    DismissAbsentIsNoop(ts, Some(t.id));
    assert [t][1..] == [];
  }

  /** What a caller of `toast(props)` passes; the id is filled in. */
  datatype ToastProps = ToastProps(title: Option<string>, description: Option<string>, duration: Option<int>, priority: Option<Priority>)

  /** The module-level `memoryState`. */
  class ToastStore {
    var toasts: seq<ToasterToast>

    constructor ()
      ensures toasts == []
    {
      toasts := [];
    }

    method Dispatch(a: Action)
      modifies this
      ensures toasts == Reduce(old(toasts), a)
    {
      match a {
        case AddToast(t) =>
          toasts := toasts + [t];
        case UpdateToast(id, p) =>
          toasts := UpdateMatching(toasts, id, p);
        case DismissToast(toastId) =>
          toasts := WithoutId(toasts, toastId);
      }
    }

    /** `toast(props)` with `uuid()` giving `freshId`: adds a toast with the
        duration 5000 when none (or 0) is given, priority "normal" when none
        is given, and progress 100. */
    method Toast(props: ToastProps, freshId: string) returns (id: string)
      modifies this
      ensures id == freshId
      ensures toasts == old(toasts) + [ToasterToast(freshId, props.title, props.description,
        Some(if props.duration.Some? && props.duration.value != 0 then props.duration.value else 5000),
        Some(props.priority.GetOr(Normal)), Some(100))]
    {
      id := freshId;
      var duration := if props.duration.Some? && props.duration.value != 0 then props.duration.value else 5000;
      Dispatch(AddToast(ToasterToast(id, props.title, props.description, Some(duration), Some(props.priority.GetOr(Normal)), Some(100))));
    }

    /** `dismiss(toastId?)` */
    method Dismiss(toastId: Option<string>)
      modifies this
      ensures toasts == WithoutId(old(toasts), toastId)
      ensures toastId.None? ==> toasts == old(toasts)
    {
      Dispatch(DismissToast(toastId));
      DismissAbsentIsNoop(old(toasts), None);
    }
  }
}
