/**
 * The toast notifications of src/routes/portal/exercise/solution.jsx.
 *
 * A module-level counter hands out ids; `showToast` appends a toast to the
 * provider's list and schedules a 3000 ms timer whose callback filters that id
 * out again. Timers are modelled as the set of ids whose callback is still
 * pending, and a timer firing as a method call.
 */
module Toasts {
  import opened Wrappers

  /** One entry of the provider's `toasts` state. */
  datatype Toast = Toast(id: nat, message: string, kind: string)

  /** The delay, in milliseconds, of the removal timer scheduled by `showToast`. */
  const AutoDismissMs := 3000

  /** The `type` of a toast when `showToast` is called without one. */
  const DefaultKind := "info"

  /** The error `useToast` throws outside a provider. */
  const OutsideProviderError := "useToast must be used within <ToastProvider>"

  /** The `type` parameter after its default applies. */
  function KindOrDefault(kind: Option<string>): (r: string)
    ensures kind.None? ==> r == DefaultKind
    ensures kind.Some? ==> r == kind.value
  {
    kind.GetOr(DefaultKind)
  }

  /** The ids of the toasts of `ts`, in list order. */
  function Ids(ts: seq<Toast>): (r: seq<nat>)
    ensures |r| == |ts| && forall i :: 0 <= i < |ts| ==> r[i] == ts[i].id
  {
    if ts == [] then [] else [ts[0].id] + Ids(ts[1..])
  }

  /** The ids of the toasts of `ts`. */
  function IdSet(ts: seq<Toast>): set<nat>
  {
    set t | t in ts :: t.id
  }

  /** Ids strictly increase along the list, so in particular no id occurs twice. */
  predicate IdsIncreasing(ts: seq<Toast>)
  {
    forall i, j :: 0 <= i < j < |ts| ==> ts[i].id < ts[j].id
  }

  /**
   * `prev.filter((toast) => toast.id !== id)`: the list without the entries
   * whose id is `id`. Every other entry stays, and an id-ordered list stays
   * id-ordered.
   */
  function WithoutId(ts: seq<Toast>, id: nat): (r: seq<Toast>)
    ensures forall t :: t in r <==> t in ts && t.id != id
    ensures IdsIncreasing(ts) ==> IdsIncreasing(r)
    decreases |ts|
  {
    if ts == [] then []
    else
      var rest := WithoutId(ts[1..], id);
      assert forall t :: t in rest ==> t in ts[1..];
      if ts[0].id == id then rest else [ts[0]] + rest
  }

  /** Removing an id that no entry carries leaves the list as it is. */
  lemma {:induction false} WithoutAbsentId(ts: seq<Toast>, id: nat)
    requires forall i :: 0 <= i < |ts| ==> ts[i].id != id
    ensures WithoutId(ts, id) == ts
    decreases |ts|
  {
    if ts != [] {
      WithoutAbsentId(ts[1..], id);
      assert ts == [ts[0]] + ts[1..];
    }
  }

  /** A second removal of the same id changes nothing. */
  lemma WithoutIdIdempotent(ts: seq<Toast>, id: nat)
    ensures WithoutId(WithoutId(ts, id), id) == WithoutId(ts, id)
  {
    var r := WithoutId(ts, id);
    forall i | 0 <= i < |r| ensures r[i].id != id {
      assert r[i] in r;
    }
    WithoutAbsentId(r, id);
  }

  /** A list with no member is empty. */
  lemma EmptyWithoutMembers(ts: seq<Toast>)
    ensures (forall t :: t !in ts) ==> ts == []
  {
    if ts != [] {
      assert ts[0] in ts;
    }
  }

  /**
   * Two id-ordered lists with the same entries are the same list. So the
   * result of a removal is the only id-ordered list holding exactly the other
   * entries: their relative order is the original one.
   */
  lemma {:induction false} IdOrderedListsAreEqual(a: seq<Toast>, b: seq<Toast>)
    requires IdsIncreasing(a) && IdsIncreasing(b)
    requires forall t :: t in a <==> t in b
    ensures a == b
    decreases |a|
  {
    if a != [] && b != [] {
      assert a[0] in b;
      assert b[0] in a;
      var k :| 0 <= k < |b| && b[k] == a[0];
      var m :| 0 <= m < |a| && a[m] == b[0];
      assert a[0].id <= a[m].id && b[0].id <= b[k].id;
      assert k == 0;
      assert a == [a[0]] + a[1..] && b == [b[0]] + b[1..];
      forall t ensures t in a[1..] <==> t in b[1..] {
        if t in a[1..] {
          var i :| 1 <= i < |a| && a[i] == t;
          assert t != b[0] && t in b;
        }
        if t in b[1..] {
          var i :| 1 <= i < |b| && b[i] == t;
          assert t != a[0] && t in a;
        }
      }
      IdOrderedListsAreEqual(a[1..], b[1..]);
    } else {
      EmptyWithoutMembers(a);
      EmptyWithoutMembers(b);
    }
  }

  /** The class suffix `colors[type] ?? colors.info`; `colors.info` is not in the table, so it is undefined. */
  function ColorSuffix(kind: string): (r: Option<string>)
    ensures r.Some? <==> kind == "success" || kind == "error" || kind == "warning"
    ensures r.Some? ==> r.value == kind
  {
    if kind == "success" then Some("success")
    else if kind == "error" then Some("error")
    else if kind == "warning" then Some("warning")
    else None
  }

  /** The class string of a toast; an undefined suffix prints as "undefined". */
  function ClassName(kind: string): (r: string)
    ensures kind in {"success", "error", "warning"} ==> r == "toast-message " + kind
    ensures kind !in {"success", "error", "warning"} ==> r == "toast-message undefined"
  {
    "toast-message " + ColorSuffix(kind).GetOr("undefined")
  }

  /** What one `<Toast>` element shows. */
  datatype ToastView = ToastView(message: string, className: string)

  /** `toasts.map(...)`: one view per toast, in list order. */
  function Render(ts: seq<Toast>): (r: seq<ToastView>)
    ensures |r| == |ts|
    ensures forall i :: 0 <= i < |ts| ==> r[i] == ToastView(ts[i].message, ClassName(ts[i].kind))
    decreases |ts|
  {
    if ts == [] then [] else [ToastView(ts[0].message, ClassName(ts[0].kind))] + Render(ts[1..])
  }

  /** `useToast`: the context when a provider is above, the source's error otherwise. */
  function UseToast<C>(ctx: Option<C>): (r: Result<C, string>)
    ensures r.Failure? <==> ctx.None?
    ensures r.Failure? ==> r.error == OutsideProviderError
    ensures r.Success? ==> r.value == ctx.value
  {
    match ctx
    case None => Failure(OutsideProviderError)
    case Some(c) => Success(c)
  }

  /** The module-level `toastId` counter, shared by every provider of the module. */
  class ToastIdSource {
    var next: nat
    /** Every id handed out so far. */
    ghost var issued: set<nat>

    ghost predicate Valid()
      reads this
    {
      forall i :: i in issued ==> i < next
    }

    /** Module evaluation: `let toastId = 0`. */
    constructor ()
      ensures Valid() && next == 0 && issued == {}
    {
      next := 0;
      issued := {};
    }

    /** `toastId++`: the current value, never handed out before; the counter moves on by one. */
    method Take() returns (id: nat)
      requires Valid()
      modifies this
      ensures Valid()
      ensures id == old(next) && next == old(next) + 1
      ensures id !in old(issued) && issued == old(issued) + {id}
    {
      id := next;
      next := next + 1;
      issued := issued + {id};
    }
  }

  class ToastProvider {
    /** The `toasts` state, in display order. */
    var toasts: seq<Toast>
    /** Ids whose removal timer is scheduled and has not fired. */
    var timers: set<nat>
    const ids: ToastIdSource

    /**
     * Ids come from the shared counter and increase along the list, and each
     * toast on screen has exactly one pending removal timer.
     */
    ghost predicate Valid()
      reads this, ids
    {
      && ids.Valid()
      && IdsIncreasing(toasts)
      && (forall t :: t in toasts ==> t.id in ids.issued)
      && IdSet(toasts) == timers
    }

    /** Mounting `ToastProvider`: `useState([])`. */
    constructor (ids: ToastIdSource)
      requires ids.Valid()
      ensures Valid() && this.ids == ids
      ensures toasts == [] && timers == {}
    {
      this.ids := ids;
      toasts := [];
      timers := {};
    }

    /**
     * `showToast(message, type)`: take the next id, append the toast at the
     * end, and schedule its removal.
     */
    method ShowToast(message: string, kind: Option<string>)
      requires Valid()
      modifies this, ids
      ensures Valid() && ids.next == old(ids.next) + 1
      ensures ids.issued == old(ids.issued) + {old(ids.next)}
      ensures toasts == old(toasts) + [Toast(old(ids.next), message, KindOrDefault(kind))]
      ensures timers == old(timers) + {old(ids.next)}
    {
      var id := ids.Take();
      var t := Toast(id, message, KindOrDefault(kind));
      assert forall u :: u in toasts ==> u.id < id;
      toasts := toasts + [t];
      timers := timers + {id};
      assert IdSet(toasts) == old(IdSet(toasts)) + {id} by {
        assert t in toasts;
        forall u | u in toasts ensures u in old(toasts) || u == t { }
      }
    }

    /** The removal timer of `id` fires: its entries are filtered out, nothing else changes. */
    method TimerFired(id: nat)
      requires Valid()
      modifies this
      ensures Valid()
      ensures toasts == WithoutId(old(toasts), id)
      ensures timers == old(timers) - {id}
    {
      toasts := WithoutId(toasts, id);
      timers := timers - {id};
    }
  }

  /** Two providers that share the module counter never show the same id, and each keeps its invariant. */
  method SharedCounterScenario()
  {
    var counter := new ToastIdSource();
    var p := new ToastProvider(counter);
    var q := new ToastProvider(counter);
    q.ShowToast("a", None);
    p.ShowToast("b", None);
    assert q.Valid();
    q.ShowToast("c", Some("warning"));
    assert p.Valid() && q.Valid();
    assert Ids(p.toasts) == [1] && Ids(q.toasts) == [0, 2];
  }

  /** Scenario: two toasts show in call order, and each leaves when its own timer fires. */
  method ToastScenario()
  {
    var counter := new ToastIdSource();
    var p := new ToastProvider(counter);
    p.ShowToast("Saved", Some("success"));
    p.ShowToast("Oops", Some("error"));
    assert p.toasts == [Toast(0, "Saved", "success"), Toast(1, "Oops", "error")];
    p.TimerFired(0);
    assert WithoutId([Toast(1, "Oops", "error")], 0) == [Toast(1, "Oops", "error")];
    assert p.toasts == [Toast(1, "Oops", "error")];
    p.TimerFired(0);
    assert p.toasts == [Toast(1, "Oops", "error")];
  }
}
