/** `web/src/components/toast.tsx`: the provider's `toasts` list with `push` and `dismiss`. */
module Toasts {

  import opened Wrappers

  datatype Variant = Success | Error | Info

  /** What a caller passes to `push`: a toast without its id. */
  datatype ToastFields = ToastFields(title: string, description: Option<string>, variant: Option<Variant>)

  datatype Toast = Toast(id: string, title: string, description: Option<string>, variant: Option<Variant>)

  /**
   * The toast a view pushes once the store has answered a mutation: `{ title: okTitle,
   * variant: "success" }`, or `{ title: errTitle, description: error.message, variant: "error" }`.
   */
  function Notice(error: Option<string>, okTitle: string, errTitle: string): (f: ToastFields)
    ensures error.None? ==> f == ToastFields(okTitle, None, Some(Variant.Success))
    ensures error.Some? ==> f == ToastFields(errTitle, error, Some(Error))
  {
    match error
    case None => ToastFields(okTitle, None, Some(Variant.Success))
    case Some(message) => ToastFields(errTitle, Some(message), Some(Error))
  }

  /** `{ id, ...t }`. */
  function WithId(id: string, f: ToastFields): (t: Toast)
    ensures t.id == id && t.title == f.title && t.description == f.description && t.variant == f.variant
  {
    Toast(id, f.title, f.description, f.variant)
  }

  function Ids(ts: seq<Toast>): set<string> {
    set i | 0 <= i < |ts| :: ts[i].id
  }

  predicate DistinctIds(ts: seq<Toast>) {
    forall i, j :: 0 <= i < j < |ts| ==> ts[i].id != ts[j].id
  }

  /** `ts.filter((t) => t.id !== id)`. */
  function Without(ts: seq<Toast>, id: string): (r: seq<Toast>)
    ensures |r| <= |ts|
    ensures forall t :: t in r <==> t in ts && t.id != id
  {
    if ts == [] then []
    else (if ts[0].id != id then [ts[0]] else []) + Without(ts[1..], id)
  }

  /** Filtering keeps order: the survivors of `a + b` are those of `a`, then those of `b`. */
  lemma {:induction false} WithoutAppend(a: seq<Toast>, b: seq<Toast>, id: string)
    ensures Without(a + b, id) == Without(a, id) + Without(b, id)
  {
    if a == [] {
      assert a + b == b;
    } else {
      assert (a + b)[0] == a[0];
      assert (a + b)[1..] == a[1..] + b;
      WithoutAppend(a[1..], b, id);
    }
  }

  /** Each toast with another id keeps its multiplicity; toasts with `id` are all gone. */
  lemma {:induction false} WithoutCounts(ts: seq<Toast>, id: string, t: Toast)
    ensures multiset(Without(ts, id))[t] == if t.id == id then 0 else multiset(ts)[t]
  {
    if ts != [] {
      assert ts == [ts[0]] + ts[1..];
      WithoutCounts(ts[1..], id, t);
    }
  }

  /** Dismissing an id no toast carries changes nothing. */
  lemma {:induction false} WithoutAbsent(ts: seq<Toast>, id: string)
    requires id !in Ids(ts)
    ensures Without(ts, id) == ts
  {
    if ts != [] {
      assert ts[0].id in Ids(ts);
      assert Ids(ts[1..]) <= Ids(ts) by {
        forall x | x in Ids(ts[1..]) ensures x in Ids(ts) {
          var i :| 0 <= i < |ts[1..]| && ts[1..][i].id == x;
          assert ts[i + 1].id == x;
        }
      }
      WithoutAbsent(ts[1..], id);
      assert ts == [ts[0]] + ts[1..];
    }
  }

  lemma WithoutRemovesId(ts: seq<Toast>, id: string)
    ensures id !in Ids(Without(ts, id))
  {
    var r := Without(ts, id);
    assert forall i :: 0 <= i < |r| ==> r[i] in r;
  }

  /** Dismissing twice is dismissing once. */
  lemma WithoutIdempotent(ts: seq<Toast>, id: string)
    ensures Without(Without(ts, id), id) == Without(ts, id)
  {
    WithoutRemovesId(ts, id);
    WithoutAbsent(Without(ts, id), id);
  }

  /** Pushing a toast with a fresh id and then dismissing that id restores the list. */
  lemma PushThenDismiss(ts: seq<Toast>, id: string, f: ToastFields)
    requires id !in Ids(ts)
    ensures Without(ts + [WithId(id, f)], id) == ts
  {
    WithoutAppend(ts, [WithId(id, f)], id);
    WithoutAbsent(ts, id);
    assert Without([WithId(id, f)], id) == [] by { assert [WithId(id, f)][1..] == []; }
  }

  /** Pushing with fresh ids keeps ids distinct, so `dismiss(id)` removes exactly one toast. */
  lemma PushKeepsDistinct(ts: seq<Toast>, id: string, f: ToastFields)
    requires DistinctIds(ts) && id !in Ids(ts)
    ensures DistinctIds(ts + [WithId(id, f)])
  {
    var r := ts + [WithId(id, f)];
    forall i, j | 0 <= i < j < |r| ensures r[i].id != r[j].id {
      if j == |ts| { assert ts[i].id in Ids(ts); }
    }
  }

  class ToastQueue {
    var toasts: seq<Toast>

    constructor ()
      ensures toasts == []
    {
      toasts := [];
    }

    /** `push(t)` with the id that `crypto.randomUUID()` produced. */
    method Push(f: ToastFields, id: string)
      modifies this
      ensures toasts == old(toasts) + [WithId(id, f)]
    {
      toasts := toasts + [WithId(id, f)];
    }

    /** `dismiss(id)`, from the close button or the 4200 ms timer. */
    method Dismiss(id: string)
      modifies this
      ensures toasts == Without(old(toasts), id)
    {
      toasts := Without(toasts, id);
    }
  }

  /** `useToast()`: the provider's queue, or the error thrown when there is no provider. */
  function UseToast(provider: Option<ToastQueue>): (r: Result<ToastQueue, string>)
    ensures r.Failure? <==> provider.None?
    ensures r.Failure? ==> r.error == "ToastProvider missing"
    ensures r.Success? ==> r.value == provider.value
  {
    match provider
    case None => Result.Failure("ToastProvider missing")
    case Some(q) => Result.Success(q)
  }
}
