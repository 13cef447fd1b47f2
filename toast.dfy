/**
 * The toast queue of frontend/app/components/ui/Toast.tsx: `showToast` puts a new toast at the
 * end of the list with a fresh id, and `removeToast` (the close button and the auto-dismiss
 * timer) takes out every toast with a given id. The id, drawn at random by the provider, is a
 * parameter here.
 */
module Toasts {
  import opened Wrappers
  import opened Seqs

  datatype ToastKind = Success | Error | Warning | Info

  /** What a caller passes to `showToast`: a toast without its id. */
  datatype ToastInput = ToastInput(kind: ToastKind, title: string, message: Option<string>, duration: Option<int>)

  datatype Toast = Toast(id: string, kind: ToastKind, title: string, message: Option<string>, duration: Option<int>)

  /** The toast `{...toast, id}`. */
  function WithId(input: ToastInput, id: string): (t: Toast)
    ensures t.id == id
    ensures t.kind == input.kind && t.title == input.title
    ensures t.message == input.message && t.duration == input.duration
  {
    Toast(id, input.kind, input.title, input.message, input.duration)
  }

  /** `showToast`: exactly one toast more, at the end, and the earlier ones untouched. */
  function ShowToast(toasts: seq<Toast>, input: ToastInput, id: string): (r: seq<Toast>)
    ensures |r| == |toasts| + 1
    ensures r[..|toasts|] == toasts
    ensures r[|toasts|] == WithId(input, id)
  {
    toasts + [WithId(input, id)]
  }

  predicate HasId(id: string, t: Toast) {
    t.id == id
  }

  /** `removeToast`: the toasts whose id differs, in their order. */
  function RemoveToast(toasts: seq<Toast>, id: string): (r: seq<Toast>)
    ensures |r| <= |toasts|
    ensures forall i :: 0 <= i < |r| ==> r[i].id != id
  {
    Filter(toasts, (t: Toast) => !HasId(id, t))
  }

  /** Exactly the toasts with another id stay, each as often as before, in the order they
      were shown. */
  lemma RemoveToastKeepsOthers(toasts: seq<Toast>, id: string, t: Toast)
    ensures t in RemoveToast(toasts, id) <==> t in toasts && t.id != id
    ensures IsSubsequence(RemoveToast(toasts, id), toasts)
    ensures multiset(RemoveToast(toasts, id))[t] == if t.id != id then multiset(toasts)[t] else 0
  {
    FilterMembers(toasts, (u: Toast) => !HasId(id, u), t);
    FilterMultiset(toasts, (u: Toast) => !HasId(id, u), t);
    FilterIsSubsequence(toasts, (u: Toast) => !HasId(id, u));
  }

  /** Closing a toast that is no longer there changes nothing. */
  lemma RemoveAbsentId(toasts: seq<Toast>, id: string)
    requires forall i :: 0 <= i < |toasts| ==> toasts[i].id != id
    ensures RemoveToast(toasts, id) == toasts
  {
    FilterKeepsAll(toasts, (u: Toast) => !HasId(id, u));
  }

  /** The close button and the timer may both fire for one toast; the second is a no-op. */
  lemma RemoveTwice(toasts: seq<Toast>, id: string)
    ensures RemoveToast(RemoveToast(toasts, id), id) == RemoveToast(toasts, id)
  {
    FilterIdempotent(toasts, (u: Toast) => !HasId(id, u));
  }

  /** Showing a toast under an id no toast has, then removing that id, gives back the list. */
  lemma ShowThenRemove(toasts: seq<Toast>, input: ToastInput, id: string)
    requires forall i :: 0 <= i < |toasts| ==> toasts[i].id != id
    ensures RemoveToast(ShowToast(toasts, input, id), id) == toasts
  {
    var keep := (u: Toast) => !HasId(id, u);
    FilterAppend(toasts, [WithId(input, id)], keep);
    FilterKeepsAll(toasts, keep);
    FilterDropsAll([WithId(input, id)], keep);
  }

  /** Removing one id and then another is the same as removing them in the other order. */
  lemma RemoveCommutes(toasts: seq<Toast>, a: string, b: string)
    ensures RemoveToast(RemoveToast(toasts, a), b) == RemoveToast(RemoveToast(toasts, b), a)
  {
    FilterCommutes(toasts, (u: Toast) => !HasId(a, u), (u: Toast) => !HasId(b, u));
  }
}
