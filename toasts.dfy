/**
 * The toast hook: a list of toasts with add, remove and clear, the
 * per-kind helpers and the auto-dismiss rule of the toast list. The
 * timers themselves are not modelled, only which toasts get one.
 */
module Toasts {
  import opened Common

  datatype ToastKind = Success | Error | Warning | Info | Deadline | AiSuggestion

  /** A toast; None is a duration that was never set. */
  datatype Toast = Toast(id: string, title: string, message: string, kind: ToastKind, duration: Option<int>)

  /** What a caller passes to addToast: everything but the id; None leaves the duration out. */
  datatype ToastInput = ToastInput(title: string, message: string, kind: ToastKind, duration: Option<int>)

  const DefaultDuration: int := 5000

  /**
   * addToast with the generated id passed in: the new toast goes at the end,
   * the id is returned, and a duration the caller leaves out becomes 5000.
   */
  function AddToast(toasts: seq<Toast>, t: ToastInput, id: string): (r: (seq<Toast>, string))
    ensures r.1 == id
    ensures |r.0| == |toasts| + 1 && r.0[..|toasts|] == toasts
    ensures var n := r.0[|toasts|];
      && n.id == id && n.title == t.title && n.message == t.message && n.kind == t.kind
      && n.duration == Some(t.duration.GetOr(DefaultDuration))
  {
    var duration := match t.duration case Some(d) => d case None => DefaultDuration;
    (toasts + [Toast(id, t.title, t.message, t.kind, Some(duration))], id)
  }

  function HasOtherId(id: string): Toast -> bool {
    (t: Toast) => t.id != id
  }

  function RemoveToast(toasts: seq<Toast>, id: string): (r: seq<Toast>)
    ensures forall t :: t in r <==> t in toasts && t.id != id
    ensures IsSubsequence(r, toasts)
  {
    FilterIsSubsequence(toasts, HasOtherId(id));
    Filter(toasts, HasOtherId(id))
  }

  function ClearAllToasts(toasts: seq<Toast>): (r: seq<Toast>)
    ensures |r| == 0
  {
    []
  }

  /** Removing a toast just added under a fresh id gives back the list before. */
  lemma RemoveAfterAdd(toasts: seq<Toast>, t: ToastInput, id: string)
    requires forall i :: 0 <= i < |toasts| ==> toasts[i].id != id
    ensures RemoveToast(AddToast(toasts, t, id).0, id) == toasts
  {
    var added := AddToast(toasts, t, id).0;
    assert added == toasts + [added[|toasts|]];
    FilterAppend(toasts, [added[|toasts|]], HasOtherId(id));
    FilterAll(toasts, HasOtherId(id));
    assert Filter([added[|toasts|]], HasOtherId(id)) == [];
  }

  function ShowSuccess(toasts: seq<Toast>, title: string, message: string, id: string): (seq<Toast>, string) {
    AddToast(toasts, ToastInput(title, message, Success, None), id)
  }

  /** Errors stay until dismissed: duration 0. */
  function ShowError(toasts: seq<Toast>, title: string, message: string, id: string): (seq<Toast>, string) {
    AddToast(toasts, ToastInput(title, message, Error, Some(0)), id)
  }

  function ShowWarning(toasts: seq<Toast>, title: string, message: string, id: string): (seq<Toast>, string) {
    AddToast(toasts, ToastInput(title, message, Warning, None), id)
  }

  function ShowInfo(toasts: seq<Toast>, title: string, message: string, id: string): (seq<Toast>, string) {
    AddToast(toasts, ToastInput(title, message, Info, None), id)
  }

  /** Deadlines stay until dismissed: duration 0. */
  function ShowDeadlineAlert(toasts: seq<Toast>, title: string, message: string, id: string): (seq<Toast>, string) {
    AddToast(toasts, ToastInput(title, message, Deadline, Some(0)), id)
  }

  /** AI suggestions stay longer: 8000. */
  function ShowAiSuggestion(toasts: seq<Toast>, title: string, message: string, id: string): (seq<Toast>, string) {
    AddToast(toasts, ToastInput(title, message, AiSuggestion, Some(8000)), id)
  }

  /** The toast list starts a timer for a toast whose duration is set and positive. */
  predicate AutoDismissed(t: Toast) {
    t.duration.Some? && t.duration.value > 0
  }

  /** The duration each helper gives its toast, and whether it is dismissed automatically. */
  lemma HelperDurations(ts: seq<Toast>, title: string, message: string, id: string)
    ensures var n := |ts|;
      && ShowSuccess(ts, title, message, id).0[n].duration == Some(5000)
      && ShowWarning(ts, title, message, id).0[n].duration == Some(5000)
      && ShowInfo(ts, title, message, id).0[n].duration == Some(5000)
      && ShowError(ts, title, message, id).0[n].duration == Some(0)
      && ShowDeadlineAlert(ts, title, message, id).0[n].duration == Some(0)
      && ShowAiSuggestion(ts, title, message, id).0[n].duration == Some(8000)
    ensures var n := |ts|;
      && !AutoDismissed(ShowError(ts, title, message, id).0[n])
      && !AutoDismissed(ShowDeadlineAlert(ts, title, message, id).0[n])
      && AutoDismissed(ShowSuccess(ts, title, message, id).0[n])
      && AutoDismissed(ShowAiSuggestion(ts, title, message, id).0[n])
  {
  }

  /** Every toast added through addToast without a duration of 0 or less gets a timer. */
  lemma AddedToastTimer(ts: seq<Toast>, t: ToastInput, id: string)
    ensures AutoDismissed(AddToast(ts, t, id).0[|ts|]) <==> t.duration.None? || t.duration.value > 0
  {
  }
}
