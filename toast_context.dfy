/** The toast notifications: a list of messages that the provider appends to
    and removes from by id. */
module ToastContext {
  import opened Common

  datatype ToastKind = SuccessToast | ErrorToast | InfoToast

  datatype ToastMessage = ToastMessage(id: string, message: string, kind: ToastKind)

  const OutsideProvider: string := "useToast must be used within a ToastProvider"

  /** The filter test of `remove`: a toast with another id stays */
  function KeepsOther(id: string): ToastMessage -> bool {
    (toast: ToastMessage) => toast.id != id
  }

  /** The list `remove(id)` leaves */
  function Without(toasts: seq<ToastMessage>, id: string): seq<ToastMessage> {
    Filter(toasts, KeepsOther(id))
  }

  /** Removal drops exactly the toasts with that id and keeps the others in
      their order; an id nobody has leaves the list as it was */
  lemma WithoutSpec(toasts: seq<ToastMessage>, id: string)
    ensures forall t :: t in Without(toasts, id) <==> t in toasts && t.id != id
    ensures IsSubseq(Without(toasts, id), toasts)
    ensures (forall t :: t in toasts ==> t.id != id) ==> Without(toasts, id) == toasts
  {
    forall t ensures t in Without(toasts, id) <==> t in toasts && t.id != id {
      FilterMembership(toasts, KeepsOther(id), t);
    }
    FilterKeepsOrder(toasts, KeepsOther(id));
    if forall t :: t in toasts ==> t.id != id {
      FilterAll(toasts, KeepsOther(id));
    }
  }

  /** Removing a toast just added takes it away again, when its id was fresh */
  lemma AddThenRemove(toasts: seq<ToastMessage>, toast: ToastMessage)
    requires forall t :: t in toasts ==> t.id != toast.id
    ensures Without(toasts + [toast], toast.id) == toasts
  {
    WithoutSpec(toasts, toast.id);
    AppendWithout(toasts, toast, toast.id);
  }

  lemma {:induction false} AppendWithout(toasts: seq<ToastMessage>, toast: ToastMessage, id: string)
    ensures Without(toasts + [toast], id) ==
            Without(toasts, id) + (if toast.id != id then [toast] else [])
  {
    if toasts == [] {
      assert [toast][1..] == [];
    } else {
      assert (toasts + [toast])[1..] == toasts[1..] + [toast];
      AppendWithout(toasts[1..], toast, id);
    }
  }

  class ToastStore {
    var toasts: seq<ToastMessage>

    constructor ()
      ensures toasts == []
    {
      toasts := [];
    }

    /** `addToast`: one toast at the end; `id` is the random id the source draws */
    method AddToast(id: string, message: string, kind: ToastKind)
      modifies this
      ensures toasts == old(toasts) + [ToastMessage(id, message, kind)]
    {
      toasts := toasts + [ToastMessage(id, message, kind)];
    }

    method Remove(id: string)
      modifies this
      ensures toasts == Without(old(toasts), id)
      ensures forall t :: t in toasts <==> t in old(toasts) && t.id != id
    {
      WithoutSpec(toasts, id);
      toasts := Without(toasts, id);
    }

    method Success(id: string, message: string)
      modifies this
      ensures toasts == old(toasts) + [ToastMessage(id, message, SuccessToast)]
    {
      AddToast(id, message, SuccessToast);
    }

    method Error(id: string, message: string)
      modifies this
      ensures toasts == old(toasts) + [ToastMessage(id, message, ErrorToast)]
    {
      AddToast(id, message, ErrorToast);
    }

    method Info(id: string, message: string)
      modifies this
      ensures toasts == old(toasts) + [ToastMessage(id, message, InfoToast)]
    {
      AddToast(id, message, InfoToast);
    }
  }

  /** `useToast`: throws outside a provider */
  function UseToast(context: Option<ToastStore>): (r: Result<ToastStore>)
    ensures context.None? <==> r.Err?
    ensures r.Err? ==> r.message == OutsideProvider
    ensures context.Some? ==> r == Ok(context.value)
  {
    match context
    case None => Err(OutsideProvider)
    case Some(store) => Ok(store)
  }
}
