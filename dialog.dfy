/**
 * The confirm dialog, a thin layer over the overlay registry.
 *
 * `confirm(options)` creates one overlay for the confirm component, then
 * replaces its props with the options plus two handlers, `onConfirm` and
 * `onDismiss`. Each handler runs the callback registered last in its slot
 * and, only if that callback completes, closes the overlay. The builder's
 * `onConfirm`, `onDismiss` and `open` return the builder itself.
 */
module Dialog {
  import opened Common
  import opened Overlay

  /** A callback registered by the caller: it either completes or fails (throws, or its promise rejects). */
  datatype Callback = NoOp | UserCallback(token: nat, fails: bool)

  predicate Completes(c: Callback) {
    !(c.UserCallback? && c.fails)
  }

  /** What firing a handler did. */
  datatype HandlerOutcome = Closed(delivered: Option<Delivery>) | CallbackFailed

  const DialogConfirm := Component("DialogConfirm")
  const ConfirmKey := "onConfirm"
  const DismissKey := "onDismiss"

  /** `{ props: options }`, the only overlay option `confirm` passes. */
  function DialogOptions(options: Props): OverlayOptions {
    OverlayOptions(None, Some(options), None, None)
  }

  /** `{ ...options, onConfirm, onDismiss }` with the two handlers of dialog `owner`. */
  function WithHandlers(options: Props, owner: OverlayId): (r: Props)
    ensures r.Keys == options.Keys + {ConfirmKey, DismissKey}
    ensures r[ConfirmKey] == Fn(ConfirmKey, owner) && r[DismissKey] == Fn(DismissKey, owner)
    ensures forall k :: k in options && k != ConfirmKey && k != DismissKey ==> r[k] == options[k]
  {
    options + map[ConfirmKey := Fn(ConfirmKey, owner), DismissKey := Fn(DismissKey, owner)]
  }

  /**
   * The overlay list after `confirm(options)` created dialog `id` and
   * replaced its props. With a fresh id, exactly one descriptor is added, at
   * the end, and every other id is found where it was.
   */
  function ConfirmStep(list: seq<Descriptor>, id: OverlayId, options: Props): (r: seq<Descriptor>)
    ensures (forall j :: 0 <= j < |list| ==> list[j].id != id) ==>
              |r| == |list| + 1 && r[..|list|] == list && Find(r, id) == Some(|list|)
    ensures forall other :: other != id ==> Find(r, other) == Find(list, other)
  {
    var created := CreateStep(list, id, DialogConfirm, Some(DialogOptions(options)));
    var r := ReplaceStep(created, id, WithHandlers(options, id)).overlays;
    assert (forall j :: 0 <= j < |list| ==> list[j].id != id) ==> r[..|list|] == created[..|list|];
    r
  }

  /**
   * `confirm` first creates the overlay with the options as its props; after
   * the replace both its props and its snapshot are the options plus the
   * handlers, and it is hidden, unmounted and never destroyed.
   */
  lemma ConfirmAppends(list: seq<Descriptor>, id: OverlayId, options: Props)
    requires forall j :: 0 <= j < |list| ==> list[j].id != id
    ensures var created := CreateStep(list, id, DialogConfirm, Some(DialogOptions(options)));
            created[|list|].props == options && created[|list|].initialProps == options
    ensures ConfirmStep(list, id, options)[|list|]
              == Descriptor(id, DialogConfirm, false, false, false, WithHandlers(options, id), WithHandlers(options, id), None)
  {
  }

  /** The builder returned by `confirm`, with its two callback slots. */
  class ConfirmDialog {
    const registry: Registry
    const id: OverlayId
    /** The options `confirm` was called with. */
    ghost const options: Props
    var confirmCallback: Callback
    var dismissCallback: Callback

    /**
     * The registry is consistent and still holds this dialog's overlay, which
     * is never destroyed and whose snapshot stays the options plus the
     * handlers: the builder hands out no way to replace it.
     */
    ghost predicate Valid()
      reads registry
    {
      && registry.Valid() && Persistent(registry.overlays, id)
      && registry.overlays[Find(registry.overlays, id).value].initialProps == WithHandlers(options, id)
    }

    /** `confirm(options)`. */
    constructor (registry: Registry, options: Props)
      requires registry.Valid()
      modifies registry
      ensures this.registry == registry && this.options == options && Valid()
      ensures confirmCallback == NoOp && dismissCallback == NoOp
      ensures forall j :: 0 <= j < |old(registry.overlays)| ==> old(registry.overlays)[j].id != id
      ensures id == old(registry.nextId) && registry.nextId == old(registry.nextId) + 1
      ensures registry.overlays == ConfirmStep(old(registry.overlays), id, options)
      ensures registry.nextTicket == old(registry.nextTicket)
    {
      this.registry := registry;
      confirmCallback := NoOp;
      dismissCallback := NoOp;
      var newId := registry.Create(DialogConfirm, Some(DialogOptions(options)));
      this.id := newId;
      this.options := options;
      ghost var created := registry.overlays;
      CreateKeeps(old(registry.overlays), newId, DialogConfirm, Some(DialogOptions(options)));
      assert Persistent(created, newId);
      var _ := registry.Replace(newId, WithHandlers(options, newId));
    }

    method OnConfirm(fn: Callback) returns (self: ConfirmDialog)
      modifies this
      ensures self == this
      ensures confirmCallback == fn && dismissCallback == old(dismissCallback)
    {
      confirmCallback := fn;
      return this;
    }

    method OnDismiss(fn: Callback) returns (self: ConfirmDialog)
      modifies this
      ensures self == this
      ensures dismissCallback == fn && confirmCallback == old(confirmCallback)
    {
      dismissCallback := fn;
      return this;
    }

    /**
     * The builder's `open`: opens the overlay with no props, so they reset to
     * the snapshot, the options plus the handlers, and the dialog shows.
     */
    method Open() returns (self: ConfirmDialog)
      requires Valid()
      modifies registry
      ensures Valid() && self == this
      ensures var i := Find(registry.overlays, id).value;
              registry.overlays[i].props == WithHandlers(options, id)
              && registry.overlays[i].modelValue && registry.overlays[i].isMounted
      ensures registry.overlays == OpenStep(old(registry.overlays), id, None, old(registry.nextTicket)).overlays
      ensures registry.nextId == old(registry.nextId)
      ensures registry.nextTicket == old(registry.nextTicket) + 1
    {
      var _ := registry.Open(id, None);
      return this;
    }

    /** The `onConfirm` handler: runs the confirm callback registered last, then closes. */
    method HandleConfirm() returns (ran: Callback, outcome: HandlerOutcome)
      requires Valid()
      modifies registry
      ensures Valid()
      ensures ran == confirmCallback
      ensures Completes(ran) ==>
                outcome.Closed? && Step(registry.overlays, Ok(outcome.delivered)) == CloseStep(old(registry.overlays), id, Undefined)
      ensures !Completes(ran) ==> outcome == CallbackFailed && registry.overlays == old(registry.overlays)
      ensures registry.nextId == old(registry.nextId) && registry.nextTicket == old(registry.nextTicket)
    {
      ran := confirmCallback;
      outcome := RunThenClose(ran);
    }

    /** The `onDismiss` handler: runs the dismiss callback registered last, then closes. */
    method HandleDismiss() returns (ran: Callback, outcome: HandlerOutcome)
      requires Valid()
      modifies registry
      ensures Valid()
      ensures ran == dismissCallback
      ensures Completes(ran) ==>
                outcome.Closed? && Step(registry.overlays, Ok(outcome.delivered)) == CloseStep(old(registry.overlays), id, Undefined)
      ensures !Completes(ran) ==> outcome == CallbackFailed && registry.overlays == old(registry.overlays)
      ensures registry.nextId == old(registry.nextId) && registry.nextTicket == old(registry.nextTicket)
    {
      ran := dismissCallback;
      outcome := RunThenClose(ran);
    }

    /**
     * `await callback(); dialog.close()`: a failing callback ends the handler
     * before `close`, so the overlay stays as it was.
     */
    method RunThenClose(callback: Callback) returns (outcome: HandlerOutcome)
      requires Valid()
      modifies registry
      ensures Valid()
      ensures Completes(callback) ==>
                outcome.Closed? && Step(registry.overlays, Ok(outcome.delivered)) == CloseStep(old(registry.overlays), id, Undefined)
      ensures !Completes(callback) ==> outcome == CallbackFailed && registry.overlays == old(registry.overlays)
      ensures registry.nextId == old(registry.nextId) && registry.nextTicket == old(registry.nextTicket)
    {
      if !Completes(callback) {
        return CallbackFailed;
      }
      var r := registry.Close(id, Undefined);
      outcome := Closed(r.value);
    }
  }

  /** `alert`: does nothing. */
  method Alert(registry: Registry)
    ensures unchanged(registry)
  {
  }

  /** Registering again overwrites: only the callback registered last runs, even when registered after `open`. */
  method LastRegistrationRuns(dialog: ConfirmDialog, first: Callback, last: Callback) returns (ran: Callback)
    requires dialog.Valid()
    modifies dialog, dialog.registry
    ensures ran == last
  {
    var builder := dialog.OnConfirm(first);
    builder := builder.Open();
    builder := builder.OnConfirm(last);
    var outcome;
    ran, outcome := builder.HandleConfirm();
  }

  /** With no callback registered, confirming after `open` closes the dialog and settles the promise `open` made. */
  method DefaultCallbackCloses(registry: Registry, options: Props) returns (dialog: ConfirmDialog, outcome: HandlerOutcome)
    requires registry.Valid()
    modifies registry
    ensures dialog.Valid() && dialog.registry == registry
    ensures outcome == Closed(Some(Delivery(old(registry.nextTicket), Undefined)))
    ensures var i := Find(registry.overlays, dialog.id).value;
            !registry.overlays[i].modelValue && registry.overlays[i].isMounted
            && registry.overlays[i].props == WithHandlers(options, dialog.id)
  {
    dialog := new ConfirmDialog(registry, options);
    ConfirmAppends(old(registry.overlays), dialog.id, options);
    var builder := dialog.Open();
    ghost var afterOpen := registry.overlays;
    var ran;
    ran, outcome := builder.HandleConfirm();
    OpenThenClose(ConfirmStep(old(registry.overlays), dialog.id, options), dialog.id, None, old(registry.nextTicket), Undefined);
    FindAfterUpdate(afterOpen, |old(registry.overlays)|, registry.overlays[|old(registry.overlays)|], dialog.id);
  }

  /** A failing callback leaves the dialog open: there is no cleanup that closes it anyway. */
  method FailingCallbackKeepsOpen(dialog: ConfirmDialog, fn: Callback) returns (outcome: HandlerOutcome)
    requires dialog.Valid()
    requires !Completes(fn)
    modifies dialog, dialog.registry
    ensures outcome == CallbackFailed && dialog.Valid()
    ensures var i := Find(dialog.registry.overlays, dialog.id).value;
            dialog.registry.overlays[i].modelValue && dialog.registry.overlays[i].isMounted
  {
    var builder := dialog.OnConfirm(fn);
    ghost var before := dialog.registry.overlays;
    builder := builder.Open();
    var i := Find(before, dialog.id).value;
    FindAfterUpdate(before, i, dialog.registry.overlays[i], dialog.id);
    var ran;
    ran, outcome := builder.HandleConfirm();
  }
}
