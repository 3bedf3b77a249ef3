/**
 * The overlay registry: one shared, ordered list of overlay descriptors
 * (modals and dialogs) with the operations create, open, close, patch,
 * replace and unMount.
 *
 * Every operation on an existing overlay (open, close, patch, replace,
 * unMount) first looks its id up in the list (a linear search) and fails
 * with "Overlay not found" when it is absent; create takes no id and never
 * fails. Each operation is specified by a step function over the list
 * (`OpenStep`, `CloseStep`, ...); the class `Registry` performs the same
 * updates in place, and the lemmas below relate the steps to one another.
 *
 * An overlay id (a fresh `Symbol` in the source) is a number drawn from a
 * counter. The promise `open` returns is a ticket drawn from a second
 * counter; a descriptor's pending resolver is the ticket it will settle.
 */
module Overlay {
  import opened Common

  // ---------------------------------------------------------------------------
  // Data
  // ---------------------------------------------------------------------------

  /**
   * A prop value or a value handed to `close`. `Fn` stands for a function
   * value: functions are compared by identity, and `(name, owner)` is that
   * identity.
   */
  datatype Value = Undefined | Str(s: string) | Num(n: int) | Bool(b: bool) | Fn(name: string, owner: nat)

  type Props = map<string, Value>

  type OverlayId = nat

  /** Stands for the promise returned by one call of `open`. */
  type Ticket = nat

  /** The component an overlay renders; only its identity matters here. */
  datatype Component = Component(name: string)

  /** `OverlayOptions`: every field may be omitted. */
  datatype OverlayOptions = OverlayOptions(
    defaultOpen: Option<bool>,
    props: Option<Props>,
    destroyOnClose: Option<bool>,
    initialProps: Option<Props>)

  datatype Descriptor = Descriptor(
    id: OverlayId,
    component: Component,
    modelValue: bool,
    isMounted: bool,
    destroyOnClose: bool,
    props: Props,
    initialProps: Props,
    pending: Option<Ticket>)

  /** `close` settling the promise `ticket` with `value`. */
  datatype Delivery = Delivery(ticket: Ticket, value: Value)

  /** The one failure: the source throws `Error("Overlay not found")`. */
  datatype OverlayError = NotFound

  datatype Result<T> = Ok(value: T) | Err(error: OverlayError)

  /** The list after an operation, and what the operation returned. */
  datatype Step<T> = Step(overlays: seq<Descriptor>, out: Result<T>)

  // ---------------------------------------------------------------------------
  // Lookup and the list invariants
  // ---------------------------------------------------------------------------

  /** `overlays.find(o => o.id === id)`, as a position: the first descriptor with that id. */
  function Find(list: seq<Descriptor>, id: OverlayId): (r: Option<nat>)
    ensures r.Some? ==> r.value < |list| && list[r.value].id == id
    ensures r.Some? ==> forall j :: 0 <= j < r.value ==> list[j].id != id
    ensures r.None? ==> forall j :: 0 <= j < |list| ==> list[j].id != id
  {
    if |list| == 0 then None
    else if list[0].id == id then Some(0)
    else
      match Find(list[1..], id)
      case None => None
      case Some(k) => Some(k + 1)
  }

  ghost predicate Unique(list: seq<Descriptor>) {
    forall i, j :: 0 <= i < j < |list| ==> list[i].id != list[j].id
  }

  /** Every id in the list was drawn before `next`. */
  ghost predicate IdsBelow(list: seq<Descriptor>, next: nat) {
    forall i :: 0 <= i < |list| ==> list[i].id < next
  }

  /** Every pending ticket in the list was drawn before `next`. */
  ghost predicate TicketsBelow(list: seq<Descriptor>, next: nat) {
    forall i :: 0 <= i < |list| && list[i].pending.Some? ==> list[i].pending.value < next
  }

  /** `id` is in the list on a descriptor that is never destroyed. */
  ghost predicate Persistent(list: seq<Descriptor>, id: OverlayId) {
    Find(list, id).Some? && !list[Find(list, id).value].destroyOnClose
  }

  /** No descriptor that is never destroyed has gone missing. */
  ghost predicate Keeps(before: seq<Descriptor>, after: seq<Descriptor>) {
    forall id :: Persistent(before, id) ==> Persistent(after, id)
  }

  // ---------------------------------------------------------------------------
  // The operations, as steps over the list
  // ---------------------------------------------------------------------------

  /** The descriptor `create` builds. */
  function NewDescriptor(id: OverlayId, component: Component, options: Option<OverlayOptions>): (d: Descriptor)
    ensures d.id == id && d.component == component && d.pending.None?
    ensures d.modelValue == d.isMounted == (options.Some? && options.value.defaultOpen == Some(true))
    ensures d.destroyOnClose == (options.Some? && options.value.destroyOnClose == Some(true))
    ensures d.props == d.initialProps
    ensures d.props == if options.Some? && options.value.props.Some? then options.value.props.value else map[]
  {
    var o := options.GetOr(OverlayOptions(None, None, None, None));
    var shown := o.defaultOpen == Some(true);
    Descriptor(id, component, shown, shown, o.destroyOnClose == Some(true),
               o.props.GetOr(map[]), o.props.GetOr(map[]), None)
  }

  /**
   * `list` with only the descriptor at `i` changed, and that one keeping its
   * id, its component and its destroyOnClose flag.
   */
  ghost predicate UpdatedAt(list: seq<Descriptor>, after: seq<Descriptor>, i: nat) {
    && i < |list| && |after| == |list|
    && (forall j :: 0 <= j < |list| && j != i ==> after[j] == list[j])
    && after[i].id == list[i].id && after[i].component == list[i].component
    && after[i].destroyOnClose == list[i].destroyOnClose
  }

  /**
   * `create`: appends a new descriptor with id `id` at the end. Every other
   * id is found where it was, and a fresh id is found at the end.
   */
  function CreateStep(list: seq<Descriptor>, id: OverlayId, component: Component, options: Option<OverlayOptions>): (r: seq<Descriptor>)
    ensures |r| == |list| + 1 && r[..|list|] == list && r[|list|] == NewDescriptor(id, component, options)
    ensures forall other :: other != id ==> Find(r, other) == Find(list, other)
    ensures (forall j :: 0 <= j < |list| ==> list[j].id != id) ==> Find(r, id) == Some(|list|)
  {
    AppendFind(list, NewDescriptor(id, component, options));
    list + [NewDescriptor(id, component, options)]
  }

  /** Writing every entry of `p` into `props`: the keys of `p` win. */
  function Merge(props: Props, p: Props): (r: Props)
    ensures r.Keys == props.Keys + p.Keys
    ensures forall k :: k in p ==> r[k] == p[k]
    ensures forall k :: k in props && k !in p ==> r[k] == props[k]
  {
    props + p
  }

  /**
   * `open(id, props?)`: fails and changes nothing for an unknown id.
   * Otherwise it merges the given props, or resets them to the snapshot when
   * none are given, shows and mounts the overlay, and makes `ticket` the one
   * pending promise, dropping any earlier one. Nothing else changes.
   */
  function OpenStep(list: seq<Descriptor>, id: OverlayId, props: Option<Props>, ticket: Ticket): (r: Step<Ticket>)
    ensures Find(list, id).None? ==> r == Step(list, Err(NotFound))
    ensures Find(list, id).Some? ==>
              var i := Find(list, id).value;
              r.out == Ok(ticket) && UpdatedAt(list, r.overlays, i)
              && r.overlays[i].modelValue && r.overlays[i].isMounted && r.overlays[i].pending == Some(ticket)
              && r.overlays[i].initialProps == list[i].initialProps
              && r.overlays[i].props == (if props.Some? then Merge(list[i].props, props.value) else list[i].initialProps)
    ensures forall x :: Find(r.overlays, x) == Find(list, x)
  {
    match Find(list, id)
    case None => Step(list, Err(NotFound))
    case Some(i) =>
      var d := list[i];
      var newProps := if props.Some? then Merge(d.props, props.value) else d.initialProps;
      var shown := d.(props := newProps, modelValue := true, isMounted := true, pending := Some(ticket));
      UpdateKeeps(list, i, shown);
      Step(list[i := shown], Ok(ticket))
  }

  /**
   * `close(id, value)`: fails and changes nothing for an unknown id.
   * Otherwise it hides the overlay and, exactly when a promise is pending,
   * settles that promise with `value` and clears it. The mount flag, the
   * props and every other descriptor stay.
   */
  function CloseStep(list: seq<Descriptor>, id: OverlayId, value: Value): (r: Step<Option<Delivery>>)
    ensures Find(list, id).None? ==> r == Step(list, Err(NotFound))
    ensures Find(list, id).Some? ==>
              var i := Find(list, id).value;
              r.out.Ok? && UpdatedAt(list, r.overlays, i)
              && !r.overlays[i].modelValue && r.overlays[i].pending.None?
              && r.overlays[i].isMounted == list[i].isMounted
              && r.overlays[i].props == list[i].props && r.overlays[i].initialProps == list[i].initialProps
              && (r.out.value.Some? <==> list[i].pending.Some?)
              && (list[i].pending.Some? ==> r.out.value.value == Delivery(list[i].pending.value, value))
    ensures forall x :: Find(r.overlays, x) == Find(list, x)
  {
    match Find(list, id)
    case None => Step(list, Err(NotFound))
    case Some(i) =>
      var d := list[i];
      var delivered := if d.pending.Some? then Some(Delivery(d.pending.value, value)) else None;
      var hidden := d.(modelValue := false, pending := None);
      UpdateKeeps(list, i, hidden);
      Step(list[i := hidden], Ok(delivered))
  }

  /**
   * `patch(id, p)`: fails and changes nothing for an unknown id. Otherwise it
   * overwrites exactly the keys of `p` in the props; the other props, the
   * snapshot, the flags, the pending promise and every other descriptor stay.
   */
  function PatchStep(list: seq<Descriptor>, id: OverlayId, p: Props): (r: Step<()>)
    ensures Find(list, id).None? ==> r == Step(list, Err(NotFound))
    ensures Find(list, id).Some? ==>
              var i := Find(list, id).value;
              r.out == Ok(()) && UpdatedAt(list, r.overlays, i)
              && r.overlays[i] == list[i].(props := r.overlays[i].props)
              && r.overlays[i].props.Keys == list[i].props.Keys + p.Keys
              && (forall k :: k in p ==> r.overlays[i].props[k] == p[k])
              && (forall k :: k in list[i].props && k !in p ==> r.overlays[i].props[k] == list[i].props[k])
    ensures forall x :: Find(r.overlays, x) == Find(list, x)
  {
    match Find(list, id)
    case None => Step(list, Err(NotFound))
    case Some(i) =>
      var patched := list[i].(props := Merge(list[i].props, p));
      UpdateKeeps(list, i, patched);
      Step(list[i := patched], Ok(()))
  }

  /**
   * `replace(id, p)`: fails and changes nothing for an unknown id. Otherwise
   * both the props and the snapshot become `p`; the flags, the pending
   * promise and every other descriptor stay.
   */
  function ReplaceStep(list: seq<Descriptor>, id: OverlayId, p: Props): (r: Step<()>)
    ensures Find(list, id).None? ==> r == Step(list, Err(NotFound))
    ensures Find(list, id).Some? ==>
              var i := Find(list, id).value;
              r.out == Ok(()) && UpdatedAt(list, r.overlays, i)
              && r.overlays[i].props == p && r.overlays[i].initialProps == p
              && r.overlays[i].modelValue == list[i].modelValue && r.overlays[i].isMounted == list[i].isMounted
              && r.overlays[i].pending == list[i].pending
    ensures forall x :: Find(r.overlays, x) == Find(list, x)
  {
    match Find(list, id)
    case None => Step(list, Err(NotFound))
    case Some(i) =>
      var replaced := list[i].(props := p, initialProps := p);
      UpdateKeeps(list, i, replaced);
      Step(list[i := replaced], Ok(()))
  }

  /**
   * `unMount(id)`: fails and changes nothing for an unknown id. A descriptor
   * destroyed on close is cut out of the list, the others keeping their
   * order; any other descriptor only loses its mount flag and stays where it
   * was, so every lookup is unchanged.
   */
  function UnMountStep(list: seq<Descriptor>, id: OverlayId): (r: Step<()>)
    ensures Find(list, id).None? ==> r == Step(list, Err(NotFound))
    ensures Find(list, id).Some? && list[Find(list, id).value].destroyOnClose ==>
              var i := Find(list, id).value;
              r.out == Ok(()) && r.overlays == list[..i] + list[i + 1..]
    ensures Find(list, id).Some? && !list[Find(list, id).value].destroyOnClose ==>
              var i := Find(list, id).value;
              r.out == Ok(()) && UpdatedAt(list, r.overlays, i)
              && r.overlays[i] == list[i].(isMounted := false)
              && (forall x :: Find(r.overlays, x) == Find(list, x))
  {
    match Find(list, id)
    case None => Step(list, Err(NotFound))
    case Some(i) =>
      if list[i].destroyOnClose then Step(list[..i] + list[i + 1..], Ok(()))
      else
        var unmounted := list[i].(isMounted := false);
        UpdateKeeps(list, i, unmounted);
        Step(list[i := unmounted], Ok(()))
  }

  // ---------------------------------------------------------------------------
  // The imperative parts
  // ---------------------------------------------------------------------------

  /** The `forEach` of `patch`: writes the entries of `source` into `target` one key at a time. */
  method AssignEntries(target: Props, source: Props) returns (r: Props)
    ensures r == Merge(target, source)
  {
    r := target;
    var todo := source.Keys;
    while todo != {}
      invariant todo <= source.Keys
      invariant r.Keys == target.Keys + (source.Keys - todo)
      invariant forall k :: k in source.Keys - todo ==> r[k] == source[k]
      invariant forall k :: k in target.Keys && k !in source.Keys - todo ==> r[k] == target[k]
      decreases todo
    {
      var k :| k in todo;
      r := r[k := source[k]];
      todo := todo - {k};
    }
  }

  /** The shared list of overlays, with the counters that draw fresh ids and tickets. */
  class Registry {
    var overlays: seq<Descriptor>
    var nextId: nat
    var nextTicket: nat

    ghost predicate Valid()
      reads this
    {
      Unique(overlays) && IdsBelow(overlays, nextId) && TicketsBelow(overlays, nextTicket)
    }

    constructor ()
      ensures Valid() && overlays == []
    {
      overlays := [];
      nextId := 0;
      nextTicket := 0;
    }

    /** Appends a descriptor with an id no descriptor has had, and returns that id. */
    method Create(component: Component, options: Option<OverlayOptions>) returns (id: OverlayId)
      requires Valid()
      modifies this
      ensures Valid()
      ensures overlays == CreateStep(old(overlays), id, component, options)
      ensures id == old(nextId) && nextId == old(nextId) + 1
      ensures forall j :: 0 <= j < |old(overlays)| ==> old(overlays)[j].id != id
      ensures nextTicket == old(nextTicket)
      ensures Keeps(old(overlays), overlays)
    {
      id := nextId;
      nextId := nextId + 1;
      ghost var before := overlays;
      overlays := overlays + [NewDescriptor(id, component, options)];
      CreateKeeps(before, id, component, options);
    }

    method Open(id: OverlayId, props: Option<Props>) returns (r: Result<Ticket>)
      requires Valid()
      modifies this
      ensures Valid()
      ensures Step(overlays, r) == OpenStep(old(overlays), id, props, old(nextTicket))
      ensures r.Ok? ==> forall j :: 0 <= j < |old(overlays)| && old(overlays)[j].pending.Some? ==>
                          old(overlays)[j].pending.value != r.value
      ensures nextId == old(nextId)
      ensures r.Err? ==> nextTicket == old(nextTicket)
      ensures r.Ok? ==> nextTicket == old(nextTicket) + 1
      ensures Keeps(old(overlays), overlays)
    {
      var found := Find(overlays, id);
      if found.None? {
        return Err(NotFound);
      }
      var i := found.value;
      ghost var before := overlays;
      if props.Some? {
        var _ := Patch(id, props.value);
      } else {
        overlays := overlays[i := overlays[i].(props := overlays[i].initialProps)];
      }
      overlays := overlays[i := overlays[i].(modelValue := true)];
      overlays := overlays[i := overlays[i].(isMounted := true)];
      r := Ok(nextTicket);
      overlays := overlays[i := overlays[i].(pending := Some(nextTicket))];
      nextTicket := nextTicket + 1;
      UpdateKeeps(before, i, overlays[i]);
    }

    method Close(id: OverlayId, value: Value) returns (r: Result<Option<Delivery>>)
      requires Valid()
      modifies this
      ensures Valid()
      ensures Step(overlays, r) == CloseStep(old(overlays), id, value)
      ensures nextId == old(nextId) && nextTicket == old(nextTicket)
      ensures Keeps(old(overlays), overlays)
    {
      var found := Find(overlays, id);
      if found.None? {
        return Err(NotFound);
      }
      var i := found.value;
      ghost var before := overlays;
      overlays := overlays[i := overlays[i].(modelValue := false)];
      var delivered := None;
      if overlays[i].pending.Some? {
        delivered := Some(Delivery(overlays[i].pending.value, value));
        overlays := overlays[i := overlays[i].(pending := None)];
      }
      r := Ok(delivered);
      UpdateKeeps(before, i, overlays[i]);
    }

    method Patch(id: OverlayId, p: Props) returns (r: Result<()>)
      requires Valid()
      modifies this
      ensures Valid()
      ensures Step(overlays, r) == PatchStep(old(overlays), id, p)
      ensures nextId == old(nextId) && nextTicket == old(nextTicket)
      ensures Keeps(old(overlays), overlays)
    {
      var found := Find(overlays, id);
      if found.None? {
        return Err(NotFound);
      }
      var i := found.value;
      ghost var before := overlays;
      var merged := AssignEntries(overlays[i].props, p);
      overlays := overlays[i := overlays[i].(props := merged)];
      r := Ok(());
      UpdateKeeps(before, i, overlays[i]);
    }

    /** `replaceProps`, which the overlay handle exposes as `replace`. */
    method Replace(id: OverlayId, p: Props) returns (r: Result<()>)
      requires Valid()
      modifies this
      ensures Valid()
      ensures Step(overlays, r) == ReplaceStep(old(overlays), id, p)
      ensures nextId == old(nextId) && nextTicket == old(nextTicket)
      ensures Keeps(old(overlays), overlays)
    {
      var found := Find(overlays, id);
      if found.None? {
        return Err(NotFound);
      }
      var i := found.value;
      ghost var before := overlays;
      overlays := overlays[i := overlays[i].(props := p)];
      overlays := overlays[i := overlays[i].(initialProps := p)];
      r := Ok(());
      UpdateKeeps(before, i, overlays[i]);
    }

    method UnMount(id: OverlayId) returns (r: Result<()>)
      requires Valid()
      modifies this
      ensures Valid()
      ensures Step(overlays, r) == UnMountStep(old(overlays), id)
      ensures nextId == old(nextId) && nextTicket == old(nextTicket)
      ensures Keeps(old(overlays), overlays)
    {
      var found := Find(overlays, id);
      if found.None? {
        return Err(NotFound);
      }
      var i := found.value;
      ghost var before := overlays;
      overlays := overlays[i := overlays[i].(isMounted := false)];
      if overlays[i].destroyOnClose {
        var index := Find(overlays, id).value;
        overlays := overlays[..index] + overlays[index + 1..];
        assert overlays == before[..i] + before[i + 1..];
        RemoveKeeps(before, i);
      } else {
        UpdateKeeps(before, i, overlays[i]);
      }
      r := Ok(());
    }
  }

  // ---------------------------------------------------------------------------
  // Lemmas: what the list invariants give and what each step keeps
  // ---------------------------------------------------------------------------

  /** Replacing a descriptor by one with the same id changes no lookup. */
  lemma {:induction false} FindAfterUpdate(list: seq<Descriptor>, i: nat, d: Descriptor, id: OverlayId)
    requires i < |list| && d.id == list[i].id
    ensures Find(list[i := d], id) == Find(list, id)
  {
    if |list| > 0 && list[0].id != id {
      if i == 0 {
        assert list[i := d][1..] == list[1..];
      } else {
        assert list[i := d][1..] == list[1..][i - 1 := d];
        FindAfterUpdate(list[1..], i - 1, d, id);
      }
    }
  }

  /**
   * An in-place update that keeps a descriptor's id and its destroyOnClose
   * flag keeps every invariant and every lookup.
   */
  lemma UpdateKeeps(list: seq<Descriptor>, i: nat, d: Descriptor)
    requires i < |list| && d.id == list[i].id && d.destroyOnClose == list[i].destroyOnClose
    ensures forall id :: Find(list[i := d], id) == Find(list, id)
    ensures Unique(list) ==> Unique(list[i := d])
    ensures forall next :: IdsBelow(list, next) ==> IdsBelow(list[i := d], next)
    ensures Keeps(list, list[i := d])
  {
    forall id ensures Find(list[i := d], id) == Find(list, id) {
      FindAfterUpdate(list, i, d, id);
    }
  }

  /** Appending a descriptor keeps every lookup of another id, and finds a fresh id at the end. */
  lemma AppendFind(list: seq<Descriptor>, d: Descriptor)
    ensures forall other :: other != d.id ==> Find(list + [d], other) == Find(list, other)
    ensures (forall j :: 0 <= j < |list| ==> list[j].id != d.id) ==> Find(list + [d], d.id) == Some(|list|)
  {
    forall other ensures other != d.id ==> Find(list + [d], other) == Find(list, other) {
      AppendFindAt(list, d, other);
    }
    AppendFindAt(list, d, d.id);
  }

  lemma {:induction false} AppendFindAt(list: seq<Descriptor>, d: Descriptor, x: OverlayId)
    ensures x != d.id ==> Find(list + [d], x) == Find(list, x)
    ensures x == d.id && (forall j :: 0 <= j < |list| ==> list[j].id != x) ==> Find(list + [d], x) == Some(|list|)
  {
    if list != [] {
      assert (list + [d])[1..] == list[1..] + [d];
      AppendFindAt(list[1..], d, x);
    }
  }

  /** Appending a descriptor with a fresh id loses no descriptor that is kept on close. */
  lemma CreateKeeps(list: seq<Descriptor>, id: OverlayId, component: Component, options: Option<OverlayOptions>)
    requires forall j :: 0 <= j < |list| ==> list[j].id != id
    ensures Keeps(list, CreateStep(list, id, component, options))
  {
    var after := CreateStep(list, id, component, options);
    forall other | Persistent(list, other) ensures Persistent(after, other) {
      assert other != id;
    }
  }

  /** Removing one descriptor from a list of unique ids removes its id and shifts the later ones down. */
  lemma RemoveFind(list: seq<Descriptor>, i: nat, id: OverlayId)
    requires Unique(list) && i < |list|
    ensures var after := list[..i] + list[i + 1..];
            Unique(after)
            && (id == list[i].id ==> Find(after, id).None?)
            && (id != list[i].id ==>
                  Find(after, id) == (match Find(list, id)
                                      case None => None
                                      case Some(k) => Some(if k < i then k else k - 1)))
  {
    var after := list[..i] + list[i + 1..];
    assert forall k :: 0 <= k < |after| ==> after[k] == if k < i then list[k] else list[k + 1];
    match Find(list, id)
    case None =>
    case Some(k) =>
      if k != i {
        var k' := if k < i then k else k - 1;
        assert after[k'].id == id;
      }
  }

  /** Removing a descriptor that is destroyed on close keeps every other descriptor. */
  lemma RemoveKeeps(list: seq<Descriptor>, i: nat)
    requires Unique(list) && i < |list| && list[i].destroyOnClose
    ensures Unique(list[..i] + list[i + 1..])
    ensures Keeps(list, list[..i] + list[i + 1..])
  {
    var after := list[..i] + list[i + 1..];
    RemoveFind(list, i, 0);
    forall id | Persistent(list, id) ensures Persistent(after, id) {
      RemoveFind(list, i, id);
    }
  }

  // ---------------------------------------------------------------------------
  // Lemmas: how the operations combine
  // ---------------------------------------------------------------------------

  /** Every operation on an id that is not in the list fails with NotFound and changes nothing. */
  lemma UnknownIdFails(list: seq<Descriptor>, id: OverlayId, props: Option<Props>, p: Props, ticket: Ticket, value: Value)
    requires forall j :: 0 <= j < |list| ==> list[j].id != id
    ensures OpenStep(list, id, props, ticket) == Step(list, Err(NotFound))
    ensures CloseStep(list, id, value) == Step(list, Err(NotFound))
    ensures PatchStep(list, id, p) == Step(list, Err(NotFound))
    ensures ReplaceStep(list, id, p) == Step(list, Err(NotFound))
    ensures UnMountStep(list, id) == Step(list, Err(NotFound))
  {
  }

  /**
   * Open then close: close settles exactly the promise open returned, with
   * exactly the value given to close, and hides the overlay while leaving it
   * mounted and its props as open left them.
   */
  lemma OpenThenClose(list: seq<Descriptor>, id: OverlayId, props: Option<Props>, ticket: Ticket, value: Value)
    requires Find(list, id).Some?
    ensures var afterOpen := OpenStep(list, id, props, ticket);
            var closed := CloseStep(afterOpen.overlays, id, value);
            var i := Find(list, id).value;
            afterOpen.out == Ok(ticket)
            && closed.out == Ok(Some(Delivery(ticket, value)))
            && !closed.overlays[i].modelValue && closed.overlays[i].isMounted
            && closed.overlays[i].props == afterOpen.overlays[i].props
  {
    var i := Find(list, id).value;
    var afterOpen := OpenStep(list, id, props, ticket);
    FindAfterUpdate(list, i, afterOpen.overlays[i], id);
  }

  /** A second close settles nothing. */
  lemma CloseTwice(list: seq<Descriptor>, id: OverlayId, v: Value, w: Value)
    requires Find(list, id).Some?
    ensures var once := CloseStep(list, id, v);
            CloseStep(once.overlays, id, w) == Step(once.overlays, Ok(None))
  {
    var i := Find(list, id).value;
    var once := CloseStep(list, id, v);
    FindAfterUpdate(list, i, once.overlays[i], id);
    assert once.overlays[i := once.overlays[i]] == once.overlays;
  }

  /**
   * Opening twice before a close, with or without props each time: the
   * second ticket replaces the first, so close settles only the second
   * promise, and afterwards no descriptor holds the first.
   */
  lemma OpenTwiceOrphansFirst(list: seq<Descriptor>, id: OverlayId, p1: Option<Props>, p2: Option<Props>,
                              t1: Ticket, t2: Ticket, value: Value)
    requires Find(list, id).Some?
    ensures var once := OpenStep(list, id, p1, t1);
            var twice := OpenStep(once.overlays, id, p2, t2);
            var closed := CloseStep(twice.overlays, id, value);
            closed.out == Ok(Some(Delivery(t2, value)))
            && (t1 != t2 && TicketsBelow(list, t1) ==>
                  forall j :: 0 <= j < |closed.overlays| ==> closed.overlays[j].pending != Some(t1))
  {
  }

  /** Open with no props after a patch restores the snapshot, not the patched values. */
  lemma PatchThenOpenResets(list: seq<Descriptor>, id: OverlayId, p: Props, ticket: Ticket)
    requires Find(list, id).Some?
    ensures var i := Find(list, id).value;
            var patched := PatchStep(list, id, p);
            var afterOpen := OpenStep(patched.overlays, id, None, ticket);
            afterOpen.overlays[i].props == list[i].initialProps
            && afterOpen.overlays[i].initialProps == list[i].initialProps
  {
  }

  /** After replace, open with no props yields the replacing props. */
  lemma ReplaceThenOpen(list: seq<Descriptor>, id: OverlayId, p: Props, ticket: Ticket)
    requires Find(list, id).Some?
    ensures var i := Find(list, id).value;
            var replaced := ReplaceStep(list, id, p);
            var afterOpen := OpenStep(replaced.overlays, id, None, ticket);
            afterOpen.overlays[i].props == p && afterOpen.overlays[i].initialProps == p
            && afterOpen.overlays[i].modelValue && afterOpen.overlays[i].isMounted
  {
  }

  /**
   * unMount of a descriptor destroyed on close removes it and keeps the others
   * in order; afterwards every operation on its id fails with NotFound.
   */
  lemma UnMountDestroys(list: seq<Descriptor>, id: OverlayId, props: Option<Props>, p: Props, ticket: Ticket, value: Value)
    requires Unique(list) && Find(list, id).Some?
    requires list[Find(list, id).value].destroyOnClose
    ensures var i := Find(list, id).value;
            var after := UnMountStep(list, id).overlays;
            after == list[..i] + list[i + 1..]
            && Find(after, id).None?
            && OpenStep(after, id, props, ticket).out == Err(NotFound)
            && CloseStep(after, id, value).out == Err(NotFound)
            && PatchStep(after, id, p).out == Err(NotFound)
            && ReplaceStep(after, id, p).out == Err(NotFound)
            && UnMountStep(after, id).out == Err(NotFound)
  {
    var i := Find(list, id).value;
    RemoveFind(list, i, id);
  }

  /**
   * An id that was drawn (it is below the counter `next`) and is no longer in
   * the list stays absent whatever operation follows: create draws `next`,
   * never an old id, and no other operation adds a descriptor.
   */
  lemma GoneStaysGone(list: seq<Descriptor>, next: nat, gone: OverlayId, id: OverlayId, component: Component,
                      options: Option<OverlayOptions>, props: Option<Props>, p: Props, ticket: Ticket, value: Value)
    requires gone < next && Find(list, gone).None?
    ensures Find(CreateStep(list, next, component, options), gone).None?
    ensures Find(OpenStep(list, id, props, ticket).overlays, gone).None?
    ensures Find(CloseStep(list, id, value).overlays, gone).None?
    ensures Find(PatchStep(list, id, p).overlays, gone).None?
    ensures Find(ReplaceStep(list, id, p).overlays, gone).None?
    ensures Find(UnMountStep(list, id).overlays, gone).None?
  {
    if Find(list, id).Some? && list[Find(list, id).value].destroyOnClose {
      RemoveAbsent(list, Find(list, id).value, gone);
    }
  }

  /** Cutting a descriptor out of the list brings back no id that was absent. */
  lemma RemoveAbsent(list: seq<Descriptor>, i: nat, x: OverlayId)
    requires i < |list| && Find(list, x).None?
    ensures Find(list[..i] + list[i + 1..], x).None?
  {
    var after := list[..i] + list[i + 1..];
    forall k | 0 <= k < |after| ensures after[k].id != x {
      assert after[k] == if k < i then list[k] else list[k + 1];
    }
  }

  /**
   * unMount of a destroy-on-close overlay, then a create: the create draws a
   * new id, so opening the removed id still fails with NotFound.
   */
  method UnMountThenCreate(registry: Registry, id: OverlayId, component: Component, options: Option<OverlayOptions>)
    returns (created: OverlayId, r: Result<Ticket>)
    requires registry.Valid() && Find(registry.overlays, id).Some?
    requires registry.overlays[Find(registry.overlays, id).value].destroyOnClose
    modifies registry
    ensures registry.Valid() && created != id
    ensures r == Err(NotFound)
  {
    ghost var before := registry.overlays;
    RemoveFind(before, Find(before, id).value, id);
    var _ := registry.UnMount(id);
    created := registry.Create(component, options);
    r := registry.Open(id, None);
  }
}
