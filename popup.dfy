/** The `Popup` component's lifecycle: `open` arms a deferred result and
    shows the popup, OK and Cancel hide it and record an outcome, and the
    exit callback of the transition settles the deferred with that outcome
    and releases what the enter callback took (focus trap, scroll lock). */
module Lifecycle {
  import opened Js
  import opened Async
  import opened Config
  import opened Gates

  /** Identity of the promise made by one `open`; its `resolve` and `reject`
      are always assigned and cleared together with it. */
  type DeferredId = nat
  /** Identity of the release function returned by one `trapFocus`. */
  type FocusHandle = nat

  /** The field `resolved`: the last recorded dismissal. */
  datatype Outcome = Outcome(hasResolved: bool, value: JsValue)

  /** One call of a stored `resolve` or `reject`. */
  datatype Settlement = Settlement(promise: DeferredId, result: Settled)

  /** Everything the popup holds, in one value. */
  datatype PopupState = PopupState(
    visible: bool,
    resolved: Outcome,
    deferred: Option<DeferredId>,
    dynamicConfig: Option<Props>,
    removeFocusListener: Option<FocusHandle>,
    scrollLocked: bool,
    settlements: seq<Settlement>,
    releases: seq<FocusHandle>,
    deferredCount: nat,
    focusCount: nat,
    abandoned: set<DeferredId>)

  /** A fresh instance: hidden, nothing pending, and the recorded outcome
      `{hasResolved: true, value: undefined}`. */
  const Initial: PopupState :=
    PopupState(false, Outcome(true, Undefined), None, None, None, false, [], [], 0, 0, {})

  /** The promises the log settles. */
  function SettledIds(s: seq<Settlement>): set<DeferredId> {
    if s == [] then {} else SettledIds(s[..|s| - 1]) + {s[|s| - 1].promise}
  }

  /** No promise is settled twice in the log. */
  predicate SettledOnce(s: seq<Settlement>) {
    s == [] || (SettledOnce(s[..|s| - 1]) && s[|s| - 1].promise !in SettledIds(s[..|s| - 1]))
  }

  /** No handle occurs twice. */
  predicate Distinct(s: seq<FocusHandle>) {
    s == [] || (Distinct(s[..|s| - 1]) && s[|s| - 1] !in s[..|s| - 1])
  }

  /** `resolve(value)` when `hasResolved == true`, `reject(value)` otherwise. */
  function SettlementOf(o: Outcome): Settled {
    if o.hasResolved then Fulfilled(o.value) else Rejected(o.value)
  }

  /** What the caller awaiting `open` receives for a recorded outcome: its
      value when truthy, otherwise `true` for an acceptance and `false` for
      a cancellation, and never a rejection. */
  lemma ReceivedValue(o: Outcome)
    ensures AsyncWrap(SettlementOf(o)).Fulfilled?
    ensures AsyncWrap(SettlementOf(o)).value == if Truthy(o.value) then o.value else Bool(o.hasResolved)
  {
  }

  /** What the exit callback settles: the pending deferred, if there is one. */
  function ExitSettlements(deferred: Option<DeferredId>, resolved: Outcome): seq<Settlement> {
    match deferred
    case None => []
    case Some(d) => [Settlement(d, SettlementOf(resolved))]
  }

  /** `this.removeFocusListener && this.removeFocusListener()`. */
  function Released(handle: Option<FocusHandle>): seq<FocusHandle> {
    match handle
    case None => []
    case Some(h) => [h]
  }

  /** Every promise ever made is pending, settled exactly once, or abandoned
      (its resolve/reject dropped) and then never settled. */
  ghost predicate DeferredsAccounted(st: PopupState) {
    && SettledOnce(st.settlements)
    && (forall d :: d in SettledIds(st.settlements) ==> d < st.deferredCount)
    && (forall d :: d in st.abandoned ==> d < st.deferredCount && d !in SettledIds(st.settlements))
    && (forall d :: 0 <= d < st.deferredCount ==>
          st.deferred == Some(d) || d in SettledIds(st.settlements) || d in st.abandoned)
    && (st.deferred.Some? ==> st.deferred.value < st.deferredCount && st.deferred.value !in st.abandoned)
  }

  /** Every focus-release handle is invoked at most once, and the one held
      has not been invoked. */
  ghost predicate FocusAccounted(st: PopupState) {
    && Distinct(st.releases)
    && (forall h :: h in st.releases ==> h < st.focusCount)
    && (st.removeFocusListener.Some? ==>
          st.removeFocusListener.value < st.focusCount &&
          st.removeFocusListener.value !in st.releases)
  }

  /** The invariant between events: in addition, the pending promise has not
      been settled yet. */
  ghost predicate Inv(st: PopupState) {
    && DeferredsAccounted(st)
    && FocusAccounted(st)
    && (st.deferred.Some? ==> st.deferred.value !in SettledIds(st.settlements))
  }

  /** The pending promise as a set: what `open` or `afterAction` drops. */
  function Pending(deferred: Option<DeferredId>): set<DeferredId> {
    match deferred
    case None => {}
    case Some(d) => {d}
  }

  /** `open` keeps the invariant: the promise it replaces was unsettled, so
      abandoning it loses nothing, and the new one is fresh. */
  lemma {:induction false} OpenKeepsInv(st: PopupState, config: Option<Props>)
    requires Inv(st)
    ensures Inv(st.(
      visible := true,
      deferred := Some(st.deferredCount),
      dynamicConfig := config,
      deferredCount := st.deferredCount + 1,
      abandoned := st.abandoned + Pending(st.deferred)))
  {
  }

  /** Settling the pending promise keeps every promise accounted for: it
      had not been settled before. */
  lemma {:induction false} SettleKeepsAccounted(st: PopupState, d: DeferredId)
    requires Inv(st) && st.deferred == Some(d)
    ensures var s := Settlement(d, SettlementOf(st.resolved));
      && SettledIds(st.settlements + [s]) == SettledIds(st.settlements) + {d}
      && DeferredsAccounted(st.(settlements := st.settlements + [s]))
      && FocusAccounted(st.(settlements := st.settlements + [s]))
  {
    var s := Settlement(d, SettlementOf(st.resolved));
    var t := st.settlements + [s];
    assert t[..|t| - 1] == st.settlements;
  }

  /** The pending promise, unless the log has settled it. */
  function Unsettled(deferred: Option<DeferredId>, log: seq<Settlement>): set<DeferredId> {
    if deferred.Some? && deferred.value !in SettledIds(log) then {deferred.value} else {}
  }

  /** What `afterAction` clears, abandoning the pending promise unless it
      has just been settled. */
  function AfterActionState(st: PopupState): PopupState {
    st.(
      deferred := None,
      dynamicConfig := None,
      scrollLocked := false,
      removeFocusListener := None,
      releases := st.releases + Released(st.removeFocusListener),
      abandoned := st.abandoned + Unsettled(st.deferred, st.settlements))
  }

  /** `afterAction` restores the invariant: with nothing pending, every
      promise is settled or abandoned, and the released handle had not
      been released before. */
  lemma {:induction false} AfterActionKeepsInv(st: PopupState)
    requires DeferredsAccounted(st) && FocusAccounted(st)
    ensures Inv(AfterActionState(st))
  {
    var r := AfterActionState(st);
    if st.removeFocusListener.Some? {
      assert r.releases[..|r.releases| - 1] == st.releases;
    } else {
      assert r.releases == st.releases;
    }
  }

  class Popup {
    /** `this.props`. */
    const props: Props
    /** `this.state.visible`. */
    var visible: bool
    var resolved: Outcome
    /** `promise`, `resolve` and `reject`. */
    var deferred: Option<DeferredId>
    var dynamicConfig: Option<Props>
    var removeFocusListener: Option<FocusHandle>
    /** `document.body.style.overflow == "hidden"`. */
    var scrollLocked: bool
    /** The calls made to stored `resolve`/`reject` functions, in order. */
    var settlements: seq<Settlement>
    /** The release handles invoked, in order. */
    var releases: seq<FocusHandle>
    /** How many promises `open` has made; the next one gets this id. */
    var deferredCount: nat
    /** How many focus traps were engaged; the next handle gets this id. */
    var focusCount: nat
    /** Promises whose resolve/reject were dropped without being called. */
    ghost var abandoned: set<DeferredId>

    ghost function Snapshot(): PopupState
      reads this
    {
      PopupState(visible, resolved, deferred, dynamicConfig, removeFocusListener, scrollLocked,
                 settlements, releases, deferredCount, focusCount, abandoned)
    }

    ghost predicate Valid()
      reads this
    {
      Inv(Snapshot())
    }

    /** `this.allProps`. */
    function Merged(): Props
      reads this
    {
      AllProps(props, dynamicConfig)
    }

    constructor (props: Props)
      ensures this.props == props
      ensures Snapshot() == Initial && Valid()
    {
      this.props := props;
      visible := false;
      resolved := Outcome(true, Undefined);
      deferred := None;
      dynamicConfig := None;
      removeFocusListener := None;
      scrollLocked := false;
      settlements := [];
      releases := [];
      deferredCount := 0;
      focusCount := 0;
      abandoned := {};
    }

    /** `open(dynamicProps)`: a fresh promise replaces the pending one, whose
        resolve/reject are dropped for good; the recorded outcome is kept. */
    method Open(config: Option<Props>) returns (promise: DeferredId)
      requires Valid()
      modifies this
      ensures Valid()
      ensures promise == old(deferredCount)
      ensures Snapshot() == old(Snapshot()).(
        visible := true,
        deferred := Some(promise),
        dynamicConfig := config,
        deferredCount := old(deferredCount) + 1,
        abandoned := old(abandoned) + Pending(old(deferred)))
    {
      ghost var before := Snapshot();
      OpenKeepsInv(before, config);
      dynamicConfig := None;
      abandoned := abandoned + Pending(deferred);
      promise := deferredCount;
      deferred := Some(promise);
      deferredCount := deferredCount + 1;
      if config.Some? {
        dynamicConfig := config;
      }
      visible := true;
      assert Snapshot() == before.(visible := true, deferred := Some(before.deferredCount),
        dynamicConfig := config, deferredCount := before.deferredCount + 1,
        abandoned := before.abandoned + Pending(before.deferred));
    }

    /** `onVisible`, the enter callback: lock body scroll and engage a
        focus trap. A handle still held is overwritten, not invoked. */
    method OnVisible()
      requires Valid()
      modifies this
      ensures Valid()
      ensures Snapshot() == old(Snapshot()).(
        scrollLocked := true,
        removeFocusListener := Some(old(focusCount)),
        focusCount := old(focusCount) + 1)
    {
      scrollLocked := true;
      removeFocusListener := Some(focusCount);
      focusCount := focusCount + 1;
    }

    /** `onOk(value = true)`: hide, then record an acceptance. Nothing guards
        a second call: each one overwrites the record. */
    method OnOk(value: JsValue)
      requires Valid()
      modifies this
      ensures Valid()
      ensures Snapshot() == old(Snapshot()).(
        visible := false,
        resolved := Outcome(true, DefaultArg(value, Bool(true))))
    {
      visible := false;
      resolved := Outcome(true, DefaultArg(value, Bool(true)));
    }

    /** `onCancel(value = false)`: hide, then record a cancellation. */
    method OnCancel(value: JsValue)
      requires Valid()
      modifies this
      ensures Valid()
      ensures Snapshot() == old(Snapshot()).(
        visible := false,
        resolved := Outcome(false, DefaultArg(value, Bool(false))))
    {
      visible := false;
      resolved := Outcome(false, DefaultArg(value, Bool(false)));
    }

    /** `handleOK`, the default OK button. */
    method HandleOk()
      requires Valid()
      modifies this
      ensures Valid()
      ensures Snapshot() == old(Snapshot()).(visible := false, resolved := Outcome(true, Bool(true)))
    {
      OnOk(Bool(true));
    }

    /** `handleCancel`, the default Cancel button and the close button. */
    method HandleCancel()
      requires Valid()
      modifies this
      ensures Valid()
      ensures Snapshot() == old(Snapshot()).(visible := false, resolved := Outcome(false, Bool(false)))
    {
      OnCancel(Bool(false));
    }

    /** `afterAction`: clear the configuration and the promise, unlock
        scroll, invoke the focus-release handle if one is held. A promise
        still pending and unsettled here is abandoned. */
    method AfterAction()
      requires DeferredsAccounted(Snapshot()) && FocusAccounted(Snapshot())
      modifies this
      ensures Valid()
      ensures Snapshot() == AfterActionState(old(Snapshot()))
    {
      ghost var before := Snapshot();
      AfterActionKeepsInv(before);
      abandoned := abandoned + Unsettled(deferred, settlements);
      dynamicConfig := None;
      deferred := None;
      scrollLocked := false;
      if removeFocusListener.Some? {
        releases := releases + [removeFocusListener.value];
      }
      removeFocusListener := None;
      assert Snapshot() == AfterActionState(before);
    }

    /** `handleModalExit`, the exit callback: settle the pending promise, if
        any, with the recorded outcome, then `afterAction`. */
    method HandleModalExit()
      requires Valid()
      modifies this
      ensures Valid()
      ensures Snapshot() == old(Snapshot()).(
        settlements := old(settlements) + ExitSettlements(old(deferred), old(resolved)),
        deferred := None,
        dynamicConfig := None,
        scrollLocked := false,
        removeFocusListener := None,
        releases := old(releases) + Released(old(removeFocusListener)))
      ensures old(deferred).Some? ==>
        settlements[|settlements| - 1] == Settlement(old(deferred).value, SettlementOf(old(resolved)))
      ensures old(deferred).None? ==> settlements == old(settlements)
    {
      if deferred.Some? {
        SettleKeepsAccounted(Snapshot(), deferred.value);
        settlements := settlements + [Settlement(deferred.value, SettlementOf(resolved))];
      }
      AfterAction();
    }

    /** `handleEscape` on a keyup: Escape cancels unless both `closable` and
        `closeOnEscape` are `false`; the result says whether propagation was
        stopped. */
    method HandleEscape(which: JsValue, keyCode: JsValue) returns (stopped: bool)
      requires Valid()
      modifies this
      ensures Valid()
      ensures stopped == EscapeCancels(KeyOf(which, keyCode), AllProps(props, old(dynamicConfig)))
      ensures Snapshot() ==
        if stopped then old(Snapshot()).(visible := false, resolved := Outcome(false, Bool(false)))
        else old(Snapshot())
    {
      var key := KeyOf(which, keyCode);
      stopped := EscapeCancels(key, Merged());
      if stopped {
        OnCancel(Undefined);
      }
    }

    /** `handleMaskClick`: a click whose target is the wrapper itself
        cancels while the popup is closable and `maskClosable !== false`. */
    method HandleMaskClick(targetIsWrapper: bool)
      requires Valid()
      modifies this
      ensures Valid()
      ensures Snapshot() ==
        if MaskClickCancels(AllProps(props, old(dynamicConfig)), targetIsWrapper)
        then old(Snapshot()).(visible := false, resolved := Outcome(false, Bool(false)))
        else old(Snapshot())
    {
      if MaskClickCancels(Merged(), targetIsWrapper) {
        OnCancel(Undefined);
      }
    }
  }
}
