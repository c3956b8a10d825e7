/** Whole open/dismiss/exit cycles driven through `Popup`, each proving what
    the caller awaiting `open` receives. The transition's enter and exit
    callbacks are fired explicitly, as the animation would. */
module Scenarios {
  import opened Js
  import opened Async
  import opened Config
  import opened Gates
  import opened Lifecycle

  /** Confirm popup titled "Delete?": a click on the mask does nothing,
      because `maskClosable` defaults off for this variant. */
  method ConfirmIgnoresMaskClick() returns (visible: bool, deferredPending: bool)
    ensures visible && deferredPending
  {
    var p := new Popup(map["type" := ConfirmType]);
    var promise := p.Open(Some(map["title" := Str("Delete?")]));
    ConfirmIgnoresMask(p.props, p.dynamicConfig, true);
    p.HandleMaskClick(true);
    visible := p.visible;
    deferredPending := p.deferred == Some(promise);
  }

  /** Confirm popup titled "Delete?": the default Cancel button delivers
      `false`, and the exit releases the scroll lock. */
  method ConfirmCancel() returns (received: JsValue, scrollLocked: bool)
    ensures received == Bool(false) && !scrollLocked
  {
    var p := new Popup(map["type" := ConfirmType]);
    var promise := p.Open(Some(map["title" := Str("Delete?")]));
    p.OnVisible();
    p.HandleCancel();
    p.HandleModalExit();
    received := AsyncWrap(p.settlements[|p.settlements| - 1].result).value;
    scrollLocked := p.scrollLocked;
  }

  /** Modal popup with default settings: a click on the mask cancels and
      the caller receives `false`. */
  method ModalMaskClick() returns (received: JsValue)
    ensures received == Bool(false)
  {
    var p := new Popup(map["type" := ModalType]);
    var promise := p.Open(None);
    p.OnVisible();
    DefaultsLetMaskCancel(p.props, p.dynamicConfig);
    p.HandleMaskClick(true);
    assert !p.visible;
    p.HandleModalExit();
    received := AsyncWrap(p.settlements[|p.settlements| - 1].result).value;
  }

  /** `ok(0)`: the accepted value is falsy, so the caller receives `true`. */
  method OkWithZero() returns (received: JsValue)
    ensures received == Bool(true)
  {
    var p := new Popup(map[]);
    var promise := p.Open(None);
    p.OnOk(Num(0));
    p.HandleModalExit();
    received := AsyncWrap(p.settlements[|p.settlements| - 1].result).value;
  }

  /** OK followed by Cancel before the exit callback: nothing guards the
      second request, so the later Cancel decides the outcome. */
  method LastDismissalWins() returns (received: JsValue)
    ensures received == Bool(false)
  {
    var p := new Popup(map[]);
    var promise := p.Open(None);
    p.HandleOk();
    p.HandleCancel();
    p.HandleModalExit();
    received := AsyncWrap(p.settlements[|p.settlements| - 1].result).value;
  }

  /** Two `open` calls in a row: the first promise is never settled, the
      second receives the outcome; a second exit settles nothing more. */
  method OpenTwice() returns (firstSettled: bool, settledCount: nat, received: JsValue)
    ensures !firstSettled && settledCount == 1 && received == Bool(true)
  {
    var p := new Popup(map[]);
    var first := p.Open(None);
    var second := p.Open(None);
    p.HandleOk();
    p.HandleModalExit();
    p.HandleModalExit();
    assert first in p.abandoned;
    firstSettled := first in SettledIds(p.settlements);
    settledCount := |p.settlements|;
    received := AsyncWrap(p.settlements[|p.settlements| - 1].result).value;
  }

  /** `closable: false` alone does not stop Escape: `closeOnEscape` is
      still `true` from the defaults, so Escape cancels. */
  method UnclosableStillEscapes() returns (stopped: bool, visible: bool)
    ensures stopped && !visible
  {
    var p := new Popup(map["closable" := Bool(false)]);
    var promise := p.Open(None);
    UnclosableKeepsEscape(p.props, p.dynamicConfig);
    stopped := p.HandleEscape(Num(KeycodeEsc), Undefined);
    visible := p.visible;
  }

  /** An exit with no dismissal recorded on a fresh popup delivers the
      initial outcome, an acceptance of `undefined`, received as `true`. */
  method ExitWithoutDismissal() returns (received: JsValue)
    ensures received == Bool(true)
  {
    var p := new Popup(map[]);
    var promise := p.Open(None);
    p.HandleModalExit();
    received := AsyncWrap(p.settlements[|p.settlements| - 1].result).value;
  }

  /** `open` does not reset the recorded outcome: after a cancelled cycle,
      an exit with no new dismissal settles the next promise with the
      stale cancellation. */
  method StaleOutcome() returns (received: JsValue)
    ensures received == Bool(false)
  {
    var p := new Popup(map[]);
    var one := p.Open(None);
    p.HandleCancel();
    p.HandleModalExit();
    var two := p.Open(None);
    p.HandleModalExit();
    received := AsyncWrap(p.settlements[|p.settlements| - 1].result).value;
  }
}
