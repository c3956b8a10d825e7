/** The decisions the popup takes from its merged configuration: whether
    Escape or a click on the mask cancels, which affordances are rendered
    and which ARIA role the dialog carries. */
module Gates {
  import opened Js
  import opened Config

  /** `KEYCODE_ESC`. */
  const KeycodeEsc: int := 27

  /** `event.which || event.keyCode`. */
  function KeyOf(which: JsValue, keyCode: JsValue): JsValue {
    Or(which, keyCode)
  }

  /** The condition in `handleEscape`. */
  predicate EscapeCancels(key: JsValue, cfg: Props) {
    (Get(cfg, "closable") != Bool(false) || Get(cfg, "closeOnEscape") != Bool(false))
    && key == Num(KeycodeEsc)
  }

  /** The conditions in `handleMaskClick`; `targetIsWrapper` stands for
      `this.myRef.current === e.target`. */
  predicate MaskClickCancels(cfg: Props, targetIsWrapper: bool) {
    if Get(cfg, "closable") == Bool(false) then false
    else Get(cfg, "maskClosable") != Bool(false) && targetIsWrapper
  }

  /** The condition in `renderCloseButton`: merged `type`, not `props.type`. */
  predicate ShowsCloseButton(cfg: Props) {
    Get(cfg, "type") == ModalType && Get(cfg, "closable") != Bool(false)
  }

  /** The ARIA role, chosen by `props.type`. */
  function Role(props: Props): (role: string)
    ensures role == "alertdialog" <==> IsConfirm(props)
    ensures role == "dialog" <==> !IsConfirm(props)
  {
    if Get(props, "type") == ConfirmType then "alertdialog" else "dialog"
  }

  /** What a default footer button does when clicked: `handleOK` calls
      `onOk(true)`, `handleCancel` calls `onCancel(false)`. */
  datatype Action = OkAction | CancelAction

  datatype Button = Button(text: JsValue, action: Action)

  datatype Footer =
    | NoFooter
    | CustomFooter(content: JsValue)
    | DefaultFooter(buttons: seq<Button>)

  /** `getRenderableWithProps(footer)` for a footer that is not `null`: a
      function is called with `{cancel, ok}` and `called` is what it returns;
      an element (cloned with those handles) or any other value is rendered
      as given. */
  function FooterContent(footer: JsValue, called: JsValue): JsValue {
    if footer.Fn? then called else footer
  }

  /** `renderFooter`: no footer for `footer === null`; the caller's content
      when it renders to anything but `undefined`; otherwise the default
      Cancel and OK buttons, Cancel only while `closable !== false`. */
  function RenderFooter(cfg: Props, called: JsValue): (f: Footer)
    ensures f.NoFooter? <==> Get(cfg, "footer") == Null
    ensures f.CustomFooter? ==>
      f.content == FooterContent(Get(cfg, "footer"), called) && f.content != Undefined
    ensures f.DefaultFooter? <==>
      Get(cfg, "footer") != Null && FooterContent(Get(cfg, "footer"), called) == Undefined
    ensures f.DefaultFooter? ==>
      && 1 <= |f.buttons| <= 2
      && f.buttons[|f.buttons| - 1].action == OkAction
      && (|f.buttons| == 2 <==> Get(cfg, "closable") != Bool(false))
      && (forall b :: b in f.buttons ==> Truthy(b.text))
      && (forall b :: b in f.buttons && b.action == CancelAction ==> b == f.buttons[0])
      && (|f.buttons| == 2 ==> f.buttons[0] == Button(Or(Get(cfg, "cancelText"), Str("Cancel")), CancelAction))
      && f.buttons[|f.buttons| - 1] == Button(Or(Get(cfg, "okText"), Str("Ok")), OkAction)
  {
    var footer := Get(cfg, "footer");
    if footer == Null then NoFooter
    else
      var content := FooterContent(footer, called);
      if content != Undefined then CustomFooter(content)
      else
        var cancel := Button(Or(Get(cfg, "cancelText"), Str("Cancel")), CancelAction);
        var ok := Button(Or(Get(cfg, "okText"), Str("Ok")), OkAction);
        DefaultFooter((if Get(cfg, "closable") != Bool(false) then [cancel] else []) + [ok])
  }

  /** Escape is refused only when the caller sets both `closable` and
      `closeOnEscape` to `false`; `closable: false` alone does not block it,
      because `closeOnEscape` defaults to `true`. */
  lemma {:induction false} EscapeGate(props: Props, dynamicConfig: Option<Props>, key: JsValue)
    ensures EscapeCancels(key, AllProps(props, dynamicConfig)) <==>
      key == Num(KeycodeEsc) &&
      !(UserSetting(props, dynamicConfig, "closable") == Bool(false) &&
        UserSetting(props, dynamicConfig, "closeOnEscape") == Bool(false))
  {
    AllPropsPrecedence(props, dynamicConfig, "closable");
    AllPropsPrecedence(props, dynamicConfig, "closeOnEscape");
    if !UserDefines(props, dynamicConfig, "closable") {
      UserSettingOfUndefinedKey(props, dynamicConfig, "closable");
    }
    if !UserDefines(props, dynamicConfig, "closeOnEscape") {
      UserSettingOfUndefinedKey(props, dynamicConfig, "closeOnEscape");
    }
  }

  /** A key nobody configured reads as `undefined`. */
  lemma UserSettingOfUndefinedKey(props: Props, dynamicConfig: Option<Props>, k: string)
    requires !UserDefines(props, dynamicConfig, k)
    ensures UserSetting(props, dynamicConfig, k) == Undefined
  {
    var u2, u1 := [props, DynamicLayer(dynamicConfig)], [props];
    assert u2[..1] == u1 && u1[..0] == [];
    assert LayeredGet(u2, k) == LayeredGet(u1, k) == LayeredGet([], k);
  }

  /** A mask click on the wrapper cancels unless the caller makes the popup
      unclosable or turns `maskClosable` off; left unset, `maskClosable`
      follows the variant of `props.type` (on for Modal, off for Confirm). */
  lemma {:induction false} MaskGate(props: Props, dynamicConfig: Option<Props>, targetIsWrapper: bool)
    ensures MaskClickCancels(AllProps(props, dynamicConfig), targetIsWrapper) <==>
      && targetIsWrapper
      && UserSetting(props, dynamicConfig, "closable") != Bool(false)
      && if UserDefines(props, dynamicConfig, "maskClosable")
         then UserSetting(props, dynamicConfig, "maskClosable") != Bool(false)
         else !IsConfirm(props)
  {
    AllPropsPrecedence(props, dynamicConfig, "closable");
    AllPropsPrecedence(props, dynamicConfig, "maskClosable");
    if !UserDefines(props, dynamicConfig, "closable") {
      UserSettingOfUndefinedKey(props, dynamicConfig, "closable");
    }
  }

  /** The close button shows for the merged Modal type unless the caller
      makes the popup unclosable; no default supplies a `type`. */
  lemma {:induction false} CloseButtonGate(props: Props, dynamicConfig: Option<Props>)
    ensures ShowsCloseButton(AllProps(props, dynamicConfig)) <==>
      UserSetting(props, dynamicConfig, "type") == ModalType &&
      UserSetting(props, dynamicConfig, "closable") != Bool(false)
  {
    AllPropsPrecedence(props, dynamicConfig, "type");
    AllPropsPrecedence(props, dynamicConfig, "closable");
    if !UserDefines(props, dynamicConfig, "type") {
      UserSettingOfUndefinedKey(props, dynamicConfig, "type");
    }
    if !UserDefines(props, dynamicConfig, "closable") {
      UserSettingOfUndefinedKey(props, dynamicConfig, "closable");
    }
  }

  /** The default footer offers Cancel if and only if the caller has not set
      `closable` to `false`; no default supplies `closable`. */
  lemma {:induction false} FooterGate(props: Props, dynamicConfig: Option<Props>, called: JsValue)
    requires RenderFooter(AllProps(props, dynamicConfig), called).DefaultFooter?
    ensures |RenderFooter(AllProps(props, dynamicConfig), called).buttons| == 2 <==>
      UserSetting(props, dynamicConfig, "closable") != Bool(false)
  {
    AllPropsPrecedence(props, dynamicConfig, "closable");
    if !UserDefines(props, dynamicConfig, "closable") {
      UserSettingOfUndefinedKey(props, dynamicConfig, "closable");
    }
  }

  /** The ARIA role and the variant's mask default are both chosen by
      `props.type`: whatever the dynamic configuration, a popup is an
      `alertdialog` exactly when an unset `maskClosable` reads `false`. */
  lemma RoleMatchesMaskDefault(props: Props, dynamicConfig: Option<Props>)
    requires !UserDefines(props, dynamicConfig, "maskClosable")
    ensures Role(props) == "alertdialog" <==>
      Get(AllProps(props, dynamicConfig), "maskClosable") == Bool(false)
  {
    MaskDefaultFollowsPropsType(props, dynamicConfig);
  }

  /** Props of type Confirm opened with `{type: Modal}`: the merged type
      brings a close button, while the role and the mask default still
      follow `props.type`. */
  lemma DynamicTypeSplitsVariant()
    ensures
      var props, dyn := map["type" := ConfirmType], Some(map["type" := ModalType]);
      && ShowsCloseButton(AllProps(props, dyn))
      && Role(props) == "alertdialog"
      && !MaskClickCancels(AllProps(props, dyn), true)
  {
    var props, dyn := map["type" := ConfirmType], Some(map["type" := ModalType]);
    CloseButtonGate(props, dyn);
    MaskGate(props, dyn, true);
    var u2, u1 := [props, DynamicLayer(dyn)], [props];
    assert u2[..1] == u1 && u1[..0] == [];
  }

  /** Unless the caller sets `maskClosable`, a Confirm popup ignores every
      mask click. */
  lemma ConfirmIgnoresMask(props: Props, dynamicConfig: Option<Props>, targetIsWrapper: bool)
    requires IsConfirm(props) && !UserDefines(props, dynamicConfig, "maskClosable")
    ensures !MaskClickCancels(AllProps(props, dynamicConfig), targetIsWrapper)
  {
    MaskGate(props, dynamicConfig, targetIsWrapper);
  }

  /** With `closable` and `maskClosable` left unset, any popup whose props
      are not of type Confirm cancels on a click on the wrapper. */
  lemma DefaultsLetMaskCancel(props: Props, dynamicConfig: Option<Props>)
    requires !IsConfirm(props)
    requires !UserDefines(props, dynamicConfig, "closable")
    requires !UserDefines(props, dynamicConfig, "maskClosable")
    ensures MaskClickCancels(AllProps(props, dynamicConfig), true)
  {
    MaskGate(props, dynamicConfig, true);
    UserSettingOfUndefinedKey(props, dynamicConfig, "closable");
  }

  /** Leaving `closeOnEscape` unset keeps Escape working whatever
      `closable` is. */
  lemma UnclosableKeepsEscape(props: Props, dynamicConfig: Option<Props>)
    requires !UserDefines(props, dynamicConfig, "closeOnEscape")
    ensures EscapeCancels(Num(KeycodeEsc), AllProps(props, dynamicConfig))
  {
    EscapeGate(props, dynamicConfig, Num(KeycodeEsc));
    UserSettingOfUndefinedKey(props, dynamicConfig, "closeOnEscape");
  }
}
