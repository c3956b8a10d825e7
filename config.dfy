/** The layered configuration read through `allProps`: built-in defaults,
    then the defaults of the variant, then the component's props, then the
    configuration given to the current `open`, each later layer winning. */
module Config {
  import opened Js

  /** Values of the `type` prop (`ComponentType` in the source). */
  const ConfirmType: JsValue := Str("confirm")
  const ModalType: JsValue := Str("modal")

  /** `DEFAULTS`. */
  const Defaults: Props := map["closeOnEscape" := Bool(true)]
  /** `MODAL_DEFAULTS_PROPS`. */
  const ModalDefaults: Props := map["maskClosable" := Bool(true)]
  /** `CONFIRM_DEFAULTS_PROPS`. */
  const ConfirmDefaults: Props := map["maskClosable" := Bool(false)]

  /** Object spread `{ ...l0, ...l1, ... }` of a list of layers. */
  function Spread(layers: seq<Props>): (r: Props)
    ensures forall k :: k in r <==> exists i :: 0 <= i < |layers| && k in layers[i]
  {
    if layers == [] then map[]
    else
      var init := layers[..|layers| - 1];
      var r := Spread(init) + layers[|layers| - 1];
      assert forall k, i :: 0 <= i < |init| && k in init[i] ==> k in layers[i];
      r
  }

  /** Reference reading of a layered configuration: the value given by the
      last layer that defines the key, `undefined` when none does. */
  function LayeredGet(layers: seq<Props>, k: string): JsValue {
    if layers == [] then Undefined
    else if k in layers[|layers| - 1] then layers[|layers| - 1][k]
    else LayeredGet(layers[..|layers| - 1], k)
  }

  /** Reading a spread object is the layered reading: later layers win. */
  lemma {:induction false} SpreadLaterWins(layers: seq<Props>, k: string)
    ensures Get(Spread(layers), k) == LayeredGet(layers, k)
  {
    if layers != [] {
      SpreadLaterWins(layers[..|layers| - 1], k);
    }
  }

  /** The layered reading takes the value of a layer that defines the key
      when no later layer does. */
  lemma {:induction false} LayeredGetIsLastDefining(layers: seq<Props>, k: string, i: nat)
    requires i < |layers| && k in layers[i]
    requires forall j :: i < j < |layers| ==> k !in layers[j]
    ensures LayeredGet(layers, k) == layers[i][k]
  {
    if i < |layers| - 1 {
      var init := layers[..|layers| - 1];
      assert k !in layers[|layers| - 1];
      LayeredGetIsLastDefining(init, k, i);
    }
  }

  /** Whether the component's own props select the confirm variant. */
  predicate IsConfirm(props: Props) {
    Get(props, "type") == ConfirmType
  }

  /** The variant defaults, chosen by `props.type`, not by the merged type. */
  function VariantDefaults(props: Props): Props {
    if IsConfirm(props) then ConfirmDefaults else ModalDefaults
  }

  /** `this.dynamicConfig || {}`. */
  function DynamicLayer(dynamicConfig: Option<Props>): Props {
    match dynamicConfig
    case None => map[]
    case Some(c) => c
  }

  function Layers(props: Props, dynamicConfig: Option<Props>): seq<Props> {
    [Defaults, VariantDefaults(props), props, DynamicLayer(dynamicConfig)]
  }

  /** The getter `allProps`: every key reads as the layered configuration. */
  function AllProps(props: Props, dynamicConfig: Option<Props>): (r: Props)
    ensures forall k :: Get(r, k) == LayeredGet(Layers(props, dynamicConfig), k)
  {
    var layers := Layers(props, dynamicConfig);
    forall k ensures Get(Spread(layers), k) == LayeredGet(layers, k) {
      SpreadLaterWins(layers, k);
    }
    Spread(layers)
  }

  /** What the caller configured: the dynamic configuration over the props,
      before any default applies. */
  function UserSetting(props: Props, dynamicConfig: Option<Props>, k: string): JsValue {
    LayeredGet([props, DynamicLayer(dynamicConfig)], k)
  }

  predicate UserDefines(props: Props, dynamicConfig: Option<Props>, k: string) {
    k in props || k in DynamicLayer(dynamicConfig)
  }

  /** Each key of `allProps` in precedence order: the dynamic configuration,
      the props, the variant defaults, then `DEFAULTS`. */
  lemma {:induction false} AllPropsPrecedence(props: Props, dynamicConfig: Option<Props>, k: string)
    ensures Get(AllProps(props, dynamicConfig), k) ==
      if UserDefines(props, dynamicConfig, k) then UserSetting(props, dynamicConfig, k)
      else if k == "maskClosable" then Bool(!IsConfirm(props))
      else if k == "closeOnEscape" then Bool(true)
      else Undefined
  {
    var dyn, variant := DynamicLayer(dynamicConfig), VariantDefaults(props);
    var l4 := Layers(props, dynamicConfig);
    var l3, l2, l1 := [Defaults, variant, props], [Defaults, variant], [Defaults];
    assert l4[..3] == l3 && l3[..2] == l2 && l2[..1] == l1 && l1[..0] == [];
    assert LayeredGet(l4, k) == if k in dyn then dyn[k] else LayeredGet(l3, k);
    assert LayeredGet(l3, k) == if k in props then props[k] else LayeredGet(l2, k);
    assert LayeredGet(l2, k) == if k in variant then variant[k] else LayeredGet(l1, k);
    assert LayeredGet(l1, k) == if k in Defaults then Defaults[k] else Undefined;
    var u2, u1 := [props, dyn], [props];
    assert u2[..1] == u1 && u1[..0] == [];
    assert LayeredGet(u2, k) == if k in dyn then dyn[k] else LayeredGet(u1, k);
    assert LayeredGet(u1, k) == if k in props then props[k] else Undefined;
  }

  /** `closeOnEscape` is on unless the caller turns it off. */
  lemma CloseOnEscapeDefaultsOn(props: Props, dynamicConfig: Option<Props>)
    requires !UserDefines(props, dynamicConfig, "closeOnEscape")
    ensures Get(AllProps(props, dynamicConfig), "closeOnEscape") == Bool(true)
  {
    AllPropsPrecedence(props, dynamicConfig, "closeOnEscape");
  }

  /** The mask default follows `props.type` even when the dynamic
      configuration changes the merged `type`. */
  lemma MaskDefaultFollowsPropsType(props: Props, dynamicConfig: Option<Props>)
    requires !UserDefines(props, dynamicConfig, "maskClosable")
    ensures Get(AllProps(props, dynamicConfig), "maskClosable") == Bool(!IsConfirm(props))
  {
    AllPropsPrecedence(props, dynamicConfig, "maskClosable");
  }

  /** A null dynamic configuration contributes nothing, as an empty one. */
  lemma NullDynamicConfigIsEmpty(props: Props)
    ensures AllProps(props, None) == AllProps(props, Some(map[]))
  {
  }
}
