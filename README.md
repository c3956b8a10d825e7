# react-async-popup: the `Popup` lifecycle controller in Dafny

This project models the lifecycle controller of the `Popup` component in
`src/base.tsx` of react-async-popup, an imperatively opened modal dialog
whose `open(config)` returns a promise that fulfils once the user dismisses
it. It proves properties of that model.

- `js.dfy` (module `Js`): the JavaScript semantics the component relies on.
  It covers values and truthiness, `||`, default parameters, and plain
  objects read by key.
- `async.dfy` (module `Async`): `asyncWrap`, the normaliser that turns
  the internal promise into one that never rejects.
- `config.dfy` (module `Config`): the `allProps` merge. `DEFAULTS` come
  first, then the variant defaults chosen by `props.type`, then the props,
  then the configuration of the current `open`. It is an object spread of
  layers, proved equal to a reference reading: "the last layer that
  defines the key wins".
- `gates.dfy` (module `Gates`): the boolean decisions taken from the merged
  configuration. These are the Escape gate, the mask-click gate, the close
  button, the default footer and the ARIA role. Each is connected to the
  layered configuration by a lemma.
- `popup.dfy` (module `Lifecycle`): the class `Popup`. Its fields are
  `visible`, the recorded outcome `resolved`, the pending promise with its
  `resolve`/`reject`, `dynamicConfig`, the focus-release handle and the
  body-scroll lock. Each of `open`, `onVisible`, `onOk`, `onCancel`,
  `afterAction`, `handleModalExit`, `handleEscape` and `handleMaskClick` is
  a method. The method states the popup's whole new state and keeps the
  invariant `Inv`:
  - every promise ever made is pending, settled exactly once, or abandoned;
  - an abandoned promise is never settled;
  - every focus-release handle is invoked at most once.
- `scenarios.dfy` (module `Scenarios`): whole open/dismiss/exit cycles
  driven through `Popup`. Each one proves what the caller awaiting `open`
  receives.

A JavaScript value is the datatype `JsValue`. A plain object is a
`map<string, JsValue>`, and `{...a, ...b}` is the map union `a + b`. A
promise made by `open` is identified by a counter. The calls made to its
`resolve`/`reject` are the log `settlements`. Invocations of the focus
trap's release function are the log `releases`. The transition's enter and
exit callbacks (`onVisible`, `handleModalExit`) are methods the environment
may call at any time.

Three behaviours of the code are worth stating outright, because a reader
of the component's options might expect otherwise:
- `onOk`/`onCancel` are not guarded: each call overwrites `resolved`, so
  the last request before the exit callback decides the outcome (see
  `Scenarios.LastDismissalWins`).
- Escape is refused only when `closable` and `closeOnEscape` are both
  `false`. `closeOnEscape` defaults to `true`, so `closable: false` alone
  leaves Escape working (see `Gates.EscapeGate` and
  `Scenarios.UnclosableStillEscapes`).
- `open` does not reset `resolved`. An exit with no new dismissal therefore
  delivers the previous cycle's outcome (see `Scenarios.StaleOutcome`).

## Model

| member | source | states |
|---|---|---|
| Js.Truthy | src/base.tsx:9 | Defines JavaScript's ToBoolean: `undefined`, `null`, `false`, `0` and `""` are falsy, every object and function is truthy. |
| Js.Or | src/base.tsx:9 | `a \|\| b` yields `a` when it is truthy and `b` otherwise. The result is truthy if and only if either operand is. |
| Js.DefaultArg | src/base.tsx:252 | Defines a default parameter: the default replaces `undefined` only, so `null`, `0` and `false` are kept. |
| Async.AsyncWrap | src/base.tsx:8-9 | The wrapped promise always fulfils. An accepted value arrives truthy. A truthy value passes through unchanged. A falsy value becomes `true` on acceptance and `false` on cancellation. |
| Async.AcceptDistinctFromFalsyCancel | src/base.tsx:8-9 | A cancellation with a falsy value is received as `false`. That always differs from what any acceptance delivers. |
| Async.AsyncWrapFixesTruthy | src/base.tsx:8-9 | A fulfilled value is left unchanged if and only if it is truthy. |
| Config.Spread | src/base.tsx:110 | A key is in the spread object if and only if some layer defines it. |
| Config.SpreadLaterWins | src/base.tsx:110 | Reading a key of the spread object gives the value from the last layer that defines it, and `undefined` when no layer does. |
| Config.LayeredGetIsLastDefining | src/base.tsx:110 | A layer that defines the key, with no later layer defining it, supplies the value read. |
| Config.VariantDefaults | src/base.tsx:13-23 | Defines the variant layer: `CONFIRM_DEFAULTS_PROPS` (`maskClosable: false`) for props of type Confirm, `MODAL_DEFAULTS_PROPS` (`maskClosable: true`) otherwise. `Config.AllPropsPrecedence` states what it contributes. |
| Config.DynamicLayer | src/base.tsx:110 | Defines `this.dynamicConfig \|\| {}`: no configuration reads as the empty object (see `Config.NullDynamicConfigIsEmpty`). |
| Config.AllProps | src/base.tsx:108-111 | Every key of `allProps` reads as the layered configuration `DEFAULTS`, variant defaults, props, `dynamicConfig` (or `{}`). |
| Config.AllPropsPrecedence | src/base.tsx:108-111 | A key set by the dynamic configuration or the props takes that setting, dynamic first. Otherwise `maskClosable` is `false` for props of type Confirm and `true` for any other props, `closeOnEscape` is `true`, and every other key is `undefined`. |
| Config.CloseOnEscapeDefaultsOn | src/base.tsx:13-15 | `closeOnEscape` reads `true` unless the props or the dynamic configuration set it. |
| Config.MaskDefaultFollowsPropsType | src/base.tsx:109 | When the caller leaves `maskClosable` unset, it follows `props.type`, whatever `type` the dynamic configuration gives. |
| Config.NullDynamicConfigIsEmpty | src/base.tsx:110 | A null `dynamicConfig` gives the same merged configuration as an empty one. |
| Gates.KeyOf | src/base.tsx:184 | Defines the key read from the event as `event.which \|\| event.keyCode`. |
| Gates.EscapeCancels | src/base.tsx:186 | Defines the Escape test on the merged configuration. `Gates.EscapeGate` states it in terms of the caller's settings. |
| Gates.MaskClickCancels | src/base.tsx:236-238 | Defines the mask-click test: the early return for `closable === false`, then `maskClosable !== false` and a click on the wrapper. `Gates.MaskGate` states it in terms of the caller's settings. |
| Gates.ShowsCloseButton | src/base.tsx:136-138 | Defines the close-button test on the merged `type` and `closable`. `Gates.CloseButtonGate` states it in terms of the caller's settings. |
| Gates.FooterContent | src/base.tsx:192-205 | Defines `getRenderableWithProps` for a footer that is not `null`: a function renders to what it returns, anything else to itself. |
| Gates.EscapeGate | src/base.tsx:183-190 | Escape cancels if and only if the key is 27 and the caller has not set both `closable` and `closeOnEscape` to `false`. |
| Gates.MaskGate | src/base.tsx:235-241 | A mask click cancels if and only if all three hold: the target is the wrapper; `closable` is not `false`; `maskClosable` is not `false`, or is unset and the props are not of type Confirm. |
| Gates.CloseButtonGate | src/base.tsx:135-146 | The close button shows if and only if the merged `type` is Modal and `closable` is not `false`. No default supplies a `type`. |
| Gates.Role | src/base.tsx:69 | Defines the role from `props.type`: `alertdialog` for Confirm, `dialog` otherwise. `Gates.RoleMatchesMaskDefault` ties it to the mask default. |
| Gates.RenderFooter | src/base.tsx:156-177 | `footer === null` means no footer. Content that renders to anything but `undefined` is rendered as it is. Otherwise the default footer is Cancel labelled `cancelText \|\| 'Cancel'`, present exactly when `closable !== false`, followed by OK labelled `okText \|\| 'Ok'`. Every label is truthy. |
| Gates.FooterGate | src/base.tsx:157-169 | When the default footer is rendered, it has two buttons (Cancel and OK) if and only if the caller has not set `closable` to `false`. |
| Gates.RoleMatchesMaskDefault | src/base.tsx:69 | With `maskClosable` unset, the role is `alertdialog` if and only if the merged `maskClosable` is `false`, whatever the dynamic configuration. Both follow `props.type`. |
| Gates.DynamicTypeSplitsVariant | src/base.tsx:136-138 | Props of type Confirm opened with `{type: Modal}` show the close button, since the merged type is Modal. The role stays `alertdialog` and a mask click still does nothing, since both follow `props.type`. |
| Gates.ConfirmIgnoresMask | src/base.tsx:21-23 | If the props are of type Confirm and the caller leaves `maskClosable` unset, no mask click cancels. |
| Gates.DefaultsLetMaskCancel | src/base.tsx:17-19 | If the props are not of type Confirm and the caller leaves `closable` and `maskClosable` unset, a click on the wrapper cancels. |
| Gates.UnclosableKeepsEscape | src/base.tsx:13-15 | If the caller leaves `closeOnEscape` unset, the Escape key passes the gate whatever `closable` is. |
| Lifecycle.SettlementOf | src/base.tsx:244-248 | Defines the settlement an exit makes from the recorded outcome: `resolve(value)` when `hasResolved == true`, `reject(value)` otherwise. |
| Lifecycle.ReceivedValue | src/base.tsx:243-248 | The caller receives the recorded value when it is truthy. Otherwise it receives `hasResolved` as a boolean. The promise never rejects. |
| Lifecycle.OpenKeepsInv | src/base.tsx:207-218 | The promise `open` replaces was unsettled. Abandoning it and making a fresh one keeps every promise accounted for. |
| Lifecycle.SettleKeepsAccounted | src/base.tsx:243-248 | Settling the pending promise adds it to the settled set. It had not been settled before, so no promise is settled twice. |
| Lifecycle.AfterActionKeepsInv | src/base.tsx:225-233 | Clearing the promise and invoking the held release handle restores the invariant. Nothing stays pending, and the handle had not been invoked before. |
| Lifecycle.Popup.constructor | src/base.tsx:33-50 | A new popup is hidden and holds no promise, no dynamic configuration and no focus handle. Scroll is unlocked and the recorded outcome is `{hasResolved: true, value: undefined}`. |
| Lifecycle.Popup.Open | src/base.tsx:207-218 | Shows the popup, sets `dynamicConfig` to the given configuration (or null), and arms a fresh promise. The previous pending promise is abandoned for good. `resolved` and everything else are unchanged. |
| Lifecycle.Popup.OnVisible | src/base.tsx:220-223 | Locks body scroll and holds a fresh focus-release handle. Nothing else changes. A handle still held is overwritten without being invoked. |
| Lifecycle.Popup.OnOk | src/base.tsx:252-264 | Hides the popup and records `{hasResolved: true, value}`, with `undefined` replaced by `true`. There is no guard, so each call overwrites the record. |
| Lifecycle.Popup.OnCancel | src/base.tsx:266-278 | Hides the popup and records `{hasResolved: false, value}`, with `undefined` replaced by `false`. There is no guard, so each call overwrites the record. |
| Lifecycle.Popup.HandleOk | src/base.tsx:280-282 | The OK button hides the popup and records an acceptance of `true`. |
| Lifecycle.Popup.HandleCancel | src/base.tsx:284-286 | The Cancel and close buttons hide the popup and record a cancellation with `false`. |
| Lifecycle.Popup.AfterAction | src/base.tsx:225-233 | Clears `dynamicConfig` and the promise and unlocks scroll. Invokes the held release handle once, if there is one, then drops it. A promise left unsettled is abandoned. |
| Lifecycle.Popup.HandleModalExit | src/base.tsx:243-250 | Settles the pending promise, if any, exactly once: `resolve` when `hasResolved`, `reject` otherwise, with the recorded value. Then clears as `afterAction` does. With no pending promise it settles nothing. |
| Lifecycle.Popup.HandleEscape | src/base.tsx:183-190 | When the gate holds for `which \|\| keyCode`, hides the popup, records a cancellation with `false` and stops propagation. Otherwise nothing changes. |
| Lifecycle.Popup.HandleMaskClick | src/base.tsx:235-241 | When the mask gate holds, hides the popup and records a cancellation with `false`. Otherwise nothing changes. |
| Scenarios.ConfirmIgnoresMaskClick | src/base.tsx:235-241 | Confirm popup: after a mask click it is still visible and the promise is still pending. |
| Scenarios.ConfirmCancel | src/base.tsx:243-250 | Confirm popup: Cancel then exit delivers `false` and leaves scroll unlocked. |
| Scenarios.ModalMaskClick | src/base.tsx:235-241 | Modal popup with defaults: a mask click then exit delivers `false`. |
| Scenarios.OkWithZero | src/base.tsx:8-9 | `ok(0)` then exit delivers `true`. |
| Scenarios.LastDismissalWins | src/base.tsx:252-278 | OK then Cancel before the exit delivers `false`. |
| Scenarios.OpenTwice | src/base.tsx:207-218 | Two `open` calls: the first promise is never settled and the second receives the outcome. A second exit settles nothing. |
| Scenarios.UnclosableStillEscapes | src/base.tsx:183-190 | With `closable: false` alone, Escape stops propagation and hides the popup. |
| Scenarios.ExitWithoutDismissal | src/base.tsx:43-46 | An exit with no dismissal on a fresh popup delivers `true`. |
| Scenarios.StaleOutcome | src/base.tsx:207-218 | After a cancelled cycle, a new `open` followed by an exit delivers the stale `false`. |

## Left out

- Rendering is left out as presentation only: the JSX markup, `styles`, the `CloseIcon` SVG, `renderHeader`, `renderContent` and the element cloning of `getRenderableWithProps`. The footer's render function is taken as a parameter holding its return value. The `aria` ids, `popupStyle`, `wrapClassName` and `transitionAnimationClasses` are passed through without any decision on them.
- The `Animate` transition primitive and its 100 ms timeout are left out. Its `onEnter`/`onExit` callbacks are methods the environment may call at any time, so the model admits more orders of events than the animation produces.
- `trapFocus` (from `./utils`) is not part of this model. It is represented by issuing a fresh release handle.
- The writes to `document.body.style.overflow` are reduced to the boolean `scrollLocked`.
- Registering the document keyup listener is left out as DOM plumbing. `componentDidMount` adds the listener and the removal sits in `componentWillMount`, so it is never detached. `HandleEscape` may be called at any time.
- React's `setState` batching is left out. The `visible` update and its callback run as two sequential steps of `OnOk`/`OnCancel`.
- The promise machinery is reduced to an id per `open` and a log of settlements. `asyncWrap` is applied to the settled outcome.
- The `promise`, `resolve` and `reject` fields are one field, because the source always assigns and clears the three together.
- The static `new`/`render` factories, `./types`, `./const` and `./enums` are not part of this model. The two `ComponentType` values are taken as the distinct strings `"confirm"` and `"modal"`. Only their distinctness matters.
- The mask-click target comparison `this.myRef.current === e.target` is a boolean parameter. `event.stopPropagation()` is the result of `HandleEscape`.
- JavaScript numbers are integers here. NaN, `-0` and fractions are not modelled, and NaN would also be falsy.
- The scroll lock is a field of each popup. In the source it is `document.body.style.overflow`, which all popups share, so one popup's `afterAction` unlocks scroll under another that is still open. The model's initial `false` assumes that nothing else locked the body.
- Promise adoption is left out: `resolve(v)` and `res || true` adopt the state of a thenable `v`, while the model treats every object as an opaque truthy value.
- Aliasing of the configuration is left out: `open` stores the caller's object by reference, so a later mutation by the caller would show through `allProps`. The model stores a copy.
