/** The result normaliser `asyncWrap` that `open` applies to its promise
    before handing it to the caller. */
module Async {
  import opened Js

  /** How a promise settles: `resolve(value)` or `reject(value)`. */
  datatype Settled = Fulfilled(value: JsValue) | Rejected(value: JsValue)

  /** `promise.then(res => res || true).catch(error => error || false)`:
      the wrapped promise never rejects; an accepted falsy value reads as
      `true` and a rejected falsy value as `false`. */
  function AsyncWrap(s: Settled): (r: Settled)
    ensures r.Fulfilled?
    ensures s.Fulfilled? ==> Truthy(r.value)
    ensures Truthy(r.value) <==> s.Fulfilled? || Truthy(s.value)
    ensures Truthy(s.value) ==> r.value == s.value
    ensures !Truthy(s.value) ==> r.value == Bool(s.Fulfilled?)
  {
    match s
    case Fulfilled(res) => Fulfilled(Or(res, Bool(true)))
    case Rejected(error) => Fulfilled(Or(error, Bool(false)))
  }

  /** A caller can tell an acceptance from a cancellation whose value is
      falsy: the first always arrives truthy, the second as `false`. */
  lemma AcceptDistinctFromFalsyCancel(accepted: JsValue, cancelled: JsValue)
    requires !Truthy(cancelled)
    ensures AsyncWrap(Rejected(cancelled)).value == Bool(false)
    ensures AsyncWrap(Fulfilled(accepted)).value != AsyncWrap(Rejected(cancelled)).value
  {
  }

  /** Wrapping leaves a fulfilled value alone exactly when it is truthy. */
  lemma AsyncWrapFixesTruthy(v: JsValue)
    ensures AsyncWrap(Fulfilled(v)) == Fulfilled(v) <==> Truthy(v)
  {
  }
}
