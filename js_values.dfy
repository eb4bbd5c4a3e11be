/** The few JavaScript value shapes the interaction layer relies on:
    a nullable value (`T | null | undefined`) and an untyped property
    value whose truthiness decides a branch. */
module JsValues {

  /** `T | null | undefined`, as read through `??` and optional chaining. */
  datatype Option<+T> = None | Some(value: T) {
    /** `this ?? fallback`: only null or undefined fall back. */
    function OrElse(fallback: T): (r: T)
      ensures Some? ==> r == value
      ensures None? ==> r == fallback
    {
      match this
      case Some(v) => v
      case None => fallback
    }
  }

  /** An untyped value read from a library's raw payload: undefined, a string,
      or an object that may carry a `url` property. */
  datatype JsValue = Undefined | Str(text: string) | Obj(url: JsValue)

  /** JavaScript truthiness of such a value: undefined and the empty string are falsy. */
  predicate Truthy(v: JsValue)
  {
    match v
    case Undefined => false
    case Str(s) => s != ""
    case Obj(_) => true
  }

  /** Reading `v.url`: only an object has the property; on a string it is undefined. */
  function UrlProperty(v: JsValue): (r: JsValue)
    ensures !v.Obj? ==> r == Undefined
  {
    match v
    case Obj(u) => u
    case _ => Undefined
  }
}
