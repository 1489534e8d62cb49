/** The one piece of PHP semantics the plugin's logic leans on: truthiness of strings. */
module Php {

  /** A PHP string is falsy exactly when it is "" or "0"; every other string is truthy.
      (PHP `false`, the value of an absent option, is falsy too; it is modelled as "" or `None`.) */
  predicate Truthy(s: string)
  {
    s != "" && s != "0"
  }
}
