/** The host's option store, as the plugin uses it: a map from option names to
    string values, read with `get_option` and overwritten with `update_option`. */
module Options {

  import opened Wrappers

  /** `get_option(key)` with no default: PHP `false` (here `None`) when the option is absent. */
  function GetOption(options: map<string, string>, key: string): (v: Option<string>)
    ensures v.Some? <==> key in options
    ensures v.Some? ==> v.value == options[key]
  {
    if key in options then Some(options[key]) else None
  }

  /** `get_option(key, default)`: the stored value, or `default` when the option is absent. */
  function GetOptionOr(options: map<string, string>, key: string, default: string): (v: string)
    ensures key in options ==> v == options[key]
    ensures key !in options ==> v == default
  {
    if key in options then options[key] else default
  }

  /** The site-wide option store, shared by every request. */
  class Store {
    var options: map<string, string>

    constructor (initial: map<string, string>)
      ensures options == initial
    {
      options := initial;
    }

    /** `update_option(key, value)`: creates or overwrites `key`; nothing else changes. */
    method Update(key: string, value: string)
      modifies this
      ensures options == old(options)[key := value]
    {
      options := options[key := value];
    }
  }
}
