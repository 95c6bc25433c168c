/** The slice of the DOM that the block scripts read and rewrite: an element's attributes. */
module Dom {
  import opened Wrappers

  /** An element whose attributes a script reads with `attr(name)` and rewrites in place. */
  class Element {
    var attrs: map<string, string>

    constructor (initial: map<string, string>)
      ensures attrs == initial
    {
      attrs := initial;
    }

    /** `attr(name)`: the attribute's value, or `undefined` when it is absent. */
    function Attr(name: string): Option<string>
      reads this
    {
      if name in attrs then Some(attrs[name]) else None
    }
  }

  /**
   * The attribute validators' rule `if (current && !valid.includes(current)) attr(name, fallback)`:
   * a present, non-empty value outside `valid` is replaced by `fallback`.
   */
  function WithAllowedValue(attrs: map<string, string>, name: string, valid: seq<string>, fallback: string): (r: map<string, string>)
    ensures r.Keys == attrs.Keys
    ensures forall k :: k in attrs && k != name ==> r[k] == attrs[k]
    ensures name in attrs ==> r[name] == if attrs[name] != "" && attrs[name] !in valid then fallback else attrs[name]
  {
    if name in attrs && attrs[name] != "" && attrs[name] !in valid then attrs[name := fallback] else attrs
  }
}
