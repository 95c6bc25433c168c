/** The WordPress state the plugin keeps between requests: its transients. */
module WordPress {
  import opened Php

  /** The transient store, by name; expiry times are not modelled. */
  class TransientStore {
    var values: map<string, Value>

    constructor ()
      ensures values == map[]
    {
      values := map[];
    }

    /** `get_transient`: the stored value, or false when there is none. */
    function Get(name: string): Value
      reads this
    {
      if name in values then values[name] else Bool(false)
    }

    /** `set_transient`. */
    method Set(name: string, value: Value)
      modifies this
      ensures values == old(values)[name := value]
      ensures Get(name) == value
      ensures forall other :: other != name ==> Get(other) == old(Get(other))
    {
      values := values[name := value];
    }

    /** `delete_transient`. */
    method Delete(name: string)
      modifies this
      ensures values == old(values) - {name}
      ensures Get(name) == Bool(false)
      ensures forall other :: other != name ==> Get(other) == old(Get(other))
    {
      values := values - {name};
    }
  }
}
