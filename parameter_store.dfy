/**
 * The SSM parameter store through which independently deployed constructs
 * hand identifiers to each other: a map from parameter names to string
 * values. Writing is `StringParameter.Builder...build()`, reading is
 * `StringParameter.fromStringParameterName(...).getStringValue()`.
 */
module Ssm {
  import opened Lang

  class ParameterStore {
    var entries: map<string, string>

    constructor (entries: map<string, string>)
      ensures this.entries == entries
    {
      this.entries := entries;
    }

    /** Creates or overwrites one parameter: the last write wins. */
    method Put(name: string, value: string)
      modifies this
      ensures entries == old(entries)[name := value]
    {
      entries := entries[name := value];
    }
  }

  /** Reads one parameter; a name nobody wrote is an error, never a default. */
  function Get(entries: map<string, string>, name: string): (r: Result<string>)
    ensures r.Success? <==> name in entries
    ensures r.Success? ==> r.value == entries[name]
    ensures r.Failure? ==> r.error == ParameterNotFound(name)
  {
    if name in entries then Success(entries[name]) else Failure(ParameterNotFound(name))
  }
}
