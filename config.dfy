/**
 * The three configuration sources a scaler is built from (trigger metadata,
 * values resolved from the workload's environment, and parameters of a trigger
 * authentication) are string maps. This module holds the lookups the resolvers
 * share.
 */
module Config {
  import opened Wrappers

  type Settings = map<string, string>

  /** Present with a non-empty value: the test Go code writes as `ok && val != ""`. */
  predicate Given(m: Settings, key: string) {
    key in m && m[key] != ""
  }

  /** The entries of `m` whose value is not empty. */
  function NonEmpty(m: Settings): (r: Settings)
    ensures forall key :: key in r <==> Given(m, key)
  {
    map key | key in m && m[key] != "" :: m[key]
  }

  /**
   * The index of the first key of `keys` that `m` lacks: every key before it is
   * present, and `None` exactly when all of them are.
   */
  function FirstMissing(keys: seq<string>, m: Settings): (r: Option<nat>)
    ensures r.None? <==> forall i :: 0 <= i < |keys| ==> keys[i] in m
    ensures r.Some? ==> r.value < |keys| && keys[r.value] !in m
    ensures r.Some? ==> forall j :: 0 <= j < r.value ==> keys[j] in m
  {
    if keys == [] then None
    else if keys[0] !in m then Some(0)
    else
      match FirstMissing(keys[1..], m)
      case None => None
      case Some(i) => Some(i + 1)
  }
}
