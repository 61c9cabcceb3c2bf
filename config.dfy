/** Loading the settings: each stored value is used when it is truthy,
    otherwise the default. */
module Config {
  import opened Wrappers

  /** Port of the local server, polling interval in ms, and `space`, which
      the background script loads but never uses. */
  datatype Config = Config(port: int, pollInterval: int, space: int)

  /** What `storage.local.get()` returns; a field may be absent. */
  datatype Stored = Stored(port: Option<int>, pollInterval: Option<int>, space: Option<int>)

  /** JavaScript truthiness of a stored number: absent and 0 are falsy. */
  predicate Truthy(v: Option<int>)
  {
    v.Some? && v.value != 0
  }

  /** `v || fallback` on a stored number. */
  function Or(v: Option<int>, fallback: int): int
  {
    if Truthy(v) then v.value else fallback
  }

  function Load(stored: Stored, defaults: Config): (c: Config)
    ensures Truthy(stored.port) ==> c.port == stored.port.value
    ensures !Truthy(stored.port) ==> c.port == defaults.port
    ensures Truthy(stored.pollInterval) ==> c.pollInterval == stored.pollInterval.value
    ensures !Truthy(stored.pollInterval) ==> c.pollInterval == defaults.pollInterval
    ensures Truthy(stored.space) ==> c.space == stored.space.value
    ensures !Truthy(stored.space) ==> c.space == defaults.space
  {
    Config(Or(stored.port, defaults.port), Or(stored.pollInterval, defaults.pollInterval), Or(stored.space, defaults.space))
  }

  /** With nonzero defaults, a loaded port or interval is never 0, whatever
      was stored. */
  lemma LoadNeverZero(stored: Stored, defaults: Config)
    requires defaults.port != 0 && defaults.pollInterval != 0
    ensures Load(stored, defaults).port != 0 && Load(stored, defaults).pollInterval != 0
  {
  }

  /** Empty storage gives the defaults; storing a loaded configuration and
      loading it again gives it back. */
  lemma LoadRoundTrip(c: Config, defaults: Config)
    requires c.port != 0 && c.pollInterval != 0 && c.space != 0
    ensures Load(Stored(None, None, None), defaults) == defaults
    ensures Load(Stored(Some(c.port), Some(c.pollInterval), Some(c.space)), defaults) == c
  {
  }
}
