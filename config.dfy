/**
 * The configuration handling at the head of `async_setup_entry`: the entry's stored
 * configuration, the options merged into it, and the three keys setup requires.
 */
module Config {
  import opened Options

  /** A configuration value: the host and token are strings, the port a number. */
  datatype ConfigValue = Text(text: string) | Number(number: int)

  type ConfigMap = map<string, ConfigValue>

  const HOST_IP_KEY := "enpal_host_ip"
  const HOST_PORT_KEY := "enpal_host_port"
  const TOKEN_KEY := "enpal_token"

  /**
   * `config.update(options)` when the options are non-empty: every option
   * overrides the stored value for its key and every other stored key stays.
   */
  function Merge(config: ConfigMap, options: ConfigMap): (merged: ConfigMap)
    ensures merged.Keys == config.Keys + options.Keys
    ensures forall k :: k in options ==> merged[k] == options[k]
    ensures forall k :: k in config && k !in options ==> merged[k] == config[k]
  {
    if |options| > 0 then config + options else config
  }

  /**
   * The first required key, in the order setup checks them, that the configuration
   * lacks; `None` when all three are present.
   */
  function MissingKey(config: ConfigMap): (missing: Option<string>)
    ensures missing.None? <==> HOST_IP_KEY in config && HOST_PORT_KEY in config && TOKEN_KEY in config
    ensures missing.Some? ==> missing.value in {HOST_IP_KEY, HOST_PORT_KEY, TOKEN_KEY} && missing.value !in config
    ensures missing == Some(HOST_PORT_KEY) ==> HOST_IP_KEY in config
    ensures missing == Some(TOKEN_KEY) ==> HOST_IP_KEY in config && HOST_PORT_KEY in config
  {
    if HOST_IP_KEY !in config then Some(HOST_IP_KEY)
    else if HOST_PORT_KEY !in config then Some(HOST_PORT_KEY)
    else if TOKEN_KEY !in config then Some(TOKEN_KEY)
    else None
  }
}
