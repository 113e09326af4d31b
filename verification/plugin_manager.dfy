/** The plugin manager: an ordered registry of plugins, first-match resolution
    of an operation name, and dispatch of an operation to the resolved plugin. */
module PluginManager {
  import opened Wrappers
  import opened Base
  import opened Plugins

  type Registry = seq<Plugin>

  /** `load_plugins`: the registration order is RSA key, CSR, self-sign. */
  const DefaultRegistry: Registry := [RsaKey, Csr, SelfSign]

  /** `find_plugin`: the first registered plugin that can handle `operation`, or None. */
  function FindPlugin(registry: Registry, operation: string): (r: Option<Plugin>)
    ensures r.None? <==> forall i :: 0 <= i < |registry| ==> !CanHandle(registry[i], operation)
    ensures r.Some? ==> exists i :: && 0 <= i < |registry|
                                    && registry[i] == r.value
                                    && CanHandle(r.value, operation)
                                    && forall j :: 0 <= j < i ==> !CanHandle(registry[j], operation)
  {
    if |registry| == 0 then None
    else if CanHandle(registry[0], operation) then Some(registry[0])
    else
      var r := FindPlugin(registry[1..], operation);
      assert forall i :: 1 <= i < |registry| ==> registry[i] == registry[1..][i - 1];
      r
  }

  /** `execute_operation`: raises when no plugin handles `operation` (running none),
      otherwise returns exactly what the first handling plugin's `execute` returns. */
  function ExecuteOperation(registry: Registry, operation: string, params: Params, tool: ToolRun)
    : (r: Result<Params, Exception>)
    ensures (forall i :: 0 <= i < |registry| ==> !CanHandle(registry[i], operation))
            ==> r == Failure(NoPluginFound(operation))
    ensures forall i :: && 0 <= i < |registry|
                        && CanHandle(registry[i], operation)
                        && (forall j :: 0 <= j < i ==> !CanHandle(registry[j], operation))
                        ==> r == Execute(registry[i], params, tool)
  {
    match FindPlugin(registry, operation)
    case None => Failure(NoPluginFound(operation))
    case Some(plugin) => Execute(plugin, params, tool)
  }

  /** With the default registration each pipeline operation resolves to its own plugin,
      and no other operation name resolves at all. */
  lemma DefaultRegistryResolution(operation: string)
    ensures FindPlugin(DefaultRegistry, "generate_key_rsa") == Some(RsaKey)
    ensures FindPlugin(DefaultRegistry, "create_csr") == Some(Csr)
    ensures FindPlugin(DefaultRegistry, "self_sign_cert") == Some(SelfSign)
    ensures FindPlugin(DefaultRegistry, operation).Some?
            <==> operation in ["generate_key_rsa", "create_csr", "self_sign_cert"]
  {
  }
}
