/** The plugin contract (`can_handle` and `execute`) over the closed set of
    plugins this system ships, dispatching to each plugin's own module. */
module Plugins {
  import opened Wrappers
  import opened Base
  import RsaKeyPlugin
  import CsrPlugin
  import SelfSignPlugin

  datatype Plugin = RsaKey | Csr | SelfSign

  function CanHandle(p: Plugin, operation: string): bool {
    match p
    case RsaKey => RsaKeyPlugin.CanHandle(operation)
    case Csr => CsrPlugin.CanHandle(operation)
    case SelfSign => SelfSignPlugin.CanHandle(operation)
  }

  function RequiredKeys(p: Plugin): seq<string> {
    match p
    case RsaKey => RsaKeyPlugin.RequiredKeys
    case Csr => CsrPlugin.RequiredKeys
    case SelfSign => SelfSignPlugin.RequiredKeys
  }

  /** The keys of the dictionary a successful `execute` returns. */
  function ResultKeys(p: Plugin): set<string> {
    match p
    case RsaKey => {"private_key_path", "public_key_path", "key_size", "algorithm"}
    case Csr => {"csr_path", "subject", "common_name"}
    case SelfSign => {"cert_path", "validity_days"}
  }

  /** The one operation name a plugin accepts. */
  function OperationName(p: Plugin): string {
    match p
    case RsaKey => "generate_key_rsa"
    case Csr => "create_csr"
    case SelfSign => "self_sign_cert"
  }

  /** Every plugin handles exactly one operation name, and no two plugins share it. */
  lemma CanHandleExactlyOneName(p: Plugin, q: Plugin, operation: string)
    ensures CanHandle(p, operation) <==> operation == OperationName(p)
    ensures CanHandle(p, operation) && CanHandle(q, operation) ==> p == q
  {
  }

  /** `execute` for any plugin: a missing parameter is reported before the tool runs,
      a tool failure is reported next, and success yields exactly the plugin's result keys. */
  function Execute(p: Plugin, params: Params, tool: ToolRun): (r: Result<Params, Exception>)
    ensures r.Success? <==> (forall k :: k in RequiredKeys(p) ==> k in params) && tool.ToolOk?
    ensures (exists k :: k in RequiredKeys(p) && k !in params)
            ==> r == Failure(MissingParameters(MissingKeys(params, RequiredKeys(p))))
    ensures (forall k :: k in RequiredKeys(p) ==> k in params) && tool.ToolError?
            ==> r == Failure(ToolFailed(tool.message))
    ensures r.Success? ==> r.value.Keys == ResultKeys(p)
  {
    match p
    case RsaKey => RsaKeyPlugin.Execute(params, tool)
    case Csr => CsrPlugin.Execute(params, tool)
    case SelfSign => SelfSignPlugin.Execute(params, tool)
  }

  /** When a parameter is missing the tool's behaviour cannot matter: nothing is run. */
  lemma ExecuteIgnoresToolWhenParamsMissing(p: Plugin, params: Params, t1: ToolRun, t2: ToolRun)
    requires exists k :: k in RequiredKeys(p) && k !in params
    ensures Execute(p, params, t1) == Execute(p, params, t2)
    ensures Execute(p, params, t1).Failure? && Execute(p, params, t1).error.MissingParameters?
  {
  }
}
