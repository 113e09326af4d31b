/** The self-signed certificate plugin: checks its parameters and derives the
    certificate path from `output_name`. Running `openssl x509 -req` is the `tool` outcome. */
module SelfSignPlugin {
  import opened Wrappers
  import opened Base
  import Text

  predicate CanHandle(operation: string) {
    operation == "self_sign_cert"
  }

  const RequiredKeys: seq<string> := ["csr_path", "private_key_path", "output_name", "validity_days"]

  function CertPath(outputName: Value): string {
    "output/certs/" + Show(outputName) + ".crt"
  }

  /** `execute`: fails on a missing parameter before any work, then on a tool failure;
      on success reports the certificate path and the validity it was given. */
  function Execute(params: Params, tool: ToolRun): (r: Result<Params, Exception>)
    ensures r.Success? <==> (forall k :: k in RequiredKeys ==> k in params) && tool.ToolOk?
    ensures (exists k :: k in RequiredKeys && k !in params)
            ==> r == Failure(MissingParameters(MissingKeys(params, RequiredKeys)))
    ensures (forall k :: k in RequiredKeys ==> k in params) && tool.ToolError?
            ==> r == Failure(ToolFailed(tool.message))
    ensures r.Success? ==> && r.value.Keys == {"cert_path", "validity_days"}
                           && r.value["cert_path"] == Str(CertPath(params["output_name"]))
                           && r.value["validity_days"] == params["validity_days"]
  {
    match ValidateParams(params, RequiredKeys)
    case Fail(e) => Failure(e)
    case Pass =>
      var outputName := params["output_name"];
      var validityDays := params["validity_days"];
      var certPath := CertPath(outputName);
      match tool
      case ToolError(message) => Failure(ToolFailed(message))
      case ToolOk =>
        Success(map["cert_path" := Str(certPath),
                    "validity_days" := validityDays])
  }

  /** Distinct output names give distinct certificate paths. */
  lemma CertPathInjective(a: Value, b: Value)
    requires Show(a) != Show(b)
    ensures CertPath(a) != CertPath(b)
  {
    if CertPath(a) == CertPath(b) {
      Text.TemplateInjective("output/certs/", Show(a), Show(b), ".crt");
    }
  }
}
