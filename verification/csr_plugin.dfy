/** The certificate signing request plugin: checks its parameters, derives the
    CSR path from `output_name` and the subject from `common_name`. Writing the
    temporary OpenSSL configuration and running `openssl req` is the `tool` outcome. */
module CsrPlugin {
  import opened Wrappers
  import opened Base
  import Text

  predicate CanHandle(operation: string) {
    operation == "create_csr"
  }

  const RequiredKeys: seq<string> := ["private_key_path", "common_name", "output_name"]

  const SubjectPrefix: string := "/C=US/ST=State/L=City/O=Organization/CN="

  function CsrPath(outputName: Value): string {
    "output/csrs/" + Show(outputName) + ".csr"
  }

  function Subject(commonName: Value): string {
    SubjectPrefix + Show(commonName)
  }

  /** `execute`: fails on a missing parameter before any work, then on a tool failure;
      on success reports the CSR path, the subject and the common name it was given. */
  function Execute(params: Params, tool: ToolRun): (r: Result<Params, Exception>)
    ensures r.Success? <==> (forall k :: k in RequiredKeys ==> k in params) && tool.ToolOk?
    ensures (exists k :: k in RequiredKeys && k !in params)
            ==> r == Failure(MissingParameters(MissingKeys(params, RequiredKeys)))
    ensures (forall k :: k in RequiredKeys ==> k in params) && tool.ToolError?
            ==> r == Failure(ToolFailed(tool.message))
    ensures r.Success? ==> && r.value.Keys == {"csr_path", "subject", "common_name"}
                           && r.value["csr_path"] == Str(CsrPath(params["output_name"]))
                           && r.value["subject"] == Str(Subject(params["common_name"]))
                           && r.value["common_name"] == params["common_name"]
  {
    match ValidateParams(params, RequiredKeys)
    case Fail(e) => Failure(e)
    case Pass =>
      var commonName := params["common_name"];
      var outputName := params["output_name"];
      var csrPath := CsrPath(outputName);
      var subject := Subject(commonName);
      match tool
      case ToolError(message) => Failure(ToolFailed(message))
      case ToolOk =>
        Success(map["csr_path" := Str(csrPath),
                    "subject" := Str(subject),
                    "common_name" := commonName])
  }

  /** The common name can be read back from the subject: it is everything after "CN=". */
  lemma SubjectRoundTrip(commonName: Value)
    ensures Subject(commonName)[|SubjectPrefix|..] == Show(commonName)
    ensures Subject(commonName)[..|SubjectPrefix|] == SubjectPrefix
  {
  }

  /** Distinct common names give distinct subjects, and distinct output names distinct CSR paths. */
  lemma DerivationsInjective(a: Value, b: Value)
    requires Show(a) != Show(b)
    ensures Subject(a) != Subject(b)
    ensures CsrPath(a) != CsrPath(b)
  {
    if CsrPath(a) == CsrPath(b) {
      Text.TemplateInjective("output/csrs/", Show(a), Show(b), ".csr");
    }
    if Subject(a) == Subject(b) {
      Text.TemplateInjective(SubjectPrefix, Show(a), Show(b), "");
    }
  }
}
