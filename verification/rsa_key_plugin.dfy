/** The RSA key generation plugin: checks its parameters, derives the two key
    paths from `output_name` and reports them. Running `openssl genrsa` and
    `openssl rsa -pubout` is the `tool` outcome. */
module RsaKeyPlugin {
  import opened Wrappers
  import opened Base
  import Text

  predicate CanHandle(operation: string) {
    operation == "generate_key_rsa"
  }

  const RequiredKeys: seq<string> := ["key_size", "output_name"]

  function PrivateKeyPath(outputName: Value): string {
    "output/keys/" + Show(outputName) + "_private.pem"
  }

  function PublicKeyPath(outputName: Value): string {
    "output/keys/" + Show(outputName) + "_public.pem"
  }

  /** `execute`: fails on a missing parameter before any key is generated, then on a
      tool failure; on success reports both key paths, the requested size and "RSA". */
  function Execute(params: Params, tool: ToolRun): (r: Result<Params, Exception>)
    ensures r.Success? <==> "key_size" in params && "output_name" in params && tool.ToolOk?
    ensures ("key_size" !in params || "output_name" !in params)
            ==> r == Failure(MissingParameters(MissingKeys(params, RequiredKeys)))
    ensures "key_size" in params && "output_name" in params && tool.ToolError?
            ==> r == Failure(ToolFailed(tool.message))
    ensures r.Success? ==> && r.value.Keys == {"private_key_path", "public_key_path", "key_size", "algorithm"}
                           && r.value["private_key_path"] == Str(PrivateKeyPath(params["output_name"]))
                           && r.value["public_key_path"] == Str(PublicKeyPath(params["output_name"]))
                           && r.value["private_key_path"] != r.value["public_key_path"]
                           && r.value["key_size"] == params["key_size"]
                           && r.value["algorithm"] == Str("RSA")
  {
    match ValidateParams(params, RequiredKeys)
    case Fail(e) => Failure(e)
    case Pass =>
      var keySize := params["key_size"];
      var outputName := params["output_name"];
      var privateKeyPath := PrivateKeyPath(outputName);
      var publicKeyPath := PublicKeyPath(outputName);
      match tool
      case ToolError(message) => Failure(ToolFailed(message))
      case ToolOk =>
        Success(map["private_key_path" := Str(privateKeyPath),
                    "public_key_path" := Str(publicKeyPath),
                    "key_size" := keySize,
                    "algorithm" := Str("RSA")])
  }

  /** Distinct rendered output names give distinct private (and public) key paths, so
      two calls whose output names differ never overwrite each other's keys. */
  lemma KeyPathsInjective(a: Value, b: Value)
    requires Show(a) != Show(b)
    ensures PrivateKeyPath(a) != PrivateKeyPath(b)
    ensures PublicKeyPath(a) != PublicKeyPath(b)
  {
    if PrivateKeyPath(a) == PrivateKeyPath(b) {
      Text.TemplateInjective("output/keys/", Show(a), Show(b), "_private.pem");
    }
    if PublicKeyPath(a) == PublicKeyPath(b) {
      Text.TemplateInjective("output/keys/", Show(a), Show(b), "_public.pem");
    }
  }

  /** A private key path is never any output name's public key path. */
  lemma PrivateNeverPublic(a: Value, b: Value)
    ensures PrivateKeyPath(a) != PublicKeyPath(b)
  {
    var p := PrivateKeyPath(a);
    var q := PublicKeyPath(b);
    // Five characters from the end, a private path reads 'e' (of "ivate") and a public one 'c' (of "ublic").
    assert p[|p| - 5] == 'e';
    assert q[|q| - 5] == 'c';
  }
}
