# Policy-gated certificate issuance, modelled in Dafny

This project models the core of a small certificate agent. The agent takes a request for a
certificate, checks it against a cryptographic policy, and then runs three plugin operations
in a fixed order: generate an RSA key pair, create a certificate signing request (CSR) from
the key, and self-sign the CSR. It writes one audit log entry for the request.

The model covers five parts:

- **Policy engine** (`Policy`). `ValidateRequest` runs four independent checks and collects
  every violation. The checks are the allowed list, the minimum key size, the maximum
  validity and the forbidden list. The request is a record of optional fields, so the
  source's `.get` defaults can be stated: algorithm `"rsa"`, key size `0`, validity `365`.
- **Plugin contract** (`Base`, `Plugins`, `RsaKeyPlugin`, `CsrPlugin`, `SelfSignPlugin`).
  This is the required-parameter check, each plugin's `can_handle`, and each plugin's
  `execute`. `execute` covers the path and subject derivation and the result dictionary.
  The OpenSSL run behind each plugin is a `ToolRun` oracle that either succeeds or fails.
- **Plugin manager** (`PluginManager`). It covers registration order, first-match lookup,
  and dispatch with its "no plugin found" error.
- **Agent** (`Agent`). `GenerateCertificate` returns a `Run`. The `Run` holds how the call
  ended, the trace of `execute_operation` calls (operation, parameters, result) and the
  audit log after the call. A `ToolRuns` value gives the outcome of each step's tool.
  `ServeAll` serves a sequence of calls against one log.
- **Audit log** (`Audit`). It covers `log_operation` as an append to a sequence, and
  `get_logs` as Python's `logs[-limit:]`.

Dictionary values are `Value = Str | Int`. `Show` renders a value the way an f-string
does. A raised exception is an `Exception` value with one constructor per cause: missing
parameters, no plugin found, tool failure, and missing dictionary key.

Three behaviours of the code shape the properties below:

- The registry does not reject two plugins that claim the same operation. The first
  registered plugin wins (`PluginManager.FindPlugin`).
- Audit timestamps are an opaque parameter. The code promises no monotonicity.
- A request without `common_name` raises `KeyError` at agent.py:64. This happens before
  the policy check and before any audit entry. So one audit entry per call holds
  exactly for requests that have a common name (`Agent.GenerateCertificate`,
  `Agent.ServeAll`). A missing `key_size` or `validity_days` raises inside the `try`
  block instead. That call ends as an `ERROR` response with one entry. When
  `validity_days` is missing and both tools succeed, the key and the CSR have already
  been created (`Agent.MissingRequestFields`). A failing key or CSR tool ends the call
  first, with its own error (`Agent.MissingValidityOutcome`).

The agent always generates an RSA key, whatever algorithm the request names. The policy
is the only place that reads the algorithm.

## Model

| member | source | states |
|---|---|---|
| Policy.ValidateRequest | policy.py:14-58 | a request is approved exactly when no violation was collected; there are at most four violations (one per check) and at most one warning |
| Policy.ViolationsInCheckOrder | policy.py:27-50 | violations appear in check order: allowed list, key size, validity, forbidden list; no check contributes two |
| Policy.ViolationsCharacterized | policy.py:27-50 | each of the four violations is present exactly when its check fails, computed on the lower-cased algorithm and the defaulted key size and validity, and no other violation is ever reported |
| Policy.WarningsCharacterized | policy.py:33-40 | the only warning is the minimum-key-size warning, present exactly when the algorithm has a minimum and the key size equals it |
| Policy.ForbiddenNeverApproved | policy.py:48-52 | an algorithm in the forbidden list (absent list = empty) is never approved, whatever the other fields are |
| Policy.NotAllowedAndForbidden | policy.py:28-50 | an algorithm both outside the allowed list and forbidden yields two distinct violations, first and last |
| Policy.KeySizeBoundary | policy.py:33-40 | below the minimum: a key-size violation and no warning; equal: one warning and no key-size violation; above: neither |
| Policy.ValidityBoundary | policy.py:35-46 | validity above the maximum gives exactly one validity violation, equal to it gives none; a missing validity counts as 365 and a missing key size as 0 |
| Policy.AlgorithmCaseInsensitive | policy.py:28 | algorithms that differ only in ASCII letter case get the same verdict, and a missing algorithm is judged as "rsa" |
| Base.MissingKeys | plugins/base.py:48 | a key is reported missing exactly when it is required and absent from the parameters; the list is no longer than the required list |
| Base.MissingKeysSingle | plugins/base.py:48 | a single required key is reported exactly when it is absent; with the append lemma this fixes the missing list, including its order, for every required list |
| Base.MissingKeysAppend | plugins/base.py:48 | the missing list of a concatenation is the concatenation of the missing lists, so the order of the required keys is kept |
| Text.NatToString | plugins/rsa_key_plugin.py:39-40 | the decimal rendering of a natural number is a non-empty digit string without a leading zero that reads back as the number |
| Text.IntToString | plugins/rsa_key_plugin.py:39-40 | Python's `str` of an integer: a minus sign exactly for negative values, followed by digits without a leading zero that read back as the absolute value |
| Text.NatToStringInjective | plugins/rsa_key_plugin.py:39-40 | different natural numbers render to different digit strings |
| Text.IntToStringInjective | plugins/rsa_key_plugin.py:39-40 | different integers render to different strings, whatever their signs |
| Base.Show | plugins/rsa_key_plugin.py:39-40 | an f-string interpolation keeps a string as it is and renders an integer in decimal: a minus sign exactly when it is negative, then digits without a leading zero that read back as its absolute value |
| Base.ShowIntInjective | plugins/csr_plugin.py:40 | two integer output names interpolate to the same text only when they are equal |
| Base.ValidateParams | plugins/base.py:44-50 | the check passes exactly when every required key is present; a failure names exactly the absent keys, and that list is non-empty |
| Base.ValidateParamsEmpty | plugins/base.py:48-50 | an empty list of required keys never fails |
| RsaKeyPlugin.Execute | plugins/rsa_key_plugin.py:20-68 | succeeds exactly when key_size and output_name are present and the tool succeeds; a missing parameter is reported before the tool; the result has exactly the four keys, the size it was given, "RSA" and two different key paths under output/keys/ |
| RsaKeyPlugin.KeyPathsInjective | plugins/rsa_key_plugin.py:38-40 | different output names give different private and public key paths |
| RsaKeyPlugin.PrivateNeverPublic | plugins/rsa_key_plugin.py:39-40 | a private key path is never the public key path of any output name |
| CsrPlugin.Execute | plugins/csr_plugin.py:21-87 | succeeds exactly when the three required keys are present and the tool succeeds; a missing parameter is reported before any work; the result has exactly csr_path, subject and the common name it was given |
| CsrPlugin.SubjectRoundTrip | plugins/csr_plugin.py:42-43 | the subject is the fixed distinguished-name prefix followed by the common name, which can be read back from it |
| CsrPlugin.DerivationsInjective | plugins/csr_plugin.py:40-43 | different common names give different subjects and different output names different CSR paths |
| SelfSignPlugin.Execute | plugins/selfsign_plugin.py:19-59 | succeeds exactly when the four required keys are present and the tool succeeds; a missing parameter is reported before any work; the result has exactly cert_path and the validity it was given |
| SelfSignPlugin.CertPathInjective | plugins/selfsign_plugin.py:40 | different output names give different certificate paths |
| Plugins.CanHandleExactlyOneName | plugins/base.py:18-29 | each plugin accepts exactly one operation name (generate_key_rsa, create_csr, self_sign_cert) and no two plugins accept the same one |
| Plugins.Execute | plugins/base.py:31-50 | for every plugin: success exactly when the required keys are present and the tool succeeds; missing keys are reported by name before the tool, then a tool failure; success yields exactly the plugin's result keys |
| Plugins.ExecuteIgnoresToolWhenParamsMissing | plugins/base.py:44-50 | with a required key missing, the outcome is the missing-parameter error whatever the tool would have done |
| PluginManager.FindPlugin | plugins/plugin_manager.py:26-39 | returns None exactly when no registered plugin handles the name; otherwise returns the registered plugin at the first position whose plugin handles the name |
| PluginManager.ExecuteOperation | plugins/plugin_manager.py:41-58 | raises "no plugin found" when no plugin handles the name, and otherwise returns exactly the execute result of the first handling plugin |
| PluginManager.DefaultRegistryResolution | plugins/plugin_manager.py:16-20 | with the registration order RSA key, CSR, self-sign, each pipeline operation resolves to its own plugin and no other name resolves |
| Audit.Open | audit.py:12-18 | a store that does not exist yet is an empty log; an existing one is read back unchanged |
| Audit.LogOperation | audit.py:20-47 | appends exactly one entry at the end recording the operation, request, verdict (None by default) and result; all earlier entries are unchanged |
| Audit.SliceFrom | audit.py:55 | Python's xs[start:]: a suffix of xs, clamped; a non-negative start drops that many elements from the front, a negative one keeps that many from the end |
| Audit.GetLogs | audit.py:51-55 | returns a suffix of the log: the last min(limit, size) entries for a positive limit, the whole log for limit 0, and the log without its first -limit entries for a negative limit |
| Audit.GetLogsAfterAppend | audit.py:38-55 | after an append, a positive-limit query ends with the new entry, preceded by what the next smaller query returned before |
| Agent.OutputName | agent.py:93 | the output name has the common name's length, contains no '.', and differs from it only where a '.' became '_' |
| Agent.OutputNameCollides | agent.py:93 | output names are not unique: a common name with a '.' and the same name with that '.' turned into '_' are different but derive the same output name, hence the same key, CSR and certificate paths |
| Agent.Dispatch | agent.py:15 | through the agent's default registry each pipeline operation runs exactly its own plugin's execute, and any other name raises "no plugin found" |
| Agent.RunSteps | agent.py:95-130 | inside the try block only pipeline operations run, in pipeline order; every invocation but the last succeeded; a failing last invocation is the error returned; success means all three ran |
| Agent.CsrThenCert | agent.py:104-130 | the CSR step gets the given private key path, common name and output name; the signing step runs only after a successful CSR step and with a validity present; success takes the certificate path and validity from the signing result |
| Agent.GenerateCertificate | agent.py:52-164 | an exception escapes exactly when the common name is missing, with no entry and no invocation; every other call appends exactly one "certificate_generation" entry with the timestamp, the request, the verdict and, as its result, the returned response or, for a denial, the "Policy violations" reason; a returned response is DENIED exactly when the verdict is not approved; only pipeline operations run, in order; a denied request invokes nothing |
| Agent.DeniedRequest | agent.py:71-84 | a denial invokes no plugin, returns the verdict's non-empty violations, and appends one entry recording the denial reason and the verdict |
| Agent.FailureStopsPipeline | agent.py:149-164 | for every call, any failing invocation is the last one, all earlier ones succeeded, and the call returns that exception as an ERROR response with one entry recording it |
| Agent.KeyStepWiring | agent.py:93-101 | the key step receives the request's key size and the output name derived from the common name, and its result is the RSA plugin's |
| Agent.CsrStepWiring | agent.py:104-110 | the CSR step receives the key step's private key path, the request's common name and the same output name |
| Agent.CertStepWiring | agent.py:113-120 | the signing step receives the CSR step's csr_path, the key step's private key path, the same output name and the request's validity |
| Agent.ApprovedOutcome | agent.py:95-164 | with key size and validity present, the first failing tool's step is the last invoked and its failure is returned (after a CSR failure the key step's success remains); with no failure the certificate is issued with the derived certificate and key paths, the common name and the requested validity |
| Agent.MissingRequestFields | agent.py:98-120 | a missing key size ends with an ERROR before any plugin runs; when the key and CSR tools succeed, a missing validity ends with an ERROR after the key and CSR steps ran |
| Agent.MissingValidityOutcome | agent.py:95-120 | with the key size present and the validity missing, the key step still runs first: a failing key tool is the only invocation and its error is returned; a failing CSR tool stops after two invocations, the first successful, with the CSR error |
| Agent.SuccessResultFromSteps | agent.py:124-130 | a successful response takes certificate_path and validity_days from step 3's result, private_key_path from step 1's, and common_name from the request |
| Agent.OutcomeIndependentOfHistory | agent.py:52-164 | the response and the invocations do not depend on the prior audit log or the timestamp |
| Agent.Serve | agent.py:69-164 | one call whose request carries a common name appends exactly one "certificate_generation" entry recording that request and keeps every earlier entry |
| Agent.ServeAll | agent.py:69-164 | serving N calls that all carry a common name appends exactly N entries after the existing log, which stays unchanged, the i-th new entry recording the i-th request |
| Agent.ExampleMinimumKeySizeIssued | agent.py:52-147 | a 2048-bit RSA request for api.example.com under a 2048-bit minimum is approved with one warning and issues output/certs/api_example_com.crt with key output/keys/api_example_com_private.pem |
| Agent.ExampleSmallKeyDenied | agent.py:69-84 | a 1024-bit RSA request under a 2048-bit minimum is denied with the single key-size violation, invokes nothing and leaves one denial entry |

## Left out

- The interactive command loop, its banner and help text (cli.py). These are input and output only.
- Natural-language request parsing (`CryptoAgent.parse_request`, agent.py:20-50). Requests are given as records.
- The OpenSSL subprocess calls and the temporary configuration file of the CSR plugin. Each plugin's tool work is one `ToolRun` outcome. The second `openssl rsa` call of the key plugin is folded into the same outcome.
- Files created as a side effect. This includes keys left in place when a later step fails. Only the paths the plugins report are modelled.
- YAML loading of the policy and the module-level singleton instances. The rule set and the log are explicit arguments.
- JSON reading and writing of the audit file, and the `datetime.utcnow()` clock. The log is a sequence and the timestamp is a parameter.
- A failing audit append. In the source, a failure of the success-branch append would be caught by the same `try` and logged again as an error. The model assumes the append succeeds.
- Printed output and the plugins' `name` and `description` strings.
- Violation and warning message text. Each violation is a constructor carrying the values its message interpolates. Rendering the allowed list as a Python list repr is not modelled.
- Policy.AlgorithmCaseInsensitive: lower-casing is ASCII only. Python's `str.lower()` also folds non-ASCII letters.
- Dictionary values other than strings and integers, and dictionary key order. A request field of the wrong type is not modelled. For example, a non-string common name would raise `AttributeError` at agent.py:93.
- Exception message text (`str(e)` in the error result). The error is kept as the structured `Exception`.
- In-place mutation. Every operation is a pure function, so `validate_params` leaving its parameters unchanged and `get_logs` leaving the log unchanged hold by construction.
- Request keys other than `common_name`, `algorithm`, `key_size` and `validity_days`. An example is the `"operation": "generate_certificate"` key that `parse_request` adds (agent.py:37). The source records the whole request dictionary in the audit entry (audit.py:33). The model's `Request` keeps only these four fields. So "the entry records the request" (`Agent.GenerateCertificate`, `Agent.Serve`, `Agent.ServeAll`) covers only those four fields. None of the other keys influences the policy or the pipeline.
- Text.IntToString: CPython 3.11 and later limit the int-to-string conversion. There `str()` and an f-string raise `ValueError` for an integer of more than 4300 decimal digits. The model renders every integer.
