/** The certificate agent: policy gate, then the three wired pipeline steps, and
    exactly one audit entry for every call that gets past reading the common name.
    The external tool outcome of each step is supplied by `ToolRuns`; the audit
    timestamp by `now`. */
module Agent {
  import opened Wrappers
  import opened Base
  import opened Policy
  import Audit
  import Text
  import PluginManager
  import RsaKeyPlugin
  import CsrPlugin
  import SelfSignPlugin

  const OperationType: string := "certificate_generation"

  /** The operations an approved request runs, in order. */
  const Pipeline: seq<string> := ["generate_key_rsa", "create_csr", "self_sign_cert"]

  /** What `generate_certificate` returns. */
  datatype Response =
    | Denied(violations: seq<Violation>)
    | Succeeded(certificatePath: Value, privateKeyPath: Value, commonName: string, validityDays: Value)
    | Error(error: Exception)

  /** What the audit entry records as the result: a denial with its fixed reason, or the response. */
  datatype Recorded = PolicyDenial(reason: string) | Reported(response: Response)

  type AuditLog = Audit.Log<Request, Verdict, Recorded>

  /** One call of `execute_operation`: the operation, the parameters it was given and what it returned. */
  datatype Invocation = Invocation(operation: string, params: Params, result: Result<Params, Exception>)

  /** The external tool outcome for each of the three steps. */
  datatype ToolRuns = ToolRuns(keyGen: ToolRun, csr: ToolRun, selfSign: ToolRun)

  /** How a call ends: with a returned response, or with an exception escaping the agent. */
  datatype Completion = Returned(response: Response) | Raised(error: Exception)

  /** A call's completion, the operations it invoked and the audit log after it. */
  datatype Run = Run(completion: Completion, invoked: seq<Invocation>, log: AuditLog)

  /** The file-name stem: the common name with every '.' replaced by '_'. */
  function OutputName(commonName: string): (r: string)
    ensures |r| == |commonName|
    ensures '.' !in r
    ensures forall i :: 0 <= i < |r| ==> r[i] == (if commonName[i] == '.' then '_' else commonName[i])
  {
    Text.ReplaceChar(commonName, '.', '_')
  }

  /** Different common names can share an output name: turning any '.' into '_' gives a
      different common name with the same output name, and so the same key, CSR and
      certificate paths. */
  lemma OutputNameCollides(commonName: string, i: nat)
    requires i < |commonName| && commonName[i] == '.'
    ensures commonName[i := '_'] != commonName
    ensures OutputName(commonName[i := '_']) == OutputName(commonName)
  {
    assert commonName[i := '_'][i] != commonName[i];
  }

  /** `execute_operation` on the agent's plugin manager, whose registry is the default one:
      each pipeline operation runs its own plugin. */
  function Dispatch(operation: string, params: Params, tool: ToolRun): (r: Result<Params, Exception>)
    ensures operation == "generate_key_rsa" ==> r == RsaKeyPlugin.Execute(params, tool)
    ensures operation == "create_csr" ==> r == CsrPlugin.Execute(params, tool)
    ensures operation == "self_sign_cert" ==> r == SelfSignPlugin.Execute(params, tool)
    ensures operation !in Pipeline ==> r == Failure(NoPluginFound(operation))
  {
    PluginManager.DefaultRegistryResolution(operation);
    PluginManager.ExecuteOperation(PluginManager.DefaultRegistry, operation, params, tool)
  }

  /** The response of the steps inside the try block and the invocations they made. */
  datatype Steps = Steps(response: Response, invoked: seq<Invocation>)

  /** The shape every run of the try block has: only pipeline operations, in pipeline order;
      every invocation but the last succeeded; a failing last invocation is the response's
      error; a successful response ran all three steps. */
  ghost predicate InPipelineOrder(s: Steps) {
    && !s.response.Denied?
    && |s.invoked| <= 3
    && (forall i :: 0 <= i < |s.invoked| ==> s.invoked[i].operation == Pipeline[i])
    && (forall i :: 0 <= i < |s.invoked| - 1 ==> s.invoked[i].result.Success?)
    && (s.response.Succeeded? ==> |s.invoked| == 3 && s.invoked[2].result.Success?)
    && (|s.invoked| > 0 && s.invoked[|s.invoked| - 1].result.Failure?
        ==> s.response == Error(s.invoked[|s.invoked| - 1].result.error))
  }

  /** The try block: generate the key, create the CSR from the key, self-sign the CSR with
      the key, stopping at the first exception, which becomes an `Error` response. */
  function RunSteps(req: Request, commonName: string, outputName: string, tools: ToolRuns): (s: Steps)
    ensures InPipelineOrder(s)
  {
    if req.keySize.None? then Steps(Error(KeyMissing("key_size")), [])
    else
      var keyParams := map["key_size" := Int(req.keySize.value), "output_name" := Str(outputName)];
      var keyResult := Dispatch("generate_key_rsa", keyParams, tools.keyGen);
      var step1 := Invocation("generate_key_rsa", keyParams, keyResult);
      if keyResult.Failure? then Steps(Error(keyResult.error), [step1])
      else
        var s := CsrThenCert(req, commonName, outputName, keyResult.value["private_key_path"], tools);
        KeyStepThen(step1, s);
        Steps(s.response, [step1] + s.invoked)
  }

  /** A successful key step followed by the shape of the CSR and signing steps is in pipeline order. */
  lemma KeyStepThen(step1: Invocation, s: Steps)
    requires step1.operation == Pipeline[0] && step1.result.Success?
    requires !s.response.Denied? && 1 <= |s.invoked| <= 2
    requires forall i :: 0 <= i < |s.invoked| ==> s.invoked[i].operation == Pipeline[i + 1]
    requires forall i :: 0 <= i < |s.invoked| - 1 ==> s.invoked[i].result.Success?
    requires s.response.Succeeded? ==> |s.invoked| == 2 && s.invoked[1].result.Success?
    requires s.invoked[|s.invoked| - 1].result.Failure? ==> s.response == Error(s.invoked[|s.invoked| - 1].result.error)
    ensures InPipelineOrder(Steps(s.response, [step1] + s.invoked))
  {
    var all := [step1] + s.invoked;
    assert forall i :: 1 <= i < |all| ==> all[i] == s.invoked[i - 1];
  }

  /** The second and third steps, given the private key path the first step reported. */
  function CsrThenCert(req: Request, commonName: string, outputName: string, privateKeyPath: Value,
                       tools: ToolRuns): (s: Steps)
    ensures !s.response.Denied?
    ensures 1 <= |s.invoked| <= 2
    ensures s.invoked[0].params == map["private_key_path" := privateKeyPath,
                                       "common_name" := Str(commonName),
                                       "output_name" := Str(outputName)]
    ensures s.invoked[0].result == CsrPlugin.Execute(s.invoked[0].params, tools.csr)
    ensures |s.invoked| == 2 ==> && req.validityDays.Some?
                                 && s.invoked[0].result.Success?
                                 && "csr_path" in s.invoked[0].result.value
                                 && s.invoked[1].params == map["csr_path" := s.invoked[0].result.value["csr_path"],
                                                               "private_key_path" := privateKeyPath,
                                                               "output_name" := Str(outputName),
                                                               "validity_days" := Int(req.validityDays.value)]
                                 && s.invoked[1].result == SelfSignPlugin.Execute(s.invoked[1].params, tools.selfSign)
    ensures forall i :: 0 <= i < |s.invoked| ==> s.invoked[i].operation == Pipeline[i + 1]
    ensures forall i :: 0 <= i < |s.invoked| - 1 ==> s.invoked[i].result.Success?
    ensures s.response.Succeeded? ==> && |s.invoked| == 2 && s.invoked[1].result.Success?
                                      && "cert_path" in s.invoked[1].result.value
                                      && "validity_days" in s.invoked[1].result.value
                                      && s.response == Succeeded(s.invoked[1].result.value["cert_path"],
                                                                 privateKeyPath, commonName,
                                                                 s.invoked[1].result.value["validity_days"])
    ensures |s.invoked| > 0 && s.invoked[|s.invoked| - 1].result.Failure?
            ==> s.response == Error(s.invoked[|s.invoked| - 1].result.error)
  {
    var csrParams := map["private_key_path" := privateKeyPath,
                         "common_name" := Str(commonName),
                         "output_name" := Str(outputName)];
    var csrResult := Dispatch("create_csr", csrParams, tools.csr);
    var step2 := Invocation("create_csr", csrParams, csrResult);
    if csrResult.Failure? then Steps(Error(csrResult.error), [step2])
    else if req.validityDays.None? then Steps(Error(KeyMissing("validity_days")), [step2])
    else
      var certParams := map["csr_path" := csrResult.value["csr_path"],
                            "private_key_path" := privateKeyPath,
                            "output_name" := Str(outputName),
                            "validity_days" := Int(req.validityDays.value)];
      var certResult := Dispatch("self_sign_cert", certParams, tools.selfSign);
      var step3 := Invocation("self_sign_cert", certParams, certResult);
      if certResult.Failure? then Steps(Error(certResult.error), [step2, step3])
      else
        Steps(Succeeded(certResult.value["cert_path"], privateKeyPath, commonName,
                        certResult.value["validity_days"]),
              [step2, step3])
  }

  /** `generate_certificate`. A missing common name raises before anything else happens.
      Otherwise the policy is evaluated once; a denial invokes no plugin, and every
      returned outcome appends exactly one "certificate_generation" entry carrying the
      timestamp, the request, the verdict and the returned response (for a denial, the
      denial reason). Only pipeline operations run, in pipeline order. */
  function GenerateCertificate(rules: RuleSet, req: Request, log: AuditLog, now: string, tools: ToolRuns)
    : (run: Run)
    ensures run.completion.Raised? <==> req.commonName.None?
    ensures run.completion.Raised? ==> run.log == log && run.invoked == []
    ensures run.completion.Returned? ==> && |run.log| == |log| + 1
                                         && run.log[..|log|] == log
                                         && run.log[|log|].operation == OperationType
                                         && run.log[|log|].request == req
                                         && run.log[|log|].policyCheck == Some(ValidateRequest(rules, req))
                                         && run.log[|log|].timestamp == now
    ensures run.completion.Returned? ==> (run.completion.response.Denied? <==> !ValidateRequest(rules, req).approved)
    ensures run.completion.Returned? ==>
              run.log[|log|].result == (if run.completion.response.Denied? then PolicyDenial("Policy violations")
                                        else Reported(run.completion.response))
    ensures |run.invoked| <= 3
    ensures forall i :: 0 <= i < |run.invoked| ==> run.invoked[i].operation == Pipeline[i]
    ensures !ValidateRequest(rules, req).approved ==> run.invoked == []
  {
    if req.commonName.None? then Run(Raised(KeyMissing("common_name")), [], log)
    else
      var commonName := req.commonName.value;
      var verdict := ValidateRequest(rules, req);
      if !verdict.approved then
        Run(Returned(Denied(verdict.violations)), [],
            Audit.LogOperation(log, now, OperationType, req, PolicyDenial("Policy violations"), Some(verdict)))
      else
        var steps := RunSteps(req, commonName, OutputName(commonName), tools);
        Run(Returned(steps.response), steps.invoked,
            Audit.LogOperation(log, now, OperationType, req, Reported(steps.response), Some(verdict)))
  }

  /** A denied request invokes no plugin, returns the verdict's violations and appends
      exactly one entry recording the denial and the verdict. */
  lemma DeniedRequest(rules: RuleSet, req: Request, log: AuditLog, now: string, tools: ToolRuns)
    requires req.commonName.Some?
    requires !ValidateRequest(rules, req).approved
    ensures var run := GenerateCertificate(rules, req, log, now, tools);
            var verdict := ValidateRequest(rules, req);
            && run.invoked == []
            && run.completion == Returned(Denied(verdict.violations))
            && |verdict.violations| > 0
            && run.log == log + [Audit.Entry(now, OperationType, req, Some(verdict),
                                             PolicyDenial("Policy violations"))]
  {
  }

  /** An exception inside the pipeline stops it: the failing invocation is the last one,
      every earlier one succeeded, and the call returns that exception as an `Error`
      response with exactly one audit entry recording it. */
  lemma FailureStopsPipeline(rules: RuleSet, req: Request, log: AuditLog, now: string, tools: ToolRuns)
    ensures var run := GenerateCertificate(rules, req, log, now, tools);
            forall i :: 0 <= i < |run.invoked| && run.invoked[i].result.Failure? ==>
              && i == |run.invoked| - 1
              && (forall j :: 0 <= j < i ==> run.invoked[j].result.Success?)
              && run.completion == Returned(Error(run.invoked[i].result.error))
              && run.log == log + [Audit.Entry(now, OperationType, req, Some(ValidateRequest(rules, req)),
                                               Reported(Error(run.invoked[i].result.error)))]
  {
    if req.commonName.Some? && ValidateRequest(rules, req).approved {
      var run := GenerateCertificate(rules, req, log, now, tools);
      var cn := req.commonName.value;
      var steps := RunSteps(req, cn, OutputName(cn), tools);
      var verdict := ValidateRequest(rules, req);
      assert run == Run(Returned(steps.response), steps.invoked,
                        Audit.LogOperation(log, now, OperationType, req, Reported(steps.response), Some(verdict)));
      assert InPipelineOrder(steps);
    }
  }

  /** Unfolds an approved call down to its key step and the rest of the pipeline. */
  lemma UnfoldApproved(rules: RuleSet, req: Request, log: AuditLog, now: string, tools: ToolRuns)
    requires req.commonName.Some? && ValidateRequest(rules, req).approved && req.keySize.Some?
    ensures var cn := req.commonName.value;
            var keyParams := map["key_size" := Int(req.keySize.value), "output_name" := Str(OutputName(cn))];
            var keyResult := RsaKeyPlugin.Execute(keyParams, tools.keyGen);
            var inv := GenerateCertificate(rules, req, log, now, tools).invoked;
            && |inv| >= 1
            && inv[0] == Invocation("generate_key_rsa", keyParams, keyResult)
            && (keyResult.Failure? ==> |inv| == 1)
            && (keyResult.Success? ==>
                  && "private_key_path" in keyResult.value
                  && inv[1..] == CsrThenCert(req, cn, OutputName(cn), keyResult.value["private_key_path"], tools).invoked)
  {
  }

  /** The key step gets the request's key size and the output name derived from the common name. */
  lemma KeyStepWiring(rules: RuleSet, req: Request, log: AuditLog, now: string, tools: ToolRuns)
    ensures var inv := GenerateCertificate(rules, req, log, now, tools).invoked;
            |inv| >= 1 ==> && req.commonName.Some? && req.keySize.Some?
                           && inv[0].params == map["key_size" := Int(req.keySize.value),
                                                   "output_name" := Str(OutputName(req.commonName.value))]
                           && inv[0].result == RsaKeyPlugin.Execute(inv[0].params, tools.keyGen)
  {
    if req.commonName.Some? && ValidateRequest(rules, req).approved && req.keySize.Some? {
      UnfoldApproved(rules, req, log, now, tools);
    }
  }

  /** The CSR step gets the key step's private key path, the common name and the same output name. */
  lemma CsrStepWiring(rules: RuleSet, req: Request, log: AuditLog, now: string, tools: ToolRuns)
    ensures var inv := GenerateCertificate(rules, req, log, now, tools).invoked;
            |inv| >= 2 ==> && req.commonName.Some?
                           && inv[0].result.Success?
                           && "private_key_path" in inv[0].result.value
                           && inv[1].params == map["private_key_path" := inv[0].result.value["private_key_path"],
                                                   "common_name" := Str(req.commonName.value),
                                                   "output_name" := Str(OutputName(req.commonName.value))]
                           && inv[1].result == CsrPlugin.Execute(inv[1].params, tools.csr)
  {
    if req.commonName.Some? && ValidateRequest(rules, req).approved && req.keySize.Some? {
      UnfoldApproved(rules, req, log, now, tools);
    }
  }

  /** The signing step gets the CSR step's path, the key step's private key path, the same
      output name and the request's validity. */
  lemma CertStepWiring(rules: RuleSet, req: Request, log: AuditLog, now: string, tools: ToolRuns)
    ensures var inv := GenerateCertificate(rules, req, log, now, tools).invoked;
            |inv| == 3 ==> && req.commonName.Some? && req.validityDays.Some?
                           && inv[0].result.Success? && inv[1].result.Success?
                           && "private_key_path" in inv[0].result.value
                           && "csr_path" in inv[1].result.value
                           && inv[2].params == map["csr_path" := inv[1].result.value["csr_path"],
                                                   "private_key_path" := inv[0].result.value["private_key_path"],
                                                   "output_name" := Str(OutputName(req.commonName.value)),
                                                   "validity_days" := Int(req.validityDays.value)]
                           && inv[2].result == SelfSignPlugin.Execute(inv[2].params, tools.selfSign)
  {
    if req.commonName.Some? && ValidateRequest(rules, req).approved && req.keySize.Some? {
      UnfoldApproved(rules, req, log, now, tools);
    }
  }

  /** How the second and third steps end, by tool outcome and by the presence of the validity. */
  lemma CsrThenCertOutcome(req: Request, commonName: string, outputName: string, privateKeyPath: Value,
                           tools: ToolRuns)
    ensures var s := CsrThenCert(req, commonName, outputName, privateKeyPath, tools);
            && (tools.csr.ToolError? ==> |s.invoked| == 1 && s.response == Error(ToolFailed(tools.csr.message)))
            && (tools.csr.ToolOk? && req.validityDays.None?
                ==> |s.invoked| == 1 && s.response == Error(KeyMissing("validity_days")))
            && (tools.csr.ToolOk? && req.validityDays.Some? && tools.selfSign.ToolError?
                ==> |s.invoked| == 2 && s.response == Error(ToolFailed(tools.selfSign.message)))
            && (tools.csr.ToolOk? && req.validityDays.Some? && tools.selfSign.ToolOk?
                ==> && |s.invoked| == 2
                    && s.response == Succeeded(Str(SelfSignPlugin.CertPath(Str(outputName))), privateKeyPath,
                                               commonName, Int(req.validityDays.value)))
  {
    var csrParams := map["private_key_path" := privateKeyPath,
                         "common_name" := Str(commonName),
                         "output_name" := Str(outputName)];
    var csrResult := CsrPlugin.Execute(csrParams, tools.csr);
    if tools.csr.ToolOk? && req.validityDays.Some? {
      assert csrResult.Success? && "csr_path" in csrResult.value;
      var certParams := map["csr_path" := csrResult.value["csr_path"],
                            "private_key_path" := privateKeyPath,
                            "output_name" := Str(outputName),
                            "validity_days" := Int(req.validityDays.value)];
      var certResult := SelfSignPlugin.Execute(certParams, tools.selfSign);
      assert tools.selfSign.ToolOk? ==> certResult.Success?;
    }
  }

  /** An approved request with its key size and validity present ends according to the tools:
      the first failing step is the last one invoked and its failure is the `Error` response;
      when no step fails the certificate is issued with the derived certificate and key paths,
      the common name and the requested validity. */
  lemma ApprovedOutcome(rules: RuleSet, req: Request, log: AuditLog, now: string, tools: ToolRuns)
    requires req.commonName.Some? && ValidateRequest(rules, req).approved
    requires req.keySize.Some? && req.validityDays.Some?
    ensures var run := GenerateCertificate(rules, req, log, now, tools);
            var out := Str(OutputName(req.commonName.value));
            && (tools.keyGen.ToolError?
                ==> |run.invoked| == 1 && run.completion == Returned(Error(ToolFailed(tools.keyGen.message))))
            && (tools.keyGen.ToolOk? && tools.csr.ToolError?
                ==> && |run.invoked| == 2
                    && run.invoked[0].result.Success?
                    && run.completion == Returned(Error(ToolFailed(tools.csr.message))))
            && (tools.keyGen.ToolOk? && tools.csr.ToolOk? && tools.selfSign.ToolError?
                ==> |run.invoked| == 3 && run.completion == Returned(Error(ToolFailed(tools.selfSign.message))))
            && (tools.keyGen.ToolOk? && tools.csr.ToolOk? && tools.selfSign.ToolOk?
                ==> && |run.invoked| == 3
                    && run.completion == Returned(Succeeded(Str(SelfSignPlugin.CertPath(out)),
                                                            Str(RsaKeyPlugin.PrivateKeyPath(out)),
                                                            req.commonName.value,
                                                            Int(req.validityDays.value))))
  {
    var cn := req.commonName.value;
    var keyParams := map["key_size" := Int(req.keySize.value), "output_name" := Str(OutputName(cn))];
    var keyResult := RsaKeyPlugin.Execute(keyParams, tools.keyGen);
    UnfoldApproved(rules, req, log, now, tools);
    if keyResult.Success? {
      CsrThenCertOutcome(req, cn, OutputName(cn), keyResult.value["private_key_path"], tools);
    }
  }

  /** A missing key size fails inside the pipeline before any plugin runs; a missing validity,
      when the key and CSR tools succeed, fails after the key and the CSR have been created.
      Both still return an `Error`. */
  lemma MissingRequestFields(rules: RuleSet, req: Request, log: AuditLog, now: string, tools: ToolRuns)
    requires req.commonName.Some? && ValidateRequest(rules, req).approved
    ensures var run := GenerateCertificate(rules, req, log, now, tools);
            && (req.keySize.None?
                ==> run.invoked == [] && run.completion == Returned(Error(KeyMissing("key_size"))))
            && (req.keySize.Some? && req.validityDays.None? && tools.keyGen.ToolOk? && tools.csr.ToolOk?
                ==> && |run.invoked| == 2
                    && run.completion == Returned(Error(KeyMissing("validity_days"))))
  {
    if req.keySize.Some? {
      var cn := req.commonName.value;
      var keyParams := map["key_size" := Int(req.keySize.value), "output_name" := Str(OutputName(cn))];
      var keyResult := RsaKeyPlugin.Execute(keyParams, tools.keyGen);
      UnfoldApproved(rules, req, log, now, tools);
      if keyResult.Success? {
        CsrThenCertOutcome(req, cn, OutputName(cn), keyResult.value["private_key_path"], tools);
      }
    }
  }

  /** An approved request with its key size present but no validity still runs the key
      step first: a failing key tool is the one invocation and its error is returned, and a
      failing CSR tool stops after the two first steps with the CSR error. The missing
      validity is only read after both have succeeded. */
  lemma MissingValidityOutcome(rules: RuleSet, req: Request, log: AuditLog, now: string, tools: ToolRuns)
    requires req.commonName.Some? && ValidateRequest(rules, req).approved
    requires req.keySize.Some? && req.validityDays.None?
    ensures var run := GenerateCertificate(rules, req, log, now, tools);
            && (tools.keyGen.ToolError?
                ==> |run.invoked| == 1 && run.completion == Returned(Error(ToolFailed(tools.keyGen.message))))
            && (tools.keyGen.ToolOk? && tools.csr.ToolError?
                ==> && |run.invoked| == 2
                    && run.invoked[0].result.Success?
                    && run.completion == Returned(Error(ToolFailed(tools.csr.message))))
  {
    var cn := req.commonName.value;
    var keyParams := map["key_size" := Int(req.keySize.value), "output_name" := Str(OutputName(cn))];
    var keyResult := RsaKeyPlugin.Execute(keyParams, tools.keyGen);
    UnfoldApproved(rules, req, log, now, tools);
    if keyResult.Success? {
      CsrThenCertOutcome(req, cn, OutputName(cn), keyResult.value["private_key_path"], tools);
    }
  }

  /** A successful response takes the certificate path and the validity from the signing
      step's result, the private key path from the key step's result, and the common name
      from the request. */
  lemma SuccessResultFromSteps(rules: RuleSet, req: Request, log: AuditLog, now: string, tools: ToolRuns)
    ensures var run := GenerateCertificate(rules, req, log, now, tools);
            var inv := run.invoked;
            run.completion.Returned? && run.completion.response.Succeeded? ==>
              && req.commonName.Some?
              && |inv| == 3 && inv[0].result.Success? && inv[2].result.Success?
              && "private_key_path" in inv[0].result.value
              && "cert_path" in inv[2].result.value && "validity_days" in inv[2].result.value
              && run.completion.response == Succeeded(inv[2].result.value["cert_path"],
                                                      inv[0].result.value["private_key_path"],
                                                      req.commonName.value,
                                                      inv[2].result.value["validity_days"])
  {
    if req.commonName.Some? && ValidateRequest(rules, req).approved && req.keySize.Some? {
      UnfoldApproved(rules, req, log, now, tools);
    }
  }

  /** What a call's response and invocations are does not depend on the audit history:
      replaying a request against any log gives the same outcome. */
  lemma OutcomeIndependentOfHistory(rules: RuleSet, req: Request, log1: AuditLog, log2: AuditLog,
                                    now1: string, now2: string, tools: ToolRuns)
    ensures GenerateCertificate(rules, req, log1, now1, tools).completion
            == GenerateCertificate(rules, req, log2, now2, tools).completion
    ensures GenerateCertificate(rules, req, log1, now1, tools).invoked
            == GenerateCertificate(rules, req, log2, now2, tools).invoked
  {
  }

  /** One call of `generate_certificate`: the request, the audit timestamp and the tool outcomes. */
  datatype Call = Call(request: Request, now: string, tools: ToolRuns)

  /** Serves one call against the audit log and returns the log after it. A call whose
      request carries a common name appends exactly one entry recording that request and
      leaves every earlier entry in place. */
  method Serve(rules: RuleSet, call: Call, log0: AuditLog) returns (log: AuditLog)
    requires call.request.commonName.Some?
    ensures |log| == |log0| + 1
    ensures forall i :: 0 <= i < |log0| ==> log[i] == log0[i]
    ensures log[|log0|].request == call.request && log[|log0|].operation == OperationType
  {
    var run := GenerateCertificate(rules, call.request, log0, call.now, call.tools);
    assert run.log[..|log0|] == log0;
    log := run.log;
  }

  /** Serves a sequence of calls one after another against one audit log. When every request
      carries a common name, N calls append exactly N entries after the existing ones, the
      i-th recording the i-th request: no call is dropped, duplicated or reordered. */
  method ServeAll(rules: RuleSet, calls: seq<Call>, log0: AuditLog) returns (log: AuditLog)
    requires forall i :: 0 <= i < |calls| ==> calls[i].request.commonName.Some?
    ensures |log| == |log0| + |calls|
    ensures forall i :: 0 <= i < |log0| ==> log[i] == log0[i]
    ensures forall j :: |log0| <= j < |log| ==> && log[j].request == calls[j - |log0|].request
                                                && log[j].operation == OperationType
  {
    log := log0;
    var k := 0;
    while k < |calls|
      invariant 0 <= k <= |calls|
      invariant |log| == |log0| + k
      invariant forall i :: 0 <= i < |log0| ==> log[i] == log0[i]
      invariant forall j :: |log0| <= j < |log| ==> && log[j].request == calls[j - |log0|].request
                                                    && log[j].operation == OperationType
    {
      log := Serve(rules, calls[k], log);
      k := k + 1;
    }
  }

  /** The rule set of the worked examples: only "rsa", at least 2048 bits, at most 825 days. */
  const ExampleRules: RuleSet := RuleSet(["rsa"], None, map["rsa" := 2048], 825)

  /** A 2048-bit RSA request for api.example.com is approved with the one minimum-size
      warning, and with working tools it issues the certificate under the derived names. */
  lemma ExampleMinimumKeySizeIssued(log: AuditLog, now: string)
    ensures var req := Request(Some("api.example.com"), Some("rsa"), Some(2048), Some(365));
            var v := ValidateRequest(ExampleRules, req);
            var run := GenerateCertificate(ExampleRules, req, log, now, ToolRuns(ToolOk, ToolOk, ToolOk));
            && v == Verdict(true, [], [MinimumKeySize(2048)])
            && |run.invoked| == 3
            && run.completion == Returned(Succeeded(Str("output/certs/api_example_com.crt"),
                                                    Str("output/keys/api_example_com_private.pem"),
                                                    "api.example.com", Int(365)))
            && |run.log| == |log| + 1
  {
    var req := Request(Some("api.example.com"), Some("rsa"), Some(2048), Some(365));
    ExampleOutputName();
    ExampleDerivedNames();
    assert AlgorithmOf(req) == "rsa";
    assert ValidateRequest(ExampleRules, req) == Verdict(true, [], [MinimumKeySize(2048)]);
    ApprovedOutcome(ExampleRules, req, log, now, ToolRuns(ToolOk, ToolOk, ToolOk));
  }

  /** The output name derived from the common name api.example.com. */
  lemma ExampleOutputName()
    ensures OutputName("api.example.com") == "api_example_com"
  {
  }

  /** The certificate and private key paths derived from the output name api_example_com. */
  lemma ExampleDerivedNames()
    ensures SelfSignPlugin.CertPath(Str("api_example_com")) == "output/certs/api_example_com.crt"
    ensures RsaKeyPlugin.PrivateKeyPath(Str("api_example_com")) == "output/keys/api_example_com_private.pem"
  {
  }

  /** A 1024-bit RSA request is denied with the single key-size violation, invokes nothing
      and leaves one denial entry. */
  lemma ExampleSmallKeyDenied(log: AuditLog, now: string, tools: ToolRuns)
    ensures var req := Request(Some("api.example.com"), Some("rsa"), Some(1024), Some(365));
            var run := GenerateCertificate(ExampleRules, req, log, now, tools);
            && run.invoked == []
            && run.completion == Returned(Denied([KeyTooSmall("rsa", 2048, 1024)]))
            && |run.log| == |log| + 1
            && run.log[|log|].result == PolicyDenial("Policy violations")
  {
    var req := Request(Some("api.example.com"), Some("rsa"), Some(1024), Some(365));
    assert AlgorithmOf(req) == "rsa";
    assert ValidateRequest(ExampleRules, req).violations == [KeyTooSmall("rsa", 2048, 1024)];
    DeniedRequest(ExampleRules, req, log, now, tools);
  }
}
