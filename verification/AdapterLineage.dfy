/** Where a READY adapter plan of the pipeline comes from. */
module AdapterLineage {
  import opened Wrappers
  import opened Records
  import opened InputGuard
  import opened Nonces
  import opened Lineage
  import opened SingleUse
  import opened Pipeline
  import A = AdapterPlan
  import CP = CommandPlan
  import WA = WriterAttestation

  /** The binding repeats the identities and digests of the command plan. */
  lemma {:induction false} BindingCarries(rebuilt: Value, request: Value, writerRequest: Value)
    requires PlanOf(Get(rebuilt, COMMAND_PLAN), request, writerRequest)
    requires Get(rebuilt, SCOPE) == Get(Get(rebuilt, COMMAND_PLAN), SCOPE)
    ensures PlanOf(A.BindingFrom(rebuilt), request, writerRequest)
  {
    var plan, binding := Get(rebuilt, COMMAND_PLAN), A.BindingFrom(rebuilt);
    forall k: Key | IsIdentity(k)
      ensures Get(binding, k) == Get(plan, k)
    {
      BindingIdentity(rebuilt, k);
    }
    BindingDigests(rebuilt);
    BindingScope(rebuilt);
  }

  lemma {:induction false} BindingScope(rebuilt: Value)
    ensures Get(A.BindingFrom(rebuilt), SCOPE) == Get(rebuilt, SCOPE)
  {
  }

  lemma {:induction false} BindingIdentity(rebuilt: Value, k: Key)
    requires IsIdentity(k)
    ensures Get(A.BindingFrom(rebuilt), k) == Get(Get(rebuilt, COMMAND_PLAN), k)
  {
  }

  lemma {:induction false} BindingDigests(rebuilt: Value)
    ensures var binding, plan := A.BindingFrom(rebuilt), Get(rebuilt, COMMAND_PLAN);
            && Get(binding, ACTION_PARAMETERS_DIGEST) == Get(plan, ACTION_PARAMETERS_DIGEST)
            && Get(binding, EXECUTION_PREFLIGHT_DIGEST) == Get(plan, EXECUTION_PREFLIGHT_DIGEST)
            && Get(binding, EXECUTION_RECORD_DIGEST) == Get(plan, EXECUTION_RECORD_DIGEST)
            && Get(binding, EXECUTION_REQUEST_DIGEST) == Get(plan, EXECUTION_REQUEST_DIGEST)
            && Get(binding, INTENT_WRITER_REQUEST_DIGEST) == Get(plan, INTENT_WRITER_REQUEST_DIGEST)
  {
  }

  lemma {:induction false} ReadyAuthorisesNothing(body: Value)
    ensures forall k: Key | A.IsAdapterFalse(k) :: Get(A.Ready(body), k) == Bool(false)
  {
  }

  /** The binding of a built adapter plan is that of the rebuilt command plan. */
  lemma {:induction false} BuiltBinding(
    supplied: Value, persisted: Value, writer: Value, preflight: Value, environment: Value, now: Value)
    requires A.Build(supplied, persisted, writer, preflight, environment, now).Some?
    ensures CP.BuildV2(persisted, writer, preflight) == Some(supplied)
    ensures var ready := A.Build(supplied, persisted, writer, preflight, environment, now).value;
            && Get(Get(ready, ADAPTER_PLAN), BINDING) == A.BindingFrom(supplied)
            && ready == A.Ready(Get(ready, ADAPTER_PLAN))
  {
    var v1Digest, hardening := Get(supplied, COMMAND_PLAN_V1_DIGEST), Get(supplied, RED_TEAM_HARDENING);
    A.ReadyParts(A.Body(A.BindingFrom(supplied), environment, v1Digest, hardening));
    A.BodyParts(A.BindingFrom(supplied), environment, v1Digest, hardening);
  }

  lemma {:induction false} OneMoreCommand(r: Rules, claims: Claims, steps: seq<Step>, command: Commanded)
    requires ValidRun(r, claims, steps) && Enabled(r, After(r, claims, steps), Command(command))
    ensures var longer := steps + [Command(command)];
            ValidRun(r, claims, longer) && command in After(r, claims, longer).commands
  {
    var longer := steps + [Command(command)];
    assert longer[..|steps|] == steps;
  }

  /** A command plan made from artifacts of a run could be the next artifact of that run. */
  lemma {:induction false} CommandOfRun(
    claims: Claims, steps: seq<Step>, proof: Proof, acknowledgement: Call, value: Value, preflight: Value)
    requires ValidRun(Stages(), claims, steps)
    requires proof in After(Stages(), claims, steps).proofs
    requires acknowledgement in After(Stages(), claims, steps).acknowledgements && acknowledgement.Acknowledge?
    requires CP.BuildV2(proof.value, WA.AttestedWriter(acknowledgement.request), preflight) == Some(value)
    ensures DecisionOk(proof.plan.decision) && AcknowledgementOk(acknowledgement)
    ensures Get(proof.plan.decision.request, DECISION) == Text(Authorize)
    ensures PlanOf(Get(value, COMMAND_PLAN), proof.plan.decision.request, acknowledgement.request)
    ensures acknowledgement.source == proof.receipt
  {
    var command := Commanded(proof, acknowledgement, preflight, value);
    OneMoreCommand(Stages(), claims, steps, command);
    CommandsDescendFromSignatures(claims, steps + [Command(command)], command);
  }

  /** In every run of the pipeline, an adapter plan built from an attested record and an
      acknowledgement of that run exists only under a signed authorisation, its binding
      carries exactly what the owner and the writer signed, and it authorises nothing. */
  lemma {:induction false} AdapterPlansDescendFromSignatures(
    claims: Claims, steps: seq<Step>, proof: Proof, acknowledgement: Call, supplied: Value,
    preflight: Value, environment: Value, now: Value)
    requires ValidRun(Stages(), claims, steps)
    requires proof in After(Stages(), claims, steps).proofs
    requires acknowledgement in After(Stages(), claims, steps).acknowledgements && acknowledgement.Acknowledge?
    requires A.Build(supplied, proof.value, WA.AttestedWriter(acknowledgement.request), preflight, environment,
                     now).Some?
    ensures DecisionOk(proof.plan.decision) && AcknowledgementOk(acknowledgement)
    ensures Get(proof.plan.decision.request, DECISION) == Text(Authorize) && acknowledgement.source == proof.receipt
    ensures var ready := A.Build(supplied, proof.value, WA.AttestedWriter(acknowledgement.request), preflight,
                                 environment, now).value;
            && PlanOf(Get(Get(ready, ADAPTER_PLAN), BINDING), proof.plan.decision.request, acknowledgement.request)
            && forall k: Key | A.IsAdapterFalse(k) :: Get(ready, k) == Bool(false)
  {
    var writer := WA.AttestedWriter(acknowledgement.request);
    BuiltBinding(supplied, proof.value, writer, preflight, environment, now);
    CommandOfRun(claims, steps, proof, acknowledgement, supplied, preflight);
    PlanScope(proof.value, writer, preflight);
    BindingCarries(supplied, proof.plan.decision.request, acknowledgement.request);
    ReadyAuthorisesNothing(
      Get(A.Build(supplied, proof.value, writer, preflight, environment, now).value, ADAPTER_PLAN));
  }
}
