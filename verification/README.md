# A verified model of AtlasQuant's gates

This project models six cores of AtlasQuant in Dafny and proves what they are for. Every statement below
holds for all inputs, all runs or all reachable states; nothing is bounded by a fuel or a sample.

1. **The signed execution pipeline.** Execution preflight, owner ceremony, persistence plan, append and
   attestation, writer ceremony, command plan V1 and V2. `SignedStep` is one generic ceremony (build a
   request, present it with a signature, rebuild it, check it, spend its nonce); `ExecutionCeremony` and
   `WriterAttestation` are its two instances, and `AuthorityVerifier` follows the same shape. `Pipeline`
   is the step protocol: a registry of nonces, the artifacts issued so far, and arbitrary outside inputs.
   `Lineage` shows that nothing is lost or invented on the way, `HonestRun` and the modules it builds on
   where an honest run can get stuck and where it cannot, and `HonestExample` gives concrete runs of both
   kinds. `InputGuard` is the guard of the V2 chain on these records, bounds, texts and types.
2. **The adapter chain.** Adapter plan V2, dry run V2 and synthetic receipt V2, whose validators accept by
   rebuilding the canonical value; and `safe_copy`, the copier with a shared budget. `AdapterLineage` and
   `HonestAdapter` tie the chain to the pipeline, in both directions: where an adapter plan comes from,
   and exactly which command plans get that far.
3. **Multi-company admission.** Quotas, reserve and concentration rounded half to even at two decimals,
   the one-pass portfolio reader, the verdict, and the machine that admits, removes and observes tenants.
4. **Live refresh.** The deadline loop over three loaders, and the one shared slot under every
   interleaving of starts, publications, peeks and the separately locked sections of any number of jobs.
5. **Login throttle and session gate**, as state machines over time.
6. **The user registry and the password-hash text format.**

## How to read it

- A module follows one source file or one part of it. Code that updates state step by step is a class or a
  method with loops, proved against a specification function; the laws are lemmas about that function.
  The pipeline stages compute one verdict from a conjunction of checks, so they are functions whose result
  is `None` (or a refusal) when any check of the source would block.
- Digests are symbolic: `Sha(v)` is a constructor, so it is injective and has no other structure. A
  signature is valid when it was made over exactly the presented bytes with the key of the entry. Keys,
  words of the program, timestamps and free texts are separate kinds of value.
- Time is whole seconds or microseconds, as the source compares it. Clocks, widget answers, loader results,
  preflight rows, signatures and stored masters are arbitrary parameters.

## Where the code does less than it seems to

The model follows the code. Six expectations turned out false of it; each has a lemma with the exact
condition under which it holds, and a lemma at a concrete input where it does not.

- An honest run can be stopped at the command plan. Its input guard refuses texts that look like an address
  or a command, of which no earlier stage knows: a customer id "www.acme" is evaluated, signed, planned,
  appended, attested and acknowledged, and then blocked (`HonestRun.HonestRunsGoThrough`,
  `HonestForward.EvaluatedIsForwardable`, `HonestExample.ExampleRun`, `HonestExample.BothCasesOccur`). The
  condition can be read off the preflight, the writer's reference and key, the key version and the revision.
- A READY preflight can be refused by the owner's ceremony, because it requires five upstream digests only
  to be present (`ExecutionPreflight.ReadyIsTakenIff`, `HonestExample.ReadyButRefused`).
- `_text` is not idempotent: a cut right behind a space leaves that space (`Texts.TextIdempotent`,
  `AdmissionLimits.AnUnstableCustomer`).
- Therefore a customer id that the cut at 120 characters leaves with a space at its end can be admitted
  twice, and the portfolio then blocks every request: the id is normalised once when it is admitted and
  once more when it is read back (`AdmissionOverflow.AdmittedTwiceIff`, `AdmissionOverflow.AdmittedTwice`,
  `AdmissionLimits.ReachedIsCleanIff`).
- Tenants past the 500th are never read. A policy loses its own bounds exactly when it allows more than 500
  tenants and leaves room for a 501st minimal one (`AdmissionOverflow.OverflowIff`,
  `AdmissionOverflow.GenerousCanOverflow`); every other policy keeps them (`AdmissionOverflow.NoOverflow`).
- A live read published from outside while a job is active can be lost when that job fails
  (`LiveRefresh.OutsidePublishCanBeLost`, `LiveRefresh.FirstRefreshCanLoseAPublication`).

The third item has a second side: the V2 command plan refuses every identity that `_text` would change,
which is exactly what makes the lineage theorem about raw identities true
(`Texts.IdentityIsTextFixpoint`, `CommandPlan.V2CarriesRawIdentities`).

## Model

| member | source | states |
|---|---|---|
| `Pipeline.CommandsDescendFromSignatures` | atlasquant_aion_b2b_owner_renewal_action_command_plan_v2.py:119-200 | In every run of the stages a command plan exists only if an owner key signed a request whose decision is to authorise; the plan carries exactly the scope, identities and digests of that request, a writer key signed the acknowledgement it names for the very receipt that was attested, and no artifact on the way authorises anything |
| `Pipeline.CommandsAreTraceable` | atlasquant_aion_b2b_owner_renewal_action_command_plan.py:161-315 | Every command plan of a run goes back, artifact by artifact, to a canonical signed decision and a canonical signed acknowledgement of that same run |
| `Pipeline.EveryOfficeIsSound` | atlasquant_aion_b2b_owner_renewal_action_execution_ceremony.py:548-627 | The run invariant behind it, for any stages: every stored artifact follows its stage's rule from artifacts that are stored too |
| `Pipeline.EachRequestIsSpentOnce` | atlasquant_aion_b2b_owner_renewal_action_execution_ceremony.py:610-627 | In a run of all stages whose clock does not go back, no request body is accepted twice |
| `AdapterLineage.AdapterPlansDescendFromSignatures` | atlasquant_aion_b2b_owner_renewal_action_adapter_plan_v2.py:112-199 | An adapter plan built from artifacts of a run exists only under a signed authorisation, its binding carries the scope, identities and digests that the owner and the writer signed, and all its authority fields are false |
| `AdapterLineage.CommandOfRun` | atlasquant_aion_b2b_owner_renewal_action_adapter_plan_v2.py:135-145 | Any command plan rebuilt from artifacts of a run, whether or not the run issued it, descends from the same signatures |
| `Lineage.PlanDescends` | atlasquant_aion_b2b_owner_renewal_action_execution_persistence_plan.py:108-331 | A persistence plan of a verified decision repeats the signed request both outside and inside its patch |
| `Lineage.AttestationDescends` | atlasquant_aion_b2b_owner_renewal_action_execution_persistence_attestation.py:449-495 | An attestation of such a plan still repeats the signed request and its lineage digests |
| `Lineage.CommandDescends` | atlasquant_aion_b2b_owner_renewal_action_command_plan.py:161-315 | From such an attestation a command plan is made only for AUTHORIZE, and it names the digest of the request and of the acknowledgement |
| `HonestRun.HonestRunsGoThrough` | atlasquant_aion_b2b_owner_renewal_action_execution_ceremony.py:295-432 | Honest runs pass every stage up to the command plan, and the command plan is READY if and only if its input guard lets pass what is left to chance: the preflight, the writer's reference, key and key version, and the new revision |
| `HonestForward.EvaluatedIsForwardable` | atlasquant_aion_b2b_v2_input_contract.py:38-65 | For a clean preflight that the gate itself issued, the guard's verdict on it comes down to one question: are its scope and identities harmless texts |
| `HonestForward.AttestedDecides` | atlasquant_aion_b2b_v2_input_contract.py:38-65 | An attestation has exactly 64 nodes, and it passes the guard if and only if the subject is harmless and the revision at most 10^12 |
| `HonestForward.WriterDecides` | atlasquant_aion_b2b_v2_input_contract.py:38-65 | An acknowledgement has exactly 48 nodes, and it passes if and only if its subject, reference and key are harmless and the key version is at most 10^12 |
| `InputGuard.GuardCopies` | atlasquant_aion_b2b_v2_input_contract.py:38-39 | However the program spells its keys and texts, the first half of the guard accepts a record exactly when `safe_copy`, as modelled in `SafeCopy`, accepts its spelling |
| `InputGuard.InputsAreSafe` | atlasquant_aion_b2b_v2_input_contract.py:38-65 | A list of inputs passes the guard if and only if each input fits and they have at most 4096 nodes together |
| `HonestRun.PlanIsAttested` | atlasquant_aion_b2b_owner_renewal_action_execution_persistence_attestation.py:298-495 | A clean plan appended by an honest store is attested, with the receipt that the builder makes |
| `HonestRun.DecisionSucceeds` | atlasquant_aion_b2b_owner_renewal_action_execution_ceremony.py:462-627 | A request built from a clean preflight is verified and its nonce granted |
| `HonestRun.AcknowledgementSucceeds` | atlasquant_aion_b2b_owner_renewal_action_execution_writer_attestation.py:270-374 | The receipt of an attested record passes every check of the writer's ceremony, and the command plan then depends on its input guard alone |
| `HonestRun.StepSucceeds` | atlasquant_aion_b2b_owner_renewal_action_execution_ceremony.py:295-432 | Any lawful ceremony accepts what it built, at any moment of the window, when the nonce is unused |
| `HonestExample.PremisesCanBeMet` | atlasquant_aion_b2b_owner_renewal_action_execution_ceremony.py:295-432 | The premises of the honest run can be met together with any clean preflight: a concrete owner, empty checkpoint and writer |
| `HonestExample.ExampleRun` | atlasquant_aion_b2b_owner_renewal_action_command_plan_v2.py:88-106 | A run from concrete inputs of the preflight, for every normalised customer id: all stages before the command plan succeed, and the command plan is made if and only if the id is a harmless text |
| `HonestExample.BothCasesOccur` | atlasquant_aion_b2b_owner_renewal_action_adapter_plan.py:93-103 | Both cases occur: "a" is harmless, and "www.acme" is normalised but not |
| `HonestExample.ReadyButRefused` | atlasquant_aion_b2b_owner_renewal_action_execution_preflight.py:253-625 | A READY preflight that the ceremony refuses exists for every customer id: any non-digest text in place of the five upstream digests will do |
| `HonestAdapter.AdaptedIff` | atlasquant_aion_b2b_owner_renewal_action_adapter_plan_v2.py:112-199 | Of all checks that the adapter repeats on a rebuilt command plan only these can fail, and the plan is READY if and only if they hold: the supplied copy, two empty blocker lists, short identifiers, the choice that stands for the family, the form of the record digest, and the environment |
| `HonestAdapter.PlanCanBeSimulated` | atlasquant_aion_b2b_owner_renewal_action_adapter_dry_run_v2.py:52-171 | Every validated adapter plan has a READY dry run, from its own required capabilities and healthy snapshots of its own environment, for any usable state of the service |
| `HonestAdapter.DryRunHasReceipt` | atlasquant_aion_b2b_owner_renewal_action_adapter_receipt_v2.py:78-182 | Every validated dry run has a receipt for any second of its window and any two synthetic references, and it is accepted if and only if the references are harmless texts |
| `HonestPlan.HonestPlanIsReady` | atlasquant_aion_b2b_owner_renewal_action_execution_persistence_plan.py:108-331 | A verified decision on a clean request passes all checks of the persistence plan |
| `HonestPlan.RequestIsClean` | atlasquant_aion_b2b_owner_renewal_action_execution_ceremony.py:395-432 | The request that a clean preflight leads to has only normalised identities and proper digests |
| `HonestAppend.RecordCanBeAppended` | atlasquant_aion_checkpoint_master.py:336-406 | A plain record can be appended to any readable checkpoint with room, and replaces the one in its namespace |
| `HonestCommand.CommandIsReady` | atlasquant_aion_b2b_owner_renewal_action_command_plan_v2.py:88-200 | A clean attestation, acknowledgement and preflight make a command plan if and only if they pass the input guard together; no other check can stop them |
| `ExecutionPreflight.ReadyIsTakenIff` | atlasquant_aion_b2b_owner_renewal_action_execution_preflight.py:253-625 | A READY preflight is taken by the owner's ceremony if and only if five digests that the preflight only requires to be non-empty have the form of a digest |
| `ExecutionPreflight.ReadyIsCleanIff` | atlasquant_aion_b2b_owner_renewal_action_execution_preflight.py:560-625 | A READY preflight is one from which an honest run can start if and only if those digests have their form and its identities are normalised |
| `SingleUse.VerifiedOnce` | atlasquant_aion_b2b_owner_renewal_action_execution_ceremony.py:127-150 | With a clock that does not go back each request body is verified at most once, whatever signature, source and keys it comes with and however much the registry forgets, for both ceremonies and the authority verifier |
| `SingleUse.OnlySignedRequestsAreSpent` | atlasquant_aion_b2b_owner_renewal_action_execution_writer_attestation.py:487-532 | The registry changes only for a call that passed all its checks, which for a ceremony means a canonical request with a valid signature |
| `Nonces.GrantedOnce` | atlasquant_aion_nonce_registry.py:116-149 | Two claims of one scope and nonce with one expiry are never both granted, whatever is claimed in between |
| `Nonces.EntryStays` | atlasquant_aion_nonce_registry.py:129-132 | An entry survives every claim made before it expires |
| `Nonces.NonceRegistry.Claim` | atlasquant_aion_nonce_registry.py:116-149 | Drops what has expired, then grants a new pair or refuses a known one; a refused claim leaves the registry as it was |
| `SignedStep.CheckIsRebuild` | atlasquant_aion_b2b_owner_renewal_action_execution_ceremony.py:462-608 | All separate checks of verification come down to one: the request equals the canonical rebuild of its own terms and the named, available key signed exactly that |
| `SignedStep.IssuedIsAccepted` | atlasquant_aion_b2b_owner_renewal_action_execution_ceremony.py:295-432 | What the builder issues the verifier accepts at any moment of the window at which the key is available |
| `SignedStep.Verify` | atlasquant_aion_b2b_owner_renewal_action_execution_ceremony.py:548-627 | The registry is touched only after the rebuild and signature checks passed, and the answer tells granted, replayed and failed claims apart |
| `ExecutionCeremony.CeremonyIsLawful` | atlasquant_aion_b2b_owner_renewal_action_execution_ceremony.py:402-432 | The owner's ceremony meets the law that the generic results need: the body holds its terms, and its checks hold of every rebuild |
| `ExecutionCeremony.VerifyDecision` | atlasquant_aion_b2b_owner_renewal_action_execution_ceremony.py:462-700 | A decision is verified exactly when the checks pass and the nonce is granted, and the result is then the record of that request |
| `WriterAttestation.AttestationIsLawful` | atlasquant_aion_b2b_owner_renewal_action_execution_writer_attestation.py:332-374 | The writer's ceremony meets the same law |
| `WriterAttestation.VerifyWriter` | atlasquant_aion_b2b_owner_renewal_action_execution_writer_attestation.py:401-567 | An acknowledgement is verified exactly when the checks pass and the nonce is granted |
| `AuthorityVerifier.VerifyAuthority` | atlasquant_aion_authority_verifier.py:88-201 | A statement is verified exactly when shape, window, binding, key and signature hold and its nonce is granted; a statement that fails any check spends nothing |
| `PersistenceAttestation.AttestedIsExactAppend` | atlasquant_aion_b2b_owner_renewal_action_execution_persistence_attestation.py:335-374 | An attested result means that the observed journal is the prior one plus exactly one event with the planned patch and id, the revision is one higher, the record stands in its namespace and every other namespace is as it was |
| `PersistenceAttestation.NoTwoPlansAtOneRevision` | atlasquant_aion_b2b_owner_renewal_action_execution_persistence_attestation.py:335-364 | In one linear history two plans prepared at one revision under different event ids are never both attested |
| `PersistenceAttestation.OneMasterPerRevision` | atlasquant_aion_b2b_owner_renewal_action_execution_persistence_attestation.py:335-339 | One linear history has one journal at each revision |
| `Checkpoints.AppendIsExact` | atlasquant_aion_checkpoint_master.py:336-406 | A successful append of a new id adds exactly one chained event, and the result replays to the merged state one revision later |
| `Checkpoints.DigestDetermines` | atlasquant_aion_checkpoint_master.py:454-471 | The master digest covers only digests, yet two masters that both replay and have equal digests are equal in every modelled field |
| `Checkpoints.MergeKeepsOthers` | atlasquant_aion_checkpoint_master.py:157-168 | A merge patch leaves every key that it does not mention as it was |
| `Checkpoints.ReconstructedChain` | atlasquant_aion_checkpoint_master.py:232-333 | A master that replays has its revision equal to its base revision plus the length of its chained journal |
| `CommandPlan.V2CarriesRawIdentities` | atlasquant_aion_b2b_owner_renewal_action_command_plan_v2.py:127-148 | A READY V2 plan carries the raw persisted identities unchanged by V1's normalisation; only the package is upper-cased |
| `CommandPlan.GuardKeepsFixedTexts` | atlasquant_aion_b2b_owner_renewal_action_command_plan_v2.py:38-43 | The V2 identity guard keeps exactly the values that V1's normalisation leaves alone |
| `Texts.IdentityIsTextFixpoint` | atlasquant_aion_b2b_owner_renewal_action_command_plan_v2.py:38-43 | For every string and limit, `_identity` returns the string itself exactly when it is non-empty and `_text` leaves it alone, and otherwise the empty string |
| `Texts.NormalFixpoints` | atlasquant_aion_b2b_owner_renewal_action_command_plan.py:93-96 | Splitting and joining is a projection onto the single-spaced strings |
| `Texts.TextIdempotent` | atlasquant_aion_b2b_owner_renewal_action_command_plan.py:93-96 | A second `_text` changes nothing if and only if the first one did not cut, the limit is zero, or the cut does not fall right behind a space |
| `AdapterPlan.BuiltIsAccepted` | atlasquant_aion_b2b_owner_renewal_action_adapter_plan_v2.py:208-285 | A built READY plan passes the input guard and validates back to its own body at any time inside its window, with no further premise |
| `AdapterPlan.AcceptedIsCanonical` | atlasquant_aion_b2b_owner_renewal_action_adapter_plan_v2.py:248-285 | An accepted plan is the canonical rebuild of its own binding, environment and digest, so it carries nothing else |
| `AdapterPlan.CanonicalIsAccepted` | atlasquant_aion_b2b_owner_renewal_action_adapter_plan_v2.py:208-285 | A canonical plan with a usable binding and fresh environment is accepted if and only if the texts of its environment are harmless |
| `AdapterDryRun.ValidatorInvertsBuilder` | atlasquant_aion_b2b_owner_renewal_action_adapter_dry_run_v2.py:174-196 | The validator accepts a value if and only if the builder makes it of the same inputs at the same time; a READY dry run always passes the validator's own input guard |
| `AdapterDryRun.BuiltIsSafe` | atlasquant_aion_b2b_owner_renewal_action_adapter_dry_run_v2.py:112-165 | Every READY dry run is itself safe input, of at most 700 nodes and within the depth bound |
| `AdapterDryRun.AcceptedAtItsTimeOnly` | atlasquant_aion_b2b_owner_renewal_action_adapter_dry_run_v2.py:174-196 | A dry run is accepted at one time only, the one at which it says it was observed, whatever plan, capabilities and snapshots come with it |
| `AdapterDryRun.AcceptanceIgnoresList` | atlasquant_aion_b2b_owner_renewal_action_adapter_dry_run_v2.py:174-196 | Acceptance does not depend on which known and sufficient capability list comes with a dry run |
| `AdapterDryRun.CapabilityListDoesNotMatter` | atlasquant_aion_b2b_owner_renewal_action_adapter_dry_run_v2.py:60-96 | A READY dry run is the same for any two capability lists, in any order and with any known extras |
| `AdapterDryRun.AnySufficientListWillDo` | atlasquant_aion_b2b_owner_renewal_action_adapter_dry_run_v2.py:60-96 | Replacing the list by another known one gives the same dry run if it covers what is required, and none otherwise |
| `AdapterDryRun.ValidatedSimulation` | atlasquant_aion_b2b_owner_renewal_action_adapter_dry_run_v2.py:174-196 | What validation returns is the simulation of the validated plan |
| `AdapterDryRun.SimulationWindow` | atlasquant_aion_b2b_owner_renewal_action_adapter_dry_run_v2.py:97-157 | Plan and both snapshots share one environment, and the simulation expires with it, at most three minutes after it was observed |
| `AdapterReceipt.ReceiptsAgree` | atlasquant_aion_b2b_owner_renewal_action_adapter_receipt_v2.py:112-145 | Two receipts accepted for one dry run agree on everything but the timestamp, the two synthetic references and the digest; equal in these three, they are equal |
| `AdapterReceipt.AcceptedExactlyUntilExpiry` | atlasquant_aion_b2b_owner_renewal_action_adapter_receipt_v2.py:156-166 | A receipt that is accepted at all is accepted exactly from its timestamp until the simulation expires |
| `AdapterReceipt.AcceptedWithinThreeMinutes` | atlasquant_aion_b2b_owner_renewal_action_adapter_receipt_v2.py:156-166 | Acceptance at a time implies that it is less than 180 seconds after the environment was observed |
| `SafeCopy.Copy` | atlasquant_aion_b2b_owner_renewal_action_adapter_plan.py:73-107 | Accepts exactly the values with at most 4096 nodes, depth at most 12 and only allowed keys and leaves, returns them unchanged, and fails an allowed value only for its bounds |
| `SafeCopy.Visit` | atlasquant_aion_b2b_owner_renewal_action_adapter_plan.py:77-105 | The same for every subtree under a shared budget, which an accepted subtree lowers by exactly its number of nodes |
| `SafeCopy.VisitDict` | atlasquant_aion_b2b_owner_renewal_action_adapter_plan.py:82-92 | The dictionary branch, whose early length check never changes the verdict |
| `SafeCopy.VisitList` | atlasquant_aion_b2b_owner_renewal_action_adapter_plan.py:93-96 | The list branch, likewise |
| `SafeCopy.ChildBlocks` | atlasquant_aion_b2b_owner_renewal_action_adapter_plan.py:77-105 | A child that does not fit what is left makes the whole value unacceptable, so stopping early is right |
| `SafeCopy.TooManyChildren` | atlasquant_aion_b2b_owner_renewal_action_adapter_plan.py:77-105 | The early exit is right: a node with at least as many children as the budget it was given has more nodes than that budget |
| `SourceRefresh.CollectSourceRefresh` | atlasquant_advanced_boot.py:144-218 | Every source ends with one justified report; publishable exactly when all three loaders were seen to return a non-empty mapping; the wall time is bounded by the largest budget and the lateness of clock and waits; with no lateness each verdict is the one its own deadline deserves |
| `SourceRefresh.Settle` | atlasquant_advanced_boot.py:171-204 | The deadline loop: every pending source is settled, by its result or its deadline |
| `SourceRefresh.Round` | atlasquant_advanced_boot.py:171-204 | One turn settles at least one pending source and never overruns the latest deadline by more than the lateness |
| `SourceRefresh.FileDone` | atlasquant_advanced_boot.py:176-196 | Every completed source gets the report that its result deserves, and no other report changes |
| `SourceRefresh.Expire` | atlasquant_advanced_boot.py:197-204 | Exactly the sources whose deadline has passed are given up as slow |
| `LiveRefresh.EveryInterleavingIsSafe` | atlasquant_advanced_boot.py:249-279 | In every interleaving of starts, publications, peeks and job sections a stored package has its three non-empty parts, ready and retained imply a package, failed implies none, and running implies that some job has still to report |
| `LiveRefresh.DisciplinedRunKeepsLastGood` | atlasquant_advanced_boot.py:238-282 | When outside publications happen only while no job is active, the stored package is always the last complete one published, and at most one job is active |
| `LiveRefresh.OutsidePublishCanBeLost` | atlasquant_advanced_boot.py:273-279 | The discipline is needed: any complete package published from outside while a job is collecting or giving up can be lost to the package that the job saw when it started |
| `LiveRefresh.FirstRefreshCanLoseAPublication` | atlasquant_advanced_boot.py:273-279 | The shortest such run leaves the slot empty after a publication |
| `LiveRefresh.PublishableIsStored` | atlasquant_advanced_boot.py:92-95 | A publishable collection is never dropped by the guard of the publication |
| `LiveRefresh.Slot.Publish` | atlasquant_advanced_boot.py:78-104 | The locked section stores a complete package and nothing otherwise, and keeps the slot coherent |
| `LiveRefresh.Slot.Start` | atlasquant_advanced_boot.py:238-247 | A start is answered running exactly when it starts a job or one runs already, and hands the job the package it may have to put back |
| `LiveRefresh.Slot.RecordSources` | atlasquant_advanced_boot.py:265-269 | The bookkeeping after a publication keeps the package and its status |
| `LiveRefresh.Slot.GiveUp` | atlasquant_advanced_boot.py:270-279 | A failed job restores the package it saw, or leaves the slot failed and empty when it saw none |
| `LoginThrottle.AtMostFiveAWindow` | atlasquant_access_panel.py:226-248 | From a blank throttle and a clock that does not go back, every half-open window of 300 seconds holds at most five counted failures, and every state has fewer than five attempts or a lock |
| `LoginThrottle.RunIsTracked` | atlasquant_access_panel.py:242-248 | The counter is the number of failures since the last full block, and the blocks of five are a lock apart |
| `LoginThrottle.SixSpanTheLock` | atlasquant_access_panel.py:242-248 | Any six consecutive counted failures span at least the lock time |
| `AccessGate.AuthenticatedIsEarned` | atlasquant_access_panel.py:304-375 | In every run an accepted request proves a login at most twelve hours earlier, signs of life at most two hours apart since, and a registry that still holds the active entry with the same name, role and hash |
| `AccessGate.EverySessionIsBacked` | atlasquant_access_panel.py:352-360 | Every stored session goes back to one successful login and its last use |
| `AccessGate.PreviewOnlyWithoutUsers` | atlasquant_access_panel.py:314-321 | The preview is answered if and only if access is required, the registry is empty and the preview is enabled |
| `AccessGate.FewFailuresBetweenLogins` | atlasquant_access_panel.py:381-414 | In every run of the gate with a clock that does not go back, the wrong passwords counted between two logins are at most five in any half-open window of 300 seconds, and the stored throttle has fewer than five attempts or a lock |
| `AccessGate.ThrottleMoves` | atlasquant_access_panel.py:381-414 | One rendering blanks the throttle at a login, moves it at a wrong password and leaves it alone otherwise |
| `AccessGate.AccessPanel.RenderAccessGate` | atlasquant_access_panel.py:329-415 | The session, throttle and answer after a rendering are those of the gate's transition function |
| `AccessControl.LoadUsersConfig` | atlasquant_access_control.py:119-146 | The registry holds exactly the names that one and only one valid record claims, each with that record's user; it is empty for unreadable or oversized configurations |
| `AccessControl.KeepUnambiguous` | atlasquant_access_control.py:131-146 | The pop-or-remember loop meets that counting specification for any way of reading a record |
| `AccessControl.OneMoreItem` | atlasquant_access_control.py:133-145 | One turn of the loop keeps the counting meaning of both collections |
| `AccessControl.RegistryIgnoresOrder` | atlasquant_access_control.py:131-146 | Configurations that list the same records in different orders give the same registry |
| `HashFormat.HashRoundTrip` | atlasquant_access_control.py:60-94 | A printed hash is well formed, and a password verifies against it exactly when it derives the same key; the original one does |
| `HashFormat.VerifiedIsWellFormed` | atlasquant_access_control.py:77-104 | Whatever a password verifies against passes the registry's format check |
| `HashFormat.ReadersAgree` | atlasquant_access_control.py:77-104 | The unbounded and the bounded split read the same parameters from every string |
| `HashFormat.HexRoundTrip` | atlasquant_access_control.py:60-94 | Hexadecimal printing and reading are inverse on every byte string |
| `HashFormat.ParsePrinted` | atlasquant_access_control.py:60-94 | A printed iteration count reads back as itself |
| `Admission.Evaluate` | atlasquant_aion_b2b_multi_company_admission.py:380-656 | The step-by-step gate, with its loops over quotas and tenants, computes the verdict that the laws below speak about |
| `Admission.Project` | atlasquant_aion_b2b_multi_company_admission.py:522-567 | The projection loop computes every quota's projection and collects its reasons in order |
| `Admission.Judge` | atlasquant_aion_b2b_multi_company_admission.py:577-616 | The verdict is BLOCKED exactly when there is a blocker, REVIEWABLE exactly when there is neither a blocker nor a reason, a hold for isolation exactly when some reason concerns identity, and a hold for capacity when all do not |
| `AdmissionLaws.ReviewableIff` | atlasquant_aion_b2b_multi_company_admission.py:605-616 | A request is REVIEWABLE if and only if every input is well formed and the request fits: new names, quiet neighbours, sizes, quotas, reserve, concentration and count within the policy |
| `AdmissionLaws.ReasonsAreClassified` | atlasquant_aion_b2b_multi_company_admission.py:577-616 | Every emitted reason falls in exactly one hold class, so REVIEWABLE holds exactly without blockers and reasons |
| `AdmissionLaws.PolicyFaultsIff` | atlasquant_aion_b2b_multi_company_admission.py:193-263 | The policy raises no blocker if and only if it is verified, in scope, evidenced and all its numbers are usable |
| `AdmissionLaws.FaultsIff` | atlasquant_aion_b2b_multi_company_admission.py:193-496 | No blocker is raised if and only if scope, upstream results, policy, portfolio and request are well formed |
| `AdmissionLaws.NoReasonsIff` | atlasquant_aion_b2b_multi_company_admission.py:461-575 | For well-formed inputs no reason is raised if and only if the request fits |
| `Portfolio.NormalizePortfolio` | atlasquant_aion_b2b_multi_company_admission.py:266-377 | The loop with its two sets of seen names computes the same books as the plain fold over the first 500 entries |
| `Portfolio.TakeEntry` | atlasquant_aion_b2b_multi_company_admission.py:298-366 | One turn of the loop: seats, totals, blockers and neighbours move as the fold says and the two sets stay the names of the seats |
| `Portfolio.NoBlockersIffClean` | atlasquant_aion_b2b_multi_company_admission.py:298-349 | No blocker is raised if and only if the entries are sound and pairwise distinct in tenant and customer, and then every total is the sum over all of them |
| `Portfolio.NoisyIffNotQuiet` | atlasquant_aion_b2b_multi_company_admission.py:345-354 | Among clean entries a noisy neighbour is reported exactly when one is over the policy |
| `AdmissionRuns.EveryPortfolioIsSane` | atlasquant_aion_b2b_multi_company_admission.py:522-575 | From an empty portfolio, under any sequence of reviewable admissions, removals and new observations and a policy of at most 500 tenants, tenant ids stay distinct, the count within the policy, every quota sum within its limit, the exact reserve at least the policy less 0.005 points and every exact share at most the policy plus 0.005 |
| `AdmissionRuns.StepKeepsSane` | atlasquant_aion_b2b_multi_company_admission.py:522-575 | The inductive step of that invariant |
| `AdmissionData.RoundIsClose` | atlasquant_aion_b2b_multi_company_admission.py:530-538 | Rounding to two decimals moves a figure by at most 0.005 |
| `AdmissionData.RoundIsMonotone` | atlasquant_aion_b2b_multi_company_admission.py:530-538 | And keeps the order of figures |
| `AdmissionData.ExactFigures` | atlasquant_aion_b2b_multi_company_admission.py:530-538 | What the rounded checks of one quota imply for its exact reserve and share |
| `AdmissionLimits.AskingLessStaysReviewable` | atlasquant_aion_b2b_multi_company_admission.py:472-616 | A reviewable request stays reviewable, through all rounding, when it asks for less of anything |
| `AdmissionLimits.RemovalStaysReviewable` | atlasquant_aion_b2b_multi_company_admission.py:298-377 | And when a tenant leaves a portfolio of at most 500 |
| `AdmissionLimits.ReachedIsCleanIff` | atlasquant_aion_b2b_multi_company_admission.py:304-313 | A reached portfolio is read back without blockers if and only if its customer ids are still distinct after their second normalisation |
| `AdmissionLimits.AdmissionStaysCleanIff` | atlasquant_aion_b2b_multi_company_admission.py:302-313 | One admission leaves a clean portfolio clean if and only if the stored customer id, normalised again, is not in use |
| `AdmissionLimits.StableRunsStayClean` | atlasquant_aion_b2b_multi_company_admission.py:298-377 | Runs that admit only customer ids fixed by a second normalisation never block themselves |
| `AdmissionLimits.ReadmissionIsSeenIff` | atlasquant_aion_b2b_multi_company_admission.py:466-470 | Right after an admission the same customer is recognised if and only if its id survives a second normalisation |
| `AdmissionLimits.AnUnstableCustomer` | atlasquant_aion_b2b_multi_company_admission.py:41-44 | A customer id that does not: 119 letters, a space and one letter more |
| `AdmissionLimits.TailIsIgnored` | atlasquant_aion_b2b_multi_company_admission.py:298 | Tenants past the 500th never influence the verdict |
| `AdmissionLimits.SameRequestForever` | atlasquant_aion_b2b_multi_company_admission.py:298 | So once 500 are in, one reviewable request can be admitted any number of times |
| `AdmissionLimits.CopiesAddUp` | atlasquant_aion_b2b_multi_company_admission.py:322-328 | And its quotas then add up without bound |
| `AdmissionOverflow.OverflowIff` | atlasquant_aion_b2b_multi_company_admission.py:298 | Some run of a policy leaves its bounds if and only if the policy allows more than 500 tenants and leaves room for a 501st minimal one; so the limit of 500 in the run theorem is needed, and no other policy needs it |
| `AdmissionOverflow.OverflowRun` | atlasquant_aion_b2b_multi_company_admission.py:298 | Such a policy has a run of admissions alone after which every quota is past its limit |
| `AdmissionOverflow.NoOverflow` | atlasquant_aion_b2b_multi_company_admission.py:298 | Under every other policy all runs stay within their bounds, whatever number of tenants it allows |
| `AdmissionOverflow.GenerousCanOverflow` | atlasquant_aion_b2b_multi_company_admission.py:298 | A concrete policy of the first kind |
| `AdmissionOverflow.AdmittedTwiceIff` | atlasquant_aion_b2b_multi_company_admission.py:466-470 | After one admission the same customer can be admitted again under another tenant id if and only if its id does not survive a second normalisation |
| `AdmissionOverflow.AdmittedTwice` | atlasquant_aion_b2b_multi_company_admission.py:302-313 | A concrete world and run of two admissions of one customer, after which every request is blocked |
| `AdmissionView.BuildView` | atlasquant_aion_b2b_multi_company_read_model.py:35-192 | The view is READY exactly for presentable rows, and shows names, figures, the least reserve and the greatest share of that row |
| `AdmissionView.ReadQuotas` | atlasquant_aion_b2b_multi_company_read_model.py:104-134 | The loop over quotas shows each figure once and blocks for each missing one |
| `AdmissionView.PresentableIffNotBlocked` | atlasquant_aion_b2b_multi_company_read_model.py:48-93 | Under the same complete scope the view of a verdict is READY if and only if the verdict is not BLOCKED |
| `AdmissionView.FiguresAreShownUnchanged` | atlasquant_aion_b2b_multi_company_read_model.py:126-134 | Rounding again changes no figure of a verdict |

## Left out

Weaker than the source in a stated respect:

- Pipeline.CommandsDescendFromSignatures: the stages return `None` or the kind of refusal when they block, not the list of blocker names, and the joined or hashed nonce scope texts are kept as lists of their parts.
- HonestRun.HonestRunsGoThrough: program-derived texts (words, digests, timestamps) are taken to fit every text limit, including the package limit of 40, and no free text spells one of them; padded digest texts are not represented.
- ExecutionPreflight.ReadyIsTakenIff: the numeric text carried for planned infrastructure is left out, and its environment digest covers the fields as values rather than as canonical text.
- Checkpoints.AppendIsExact: byte limits, compaction, rollback candidates and the integer coercion of revisions are not modelled; of the flags whose replay promotion is rejected only `external_action_executed` is a key of the model.
- AuthorityVerifier.VerifyAuthority: the size limit on the canonical bytes is not modelled.
- SignedStep.Verify: only the kind and order of refusals is kept; the guards against arguments of the wrong Python type are the types of the model.
- AdapterPlan.BuiltIsAccepted: a timestamp is never taken for an identifier.
- InputGuard.GuardCopies: that the names of the keys and the texts which the program spells or derives are themselves acceptable is a premise, and digits and case folding are those of ASCII.
- Checkpoints.DigestDetermines: the creation time of a master, its compaction flags and extra keys of an event that no digest covers are not modelled, so equality says nothing about them.
- AdapterDryRun.ValidatorInvertsBuilder: the evidence references of a simulation keep first-seen order where the source sorts them.
- AdapterReceipt.AcceptedExactlyUntilExpiry: only acceptance is modelled, not the constant fields of the acknowledgement.
- SafeCopy.Copy: which of several faults of one value is reported first is left open; case folding is that of ASCII letters.
- SourceRefresh.CollectSourceRefresh: error texts and the rounding of elapsed seconds are left out; a clock reading or wait may be late by any bound the caller names.
- LiveRefresh.EveryInterleavingIsSafe: the cleaning of the source-status mapping is a parameter, and background threads are modelled by their locked sections.
- AccessGate.AuthenticatedIsEarned: times are whole seconds, and widgets, texts, the role count of the registry and the cleanup of chat stores are left out.
- AccessControl.LoadUsersConfig: the JSON text is already read into a list of records in insertion order; Unicode folding of names is that of ASCII letters.
- HashFormat.HashRoundTrip: the key derivation is an arbitrary function with 32-byte keys on the printed one; `int()` on non-ASCII digits or on more than 4300 digits is not modelled.
- Admission.Evaluate: the checks on the value and conversion results are two lists of given blockers, the evidence digest and the constant false fields are left out, numbers are exact reals without infinities, and an integer too large for a float is an ordinary number.
- AdmissionView.BuildView: the constant flags, the counts and the first twelve reason texts are left out, except that unsafe flags block.

Not modelled at all:

- The twin of this pipeline one stage earlier (renewal-action ceremony, persistence plan and attestation): another instance of the same generic ceremony and the same append.
- The V1 adapter plan, dry run and receipt: legacy twins of the V2 files.
- The design-only contract chain (dispatch, call boundary, outcome receipt, reconciliation, finalization, audit seal, certificates): constant-field gates around a kernel that is not in these files.
- Portals, sandbox, intake, conversion capacity, managed-service control, insights and inbox panels: long conjunctions of field checks that would only add easy members.
- Python's equality of `True` and `1`: values of different kinds are different here.
- Loading trust roots from a file, base64, JSON text, regular-expression engines, SQLite and its transactions, thread pools, secrets, files and the network.
- Rendering: HTML, CSS, Streamlit and messages to the user.
- Float rounding: percentages and rounding are exact over the reals.
