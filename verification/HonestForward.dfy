/** Honest runs at the input guard of the command plan: which texts and numbers of an
    attestation, an acknowledgement and a preflight decide whether they may pass. */
module HonestForward {
  import opened Wrappers
  import opened Records
  import opened InputGuard
  import opened Checkpoints
  import opened PersistenceAttestation
  import opened Lineage
  import opened HonestPlan
  import CP = CommandPlan
  import WA = WriterAttestation
  import PF = ExecutionPreflight
  import S = SafeCopy

  // --------------------------------------------------------------- fixed texts

  lemma {:induction false} FixedIsText(v: Value, limit: nat)
    requires Fixed(v, limit)
    ensures IsTextValue(v) && IsLeaf(v)
  {
  }

  lemma {:induction false} FixedSubjectIsText(row: Value)
    requires FixedSubject(row)
    ensures forall k: Key | IsSubject(k) :: IsTextValue(Get(row, k)) && IsLeaf(Get(row, k))
  {
    forall k: Key | IsSubject(k)
      ensures IsTextValue(Get(row, k)) && IsLeaf(Get(row, k))
    {
      if IsIdentity(k) {
        assert Fixed(Get(row, k), CP.IdentityLimit(k));
        FixedIsText(Get(row, k), CP.IdentityLimit(k));
      } else {
        assert IsScopeField(k) && Fixed(Get(row, k), 120);
        FixedIsText(Get(row, k), 120);
      }
    }
  }

  /** The scope and identities are harmless texts. */
  predicate HarmlessSubject(row: Value) { forall k: Key | IsSubject(k) :: Harmless(Get(row, k)) }

  // ---------------------------------------------------------- the attestation

  const ATTESTED_NODES := 64

  predicate IsAttestedLeaf(k: Key) { InResult(k) && k != BLOCKERS && k != SCOPE }

  /** The digests and the decision of an attested plan have their form. */
  predicate FormedAttestation(plan: Value, observed: Master, receipt: Value) {
    && FixedSubject(plan) && IsDecision(Get(plan, EXECUTION_DECISION)) && Get(plan, EXECUTION_RECORD_DIGEST).Sha?
    && (forall f: Key | IsLineageDigest(f) :: Get(PlannedRecord(plan), f).Sha?)
    && Get(receipt, RECEIPT_DIGEST).Sha? && observed.stateDigest.Sha?
  }

  lemma {:induction false} AttestedLeafKind(plan: Value, prior: Master, observed: Master, receipt: Value, k: Key)
    requires FormedAttestation(plan, observed, receipt) && IsAttestedLeaf(k)
    ensures var v := ResultField(plan, prior, observed, receipt, k);
            && (IsSubject(k) ==> v == Get(plan, k))
            && (k == CHECKPOINT_REVISION ==> v == Int(observed.revision))
            && (!IsSubject(k) && k != CHECKPOINT_REVISION ==>
                  IsLeaf(v) && Harmless(v) && Typed(k, v))
  {
  }

  lemma {:induction false} SubjectIsTyped(k: Key, v: Value)
    requires IsSubject(k) && IsTextValue(v)
    ensures Typed(k, v)
  {
  }

  lemma {:induction false} AttestedLeafFits(plan: Value, prior: Master, observed: Master, receipt: Value, k: Key)
    requires FormedAttestation(plan, observed, receipt) && IsAttestedLeaf(k)
    ensures var v := ResultField(plan, prior, observed, receipt, k);
            && IsLeaf(v)
            && (HarmlessSubject(plan) && Harmless(Int(observed.revision)) ==> Fits(k, v, 10))
  {
    var v := ResultField(plan, prior, observed, receipt, k);
    AttestedLeafKind(plan, prior, observed, receipt, k);
    FixedSubjectIsText(plan);
    if IsSubject(k) { SubjectIsTyped(k, v); }
    if HarmlessSubject(plan) && Harmless(Int(observed.revision)) { LeafFits(k, v, 10); }
  }

  lemma {:induction false} ScopeFieldFits(plan: Value)
    requires FixedSubject(plan)
    ensures var scope := Dict(map f: Key | OWNER_ID <= f <= WORKSPACE_ID :: Get(plan, f));
            && Nodes(scope) == 4 && (HarmlessSubject(plan) ==> Fits(SCOPE, scope, 10))
  {
    var scope := Dict(map f: Key | OWNER_ID <= f <= WORKSPACE_ID :: Get(plan, f));
    FixedSubjectIsText(plan);
    forall f: Key | f in scope.fields
      ensures scope.fields[f] == Get(plan, f) && IsSubject(f) && IsLeaf(scope.fields[f]) && Typed(f, scope.fields[f])
    {
      SubjectIsTyped(f, Get(plan, f));
    }
    ScopeNodes(scope);
    if HarmlessSubject(plan) { DictFits(scope, 10); }
  }

  lemma {:induction false} AttestedNodes(row: Value)
    requires row.Dict? && forall k: Key :: k in row.fields <==> InResult(k)
    requires forall k: Key | IsAttestedLeaf(k) :: IsLeaf(row.fields[k])
    requires Nodes(Get(row, BLOCKERS)) == 1 && Nodes(Get(row, SCOPE)) == 4
    ensures Nodes(row) == ATTESTED_NODES
  {
    LeavesBetween(row, 0, 2);
    OneBetween(row, BLOCKERS);
    OneBetween(row, SCOPE);
    NoneBetween(row, 4, 8);
    LeavesBetween(row, 8, 9);
    NoneBetween(row, 9, 10);
    LeavesBetween(row, 10, 19);
    NoneBetween(row, 19, 20);
    LeavesBetween(row, 20, 30);
    AttestedNodesAbove(row);
  }

  lemma {:induction false} AttestedNodesAbove(row: Value)
    requires row.Dict? && forall k: Key :: k in row.fields <==> InResult(k)
    requires forall k: Key | IsAttestedLeaf(k) :: IsLeaf(row.fields[k])
    ensures NodesBelow(row, KEYS) == NodesBelow(row, 30) + 36
  {
    NoneBetween(row, 30, 40);
    LeavesBetween(row, 40, 43);
    NoneBetween(row, 43, 65);
    LeavesBetween(row, 65, 67);
    NoneBetween(row, 67, 81);
    LeavesBetween(row, 81, 82);
    NoneBetween(row, 82, 86);
    LeavesBetween(row, 86, 94);
    NoneBetween(row, 94, 130);
    LeavesBetween(row, 130, 152);
    NoneBetween(row, 152, KEYS);
  }

  lemma {:induction false} AttestedIsFilled(
    plan: Value, prior: Master, observed: Master, receipt: Value, field: Key -> Value)
    requires field == (k => ResultField(plan, prior, observed, receipt, k))
    ensures var row := Attested(plan, prior, observed, receipt);
            && row.Dict? && (forall k: Key :: k in row.fields <==> InResult(k))
            && forall k: Key | InResult(k) :: row.fields[k] == Get(row, k) == field(k)
    ensures field(BLOCKERS) == List([])
    ensures field(SCOPE) == Dict(map f: Key | OWNER_ID <= f <= WORKSPACE_ID :: Get(plan, f))
  {
  }

  lemma {:induction false} NoBlockersFit(room: nat)
    requires room >= 1
    ensures Fits(BLOCKERS, List([]), room) && Nodes(List([])) == 1
  {
    LeafListFits(BLOCKERS, List([]), room);
  }

  lemma {:induction false} AttestedAs(row: Value, field: Key -> Value)
    requires row.Dict? && (forall k: Key :: k in row.fields <==> InResult(k))
    requires forall k: Key | InResult(k) :: row.fields[k] == Get(row, k) == field(k)
    requires forall k: Key | InResult(k) :: Fits(k, field(k), 10)
    ensures FitsInList(row)
  {
    FilledFits(row, InResult, field, 11);
  }

  /** An attestation holds a fixed number of nodes, and it fits exactly when the subject is
      harmless and the revision in bounds. */
  lemma {:induction false} AttestedDecides(plan: Value, prior: Master, observed: Master, receipt: Value)
    requires FormedAttestation(plan, observed, receipt)
    ensures var row := Attested(plan, prior, observed, receipt);
            && Nodes(row) == ATTESTED_NODES
            && (FitsInList(row) <==> HarmlessSubject(plan) && Harmless(Int(observed.revision)))
  {
    var row, field := Attested(plan, prior, observed, receipt), (k: Key) => ResultField(plan, prior, observed, receipt, k);
    AttestedIsFilled(plan, prior, observed, receipt, field);
    ScopeFieldFits(plan);
    NoBlockersFit(10);
    forall k: Key | IsAttestedLeaf(k)
      ensures IsLeaf(field(k)) && (HarmlessSubject(plan) && Harmless(Int(observed.revision)) ==> Fits(k, field(k), 10))
    {
      AttestedLeafFits(plan, prior, observed, receipt, k);
    }
    AttestedNodes(row);
    if HarmlessSubject(plan) && Harmless(Int(observed.revision)) { AttestedAs(row, field); }
    if FitsInList(row) { HarmlessAttested(plan, prior, observed, receipt); }
  }

  lemma {:induction false} HarmlessAttested(plan: Value, prior: Master, observed: Master, receipt: Value)
    requires Harmless(Attested(plan, prior, observed, receipt))
    ensures HarmlessSubject(plan) && Harmless(Int(observed.revision))
  {
    var row := Attested(plan, prior, observed, receipt);
    AttestedSubject(plan, prior, observed, receipt);
    HarmlessField(row, CHECKPOINT_REVISION);
    AttestedRevision(plan, prior, observed, receipt);
    forall k: Key | IsSubject(k) ensures Harmless(Get(plan, k)) { HarmlessField(row, k); }
  }

  lemma {:induction false} AttestedRevision(plan: Value, prior: Master, observed: Master, receipt: Value)
    ensures Get(Attested(plan, prior, observed, receipt), CHECKPOINT_REVISION) == Int(observed.revision)
  {
  }

  // ------------------------------------------------------- the acknowledgement

  const WRITER_NODES := 48

  predicate IsWriterLeaf(k: Key) { WA.InResult(k) && k != BLOCKERS }

  /** A request whose repeated fields have their form. */
  predicate FormedRequest(request: Value) {
    && (forall k: Key | CUSTOMER_ID <= k <= ACTION_FAMILY :: IsTextValue(Get(request, k)))
    && IsDecision(Get(request, EXECUTION_DECISION)) && Get(request, EXECUTION_RECORD_DIGEST).Sha?
    && Get(request, EVENT_ID).DerivedId? && IsTextValue(Get(request, WRITER_REF))
    && Get(request, AFTER_CHECKPOINT_DIGEST).Sha? && Get(request, RECEIPT_DIGEST).Sha?
    && Get(request, KEY_ID).Str? && Get(request, KEY_VERSION).Int? && Get(request, WRITER_FINGERPRINT).Sha?
  }

  /** What the writer adds to what the owner signed: its reference, its key and the version. */
  predicate HarmlessWriter(request: Value) {
    Harmless(Get(request, WRITER_REF)) && Harmless(Get(request, KEY_ID)) && Harmless(Get(request, KEY_VERSION))
  }

  predicate HarmlessReceiptSubject(request: Value) {
    forall k: Key | CUSTOMER_ID <= k <= ACTION_FAMILY :: Harmless(Get(request, k))
  }

  predicate IsWriterFree(k: Key) {
    CUSTOMER_ID <= k <= ACTION_FAMILY || k == WRITER_REF || WRITER_KEY_ID <= k <= WRITER_KEY_VERSION
  }

  lemma {:induction false} WriterFreeFields(request: Value)
    ensures forall k: Key | CUSTOMER_ID <= k <= ACTION_FAMILY || k == WRITER_REF ::
              WA.ResultField(request, k) == Get(request, k)
    ensures WA.ResultField(request, WRITER_KEY_ID) == Get(request, KEY_ID)
    ensures WA.ResultField(request, WRITER_KEY_VERSION) == Get(request, KEY_VERSION)
  {
  }

  lemma {:induction false} WriterBoundField(request: Value, k: Key)
    requires FormedRequest(request) && IsWriterLeaf(k) && !IsWriterFree(k)
    ensures var v := WA.ResultField(request, k); IsLeaf(v) && Harmless(v) && Typed(k, v)
  {
  }

  lemma {:induction false} WriterFreeField(request: Value, k: Key)
    requires FormedRequest(request) && IsWriterFree(k)
    ensures var v := WA.ResultField(request, k);
            IsLeaf(v) && Typed(k, v) && (HarmlessReceiptSubject(request) && HarmlessWriter(request) ==> Harmless(v))
  {
    WriterFreeFields(request);
    if CUSTOMER_ID <= k <= ACTION_FAMILY { assert IsTextValue(Get(request, k)); }
  }

  lemma {:induction false} WriterLeafFits(request: Value, k: Key)
    requires FormedRequest(request) && IsWriterLeaf(k)
    ensures var v := WA.ResultField(request, k);
            IsLeaf(v) && (HarmlessReceiptSubject(request) && HarmlessWriter(request) ==> Fits(k, v, 10))
  {
    if IsWriterFree(k) { WriterFreeField(request, k); } else { WriterBoundField(request, k); }
    if HarmlessReceiptSubject(request) && HarmlessWriter(request) { LeafFits(k, WA.ResultField(request, k), 10); }
  }

  lemma {:induction false} WriterNodes(row: Value)
    requires row.Dict? && forall k: Key :: k in row.fields <==> WA.InResult(k)
    requires forall k: Key | IsWriterLeaf(k) :: IsLeaf(row.fields[k])
    requires Nodes(Get(row, BLOCKERS)) == 1
    ensures Nodes(row) == WRITER_NODES
  {
    LeavesBetween(row, 0, 2);
    OneBetween(row, BLOCKERS);
    NoneBetween(row, 3, 7);
    LeavesBetween(row, 7, 9);
    NoneBetween(row, 9, 13);
    LeavesBetween(row, 13, 17);
    NoneBetween(row, 17, 29);
    LeavesBetween(row, 29, 30);
    WriterNodesAbove(row);
  }

  lemma {:induction false} WriterNodesAbove(row: Value)
    requires row.Dict? && forall k: Key :: k in row.fields <==> WA.InResult(k)
    requires forall k: Key | IsWriterLeaf(k) :: IsLeaf(row.fields[k])
    ensures NodesBelow(row, KEYS) == NodesBelow(row, 30) + 37
  {
    NoneBetween(row, 30, 41);
    LeavesBetween(row, 41, 43);
    NoneBetween(row, 43, 84);
    LeavesBetween(row, 84, 89);
    NoneBetween(row, 89, 92);
    LeavesBetween(row, 92, 93);
    NoneBetween(row, 93, 94);
    LeavesBetween(row, 94, 101);
    NoneBetween(row, 101, 130);
    LeavesBetween(row, 130, 152);
    NoneBetween(row, 152, KEYS);
  }

  lemma {:induction false} WriterIsFilled(request: Value, field: Key -> Value)
    requires field == (k => WA.ResultField(request, k))
    ensures var row := WA.AttestedWriter(request);
            && row.Dict? && (forall k: Key :: k in row.fields <==> WA.InResult(k))
            && forall k: Key | WA.InResult(k) :: row.fields[k] == Get(row, k) == field(k)
    ensures field(BLOCKERS) == List([])
  {
  }

  lemma {:induction false} WriterAs(row: Value, field: Key -> Value)
    requires row.Dict? && (forall k: Key :: k in row.fields <==> WA.InResult(k))
    requires forall k: Key | WA.InResult(k) :: row.fields[k] == Get(row, k) == field(k)
    requires forall k: Key | WA.InResult(k) :: Fits(k, field(k), 10)
    ensures FitsInList(row)
  {
    FilledFits(row, WA.InResult, field, 11);
  }

  /** An acknowledgement too has a fixed number of nodes, and it fits exactly when its free
      texts are harmless and the key version in bounds. */
  lemma {:induction false} WriterDecides(request: Value)
    requires FormedRequest(request)
    ensures var row := WA.AttestedWriter(request);
            && Nodes(row) == WRITER_NODES
            && (FitsInList(row) <==> HarmlessReceiptSubject(request) && HarmlessWriter(request))
  {
    var row, field := WA.AttestedWriter(request), (k: Key) => WA.ResultField(request, k);
    WriterIsFilled(request, field);
    NoBlockersFit(10);
    forall k: Key | IsWriterLeaf(k)
      ensures IsLeaf(field(k)) && (HarmlessReceiptSubject(request) && HarmlessWriter(request) ==> Fits(k, field(k), 10))
    {
      WriterLeafFits(request, k);
    }
    WriterNodes(row);
    if HarmlessReceiptSubject(request) && HarmlessWriter(request) { WriterAs(row, field); }
    if FitsInList(row) { HarmlessAcknowledgement(request); }
  }

  lemma {:induction false} HarmlessAcknowledgement(request: Value)
    requires Harmless(WA.AttestedWriter(request))
    ensures HarmlessReceiptSubject(request) && HarmlessWriter(request)
  {
    var row := WA.AttestedWriter(request);
    WriterIsFilled(request, k => WA.ResultField(request, k));
    WriterFreeFields(request);
    HarmlessField(row, WRITER_REF);
    HarmlessField(row, WRITER_KEY_ID);
    HarmlessField(row, WRITER_KEY_VERSION);
    forall k: Key | CUSTOMER_ID <= k <= ACTION_FAMILY ensures Harmless(Get(request, k)) { HarmlessField(row, k); }
  }

  // ------------------------------------------------------------ the three together

  /** The most nodes that a preflight may have beside the other two. */
  const PREFLIGHT_ROOM := S.MAX_NODES - 1 - ATTESTED_NODES - WRITER_NODES

  /** A preflight that passes the guard beside an attestation and an acknowledgement. */
  predicate Forwardable(preflight: Value) { FitsInList(preflight) && Nodes(preflight) <= PREFLIGHT_ROOM }

  lemma {:induction false} ForwardIff(persisted: Value, writer: Value, preflight: Value)
    requires Nodes(persisted) == ATTESTED_NODES && Nodes(writer) == WRITER_NODES
    ensures SafeInput(List([persisted, writer, preflight])) <==>
            FitsInList(persisted) && FitsInList(writer) && Forwardable(preflight)
  {
    var items := [persisted, writer, preflight];
    ThreeNodes(persisted, writer, preflight);
    InputsAreSafe(items);
    assert items[0] == persisted && items[1] == writer && items[2] == preflight;
  }

  // ----------------------------------------------------- what the preflight issues

  predicate IsPreflightLeaf(k: Key) { PF.InPreflight(k) && k != BLOCKERS && k != SCOPE }

  predicate IsPreflightFlag(k: Key) {
    COMMAND_GENERATED <= k <= OWNER_SIGNATURE_VERIFIED || CEREMONY_ELIGIBLE <= k <= CUSTOMER_VISIBLE || IsAuthority(k)
  }

  lemma {:induction false} VerdictFlags(trusted: ScopeTriple, persisted: Value, writer: Value, row: Value, k: Key)
    requires IsPreflightFlag(k)
    ensures PF.PreflightField(trusted, persisted, writer, row, k).Bool?
  {
  }

  lemma {:induction false} VerdictHeads(trusted: ScopeTriple, persisted: Value, writer: Value, row: Value)
    ensures PF.PreflightField(trusted, persisted, writer, row, SCHEMA) == Text(PreflightSchema)
    ensures PF.PreflightField(trusted, persisted, writer, row, STATE) == Text(ReadyForCeremony)
    ensures PF.PreflightField(trusted, persisted, writer, row, BLOCKERS) == List([])
    ensures PF.PreflightField(trusted, persisted, writer, row, SCOPE)
         == Dict(map f: Key | OWNER_ID <= f <= WORKSPACE_ID :: PF.ScopeField(trusted, f))
  {
  }

  lemma {:induction false} FlagFits(k: Key, v: Value)
    requires IsPreflightFlag(k) && v.Bool?
    ensures Fits(k, v, 10)
  {
  }

  lemma {:induction false} DigestFits(k: Key, v: Value)
    requires IsPreflightDigest(k) && v.Sha?
    ensures Fits(k, v, 10)
  {
  }

  lemma {:induction false} PreflightNodes(r: Value)
    requires r.Dict? && forall k: Key :: k in r.fields <==> PF.InPreflight(k)
    requires forall k: Key | IsPreflightLeaf(k) :: IsLeaf(r.fields[k])
    requires Nodes(Get(r, BLOCKERS)) == 1 && Nodes(Get(r, SCOPE)) == 4
    ensures Nodes(r) <= PREFLIGHT_ROOM
  {
    SomeBetween(r, 0, 2);
    OneBetween(r, BLOCKERS);
    OneBetween(r, SCOPE);
    SomeBetween(r, 4, KEYS);
  }

  lemma {:induction false} IssuedSubject(r: Value, k: Key)
    requires FixedSubject(r) && IsSubject(k)
    ensures IsLeaf(Get(r, k)) && (HarmlessSubject(r) ==> Fits(k, Get(r, k), 10))
  {
    FixedSubjectIsText(r);
    SubjectIsTyped(k, Get(r, k));
    if HarmlessSubject(r) { LeafFits(k, Get(r, k), 10); }
  }

  lemma {:induction false} HeadFits(k: Key, v: Value)
    requires k <= STATE && v.Text?
    ensures Fits(k, v, 10) && IsLeaf(v)
  {
  }

  /** A field of a preflight by its kind, `v` being its value. */
  predicate IssuedField(r: Value, k: Key, v: Value) {
    && (IsSubject(k) || IsPreflightDigest(k) ==> v == Get(r, k)) && (IsPreflightFlag(k) ==> v.Bool?)
    && (k <= STATE ==> v.Text?)
  }

  lemma {:induction false} IssuedLeafFits(r: Value, k: Key, v: Value)
    requires FixedSubject(r) && (forall f: Key | IsPreflightDigest(f) :: Get(r, f).Sha?)
    requires IsPreflightLeaf(k) && IssuedField(r, k, v)
    ensures IsLeaf(v) && (HarmlessSubject(r) ==> Fits(k, v, 10))
  {
    if IsSubject(k) {
      IssuedSubject(r, k);
    } else if IsPreflightDigest(k) {
      DigestFits(k, v);
    } else if IsPreflightFlag(k) {
      FlagFits(k, v);
    } else {
      HeadFits(k, v);
    }
  }

  lemma {:induction false} IssuedLeaves(r: Value, field: Key -> Value)
    requires FixedSubject(r) && (forall k: Key | IsPreflightDigest(k) :: Get(r, k).Sha?)
    requires forall k: Key | IsPreflightLeaf(k) :: IssuedField(r, k, field(k))
    ensures forall k: Key | IsPreflightLeaf(k) :: IsLeaf(field(k)) && (HarmlessSubject(r) ==> Fits(k, field(k), 10))
  {
    forall k: Key | IsPreflightLeaf(k)
      ensures IsLeaf(field(k)) && (HarmlessSubject(r) ==> Fits(k, field(k), 10))
    {
      IssuedLeafFits(r, k, field(k));
    }
  }

  lemma {:induction false} HarmlessIsSubject(r: Value)
    requires Harmless(r)
    ensures HarmlessSubject(r)
  {
    forall k: Key | IsSubject(k) ensures Harmless(Get(r, k)) { HarmlessField(r, k); }
  }

  /** A preflight as the gate issues it, from its fields. */
  lemma {:induction false} IssuedFits(r: Value, field: Key -> Value)
    requires r.Dict? && (forall k: Key :: k in r.fields <==> PF.InPreflight(k))
    requires forall k: Key | PF.InPreflight(k) :: r.fields[k] == Get(r, k) == field(k)
    requires forall k: Key | IsPreflightLeaf(k) :: IsLeaf(field(k)) && (HarmlessSubject(r) ==> Fits(k, field(k), 10))
    requires field(BLOCKERS) == List([]) && Nodes(field(SCOPE)) == 4 && (HarmlessSubject(r) ==> Fits(SCOPE, field(SCOPE), 10))
    ensures Forwardable(r) <==> HarmlessSubject(r)
  {
    NoBlockersFit(10);
    PreflightNodes(r);
    if HarmlessSubject(r) { FilledFits(r, PF.InPreflight, field, 11); }
    if Forwardable(r) { HarmlessIsSubject(r); }
  }

  /** Every clean preflight that the gate issues may be forwarded if and only if its scope
      and identities are harmless texts. */
  lemma {:induction false} EvaluatedIsForwardable(
    trustedScope: Value, persisted: Value, writer: Value, original: Value, row: Value, now: Value)
    requires PF.Evaluate(trustedScope, persisted, writer, original, row, now).Some?
    requires CleanPreflight(PF.Evaluate(trustedScope, persisted, writer, original, row, now).value)
    ensures var r := PF.Evaluate(trustedScope, persisted, writer, original, row, now).value;
            Forwardable(r) <==> HarmlessSubject(r)
  {
    PF.ReadyFacts(trustedScope, persisted, writer, original, row, now);
    VerdictIsForwardable(ScopeOf(trustedScope), persisted, writer, row);
  }

  lemma {:induction false} VerdictFields(
    trusted: ScopeTriple, persisted: Value, writer: Value, row: Value, field: Key -> Value)
    requires field == (k => PF.PreflightField(trusted, persisted, writer, row, k))
    ensures forall k: Key | IsPreflightLeaf(k) :: IssuedField(PF.Verdict(trusted, persisted, writer, row), k, field(k))
  {
    var r := PF.Verdict(trusted, persisted, writer, row);
    PF.VerdictIsFilled(trusted, persisted, writer, row, field);
    VerdictHeads(trusted, persisted, writer, row);
    forall k: Key | IsPreflightLeaf(k)
      ensures IssuedField(r, k, field(k))
    {
      if IsPreflightFlag(k) { VerdictFlags(trusted, persisted, writer, row, k); }
      assert k <= STATE ==> k == SCHEMA || k == STATE;
    }
  }

  lemma {:induction false} VerdictScopeFits(trusted: ScopeTriple, persisted: Value, writer: Value, row: Value)
    requires FixedSubject(PF.Verdict(trusted, persisted, writer, row))
    ensures var scope := PF.PreflightField(trusted, persisted, writer, row, SCOPE);
            Nodes(scope) == 4 && (HarmlessSubject(PF.Verdict(trusted, persisted, writer, row)) ==> Fits(SCOPE, scope, 10))
  {
    var r := PF.Verdict(trusted, persisted, writer, row);
    VerdictHeads(trusted, persisted, writer, row);
    PF.VerdictSubject(trusted, persisted, writer, row);
    assert (map f: Key | OWNER_ID <= f <= WORKSPACE_ID :: PF.ScopeField(trusted, f))
        == (map f: Key | OWNER_ID <= f <= WORKSPACE_ID :: Get(r, f));
    ScopeFieldFits(r);
  }

  lemma {:induction false} CleanIsFormed(r: Value)
    requires CleanPreflight(r)
    ensures FixedSubject(r) && forall k: Key | IsPreflightDigest(k) :: Get(r, k).Sha?
  {
  }

  lemma {:induction false} VerdictIsForwardable(trusted: ScopeTriple, persisted: Value, writer: Value, row: Value)
    requires CleanPreflight(PF.Verdict(trusted, persisted, writer, row))
    ensures var r := PF.Verdict(trusted, persisted, writer, row); Forwardable(r) <==> HarmlessSubject(r)
  {
    var r, field := PF.Verdict(trusted, persisted, writer, row),
                    (k: Key) => PF.PreflightField(trusted, persisted, writer, row, k);
    CleanIsFormed(r);
    PF.VerdictIsFilled(trusted, persisted, writer, row, field);
    VerdictHeads(trusted, persisted, writer, row);
    VerdictFields(trusted, persisted, writer, row, field);
    IssuedLeaves(r, field);
    VerdictScopeFits(trusted, persisted, writer, row);
    IssuedFits(r, field);
  }
}
