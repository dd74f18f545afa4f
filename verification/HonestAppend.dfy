/** Honest runs, second half of the checkpoint: a planned record can be appended, and the
    append is then attested. */
module HonestAppend {
  import opened Wrappers
  import opened Records
  import opened Checkpoints
  import opened PersistencePlan
  import opened PersistenceAttestation
  import opened Lineage
  import opened HonestPlan
  import CP = CommandPlan
  import EC = ExecutionCeremony
  import WA = WriterAttestation

  // ------------------------------------------------------------ appending a record

  /** A value without parts. */
  predicate Atomic(v: Value) { !v.Dict? && !v.List? && v != Null }

  /** What one field of a flat record must be. */
  predicate PlainField(k: Key, v: Value) {
    && Atomic(v) && !(k == EXTERNAL_ACTION_EXECUTED && v == Bool(true))
    && ((k == STATE || k == STATUS) ==> !SaysExecuted(v))
  }

  /** A flat record that neither sets an unsafe flag nor claims an execution. */
  predicate Plain(fields: map<Key, Value>) {
    forall k: Key | k in fields :: PlainField(k, fields[k])
  }

  lemma {:induction false} PlainIsSafe(fields: map<Key, Value>, depth: nat)
    requires Plain(fields) && depth < MAX_DEPTH
    ensures Safe(Dict(fields), depth)
  {
  }

  lemma {:induction false} MergeReplaces(existing: map<Key, Value>, fields: map<Key, Value>)
    requires Plain(fields) && existing.Keys <= fields.Keys
    ensures Merge(existing, fields) == fields
  {
    forall k: Key
      ensures k in Merge(existing, fields) <==> k in fields
      ensures k in fields ==> Merge(existing, fields)[k] == fields[k]
    {
    }
  }

  lemma {:induction false} NoSelfPromotion(v: Value)
    ensures !Promotes(v, v)
    decreases v
  {
    match v
    case Dict(fields) =>
      forall k: Key | k in fields
        ensures !Promotes(Get(v, k), fields[k])
      {
        NoSelfPromotion(fields[k]);
      }
    case List(items) =>
      forall i | 0 <= i < |items|
        ensures !Promotes(items[i], items[i])
      {
        NoSelfPromotion(items[i]);
      }
    case _ =>
  }

  lemma {:induction false} PlainPromotesNothing(before: Value, fields: map<Key, Value>)
    requires Plain(fields)
    ensures !Promotes(before, Dict(fields))
  {
    forall k: Key | k in fields
      ensures !Promotes(Get(before, k), fields[k])
    {
    }
  }

  /** The namespace is free for the record: empty, or holding no field that the record
      would leave behind. */
  predicate RoomFor(snapshot: map<Key, Value>, fields: map<Key, Value>) {
    var existing := Get(Dict(snapshot), EXECUTION_NAMESPACE);
    existing.Dict? ==> existing.fields.Keys <= fields.Keys
  }

  lemma {:induction false} RecordReplaces(snapshot: map<Key, Value>, fields: map<Key, Value>)
    requires Plain(fields) && RoomFor(snapshot, fields)
    ensures Merge(snapshot, map[EXECUTION_NAMESPACE := Dict(fields)]) == snapshot[EXECUTION_NAMESPACE := Dict(fields)]
  {
    var existing := Get(Dict(snapshot), EXECUTION_NAMESPACE);
    MergeReplaces(if existing.Dict? then existing.fields else map[], fields);
    assert MergeValue(existing, Dict(fields)) == Dict(fields);
  }

  lemma {:induction false} RecordIsSafe(snapshot: map<Key, Value>, fields: map<Key, Value>)
    requires Plain(fields) && Safe(Dict(snapshot), 0)
    ensures Safe(Dict(map[EXECUTION_NAMESPACE := Dict(fields)]), 0)
    ensures Safe(Dict(snapshot[EXECUTION_NAMESPACE := Dict(fields)]), 0)
  {
    PlainIsSafe(fields, 1);
  }

  lemma {:induction false} RecordPromotesNothing(snapshot: map<Key, Value>, fields: map<Key, Value>)
    requires Plain(fields)
    ensures !Promotes(Dict(snapshot), Dict(snapshot[EXECUTION_NAMESPACE := Dict(fields)]))
  {
    var next := snapshot[EXECUTION_NAMESPACE := Dict(fields)];
    forall k: Key | k in next
      ensures !Promotes(Get(Dict(snapshot), k), next[k])
    {
      if k == EXECUTION_NAMESPACE {
        PlainPromotesNothing(Get(Dict(snapshot), k), fields);
      } else {
        NoSelfPromotion(snapshot[k]);
      }
    }
  }

  lemma {:induction false} SnapshotIsSafe(m: Master)
    requires Reconstruct(m).Some?
    ensures Safe(Dict(Reconstruct(m).value.snapshot), 0)
  {
  }

  lemma {:induction false} RecordIsAppended(
    m: Master, id: Value, fields: map<Key, Value>, createdAt: Value, clock: Value, refs: seq<Value>)
    requires Reconstruct(m).Some? && Plain(fields) && RoomFor(Reconstruct(m).value.snapshot, fields)
    requires IsEventId(id) && !Known(m.journal, id) && |m.journal| < MAX_EVENTS
    ensures var m' := Append(m, id, Dict(map[EXECUTION_NAMESPACE := Dict(fields)]), m.revision, createdAt, clock, refs);
            m'.Some? && m'.value.stateDigest.Sha?
  {
    var current := Reconstruct(m).value;
    SnapshotIsSafe(m);
    RecordReplaces(current.snapshot, fields);
    RecordIsSafe(current.snapshot, fields);
    RecordPromotesNothing(current.snapshot, fields);
  }

  /** A flat record can be appended to any readable checkpoint with room for it. */
  lemma {:induction false} RecordCanBeAppended(
    m: Master, id: Value, fields: map<Key, Value>, createdAt: Value, clock: Value, refs: seq<Value>)
    returns (m': Master)
    requires Reconstruct(m).Some? && Plain(fields) && RoomFor(Reconstruct(m).value.snapshot, fields)
    requires IsEventId(id) && !Known(m.journal, id) && |m.journal| < MAX_EVENTS
    ensures Append(m, id, Dict(map[EXECUTION_NAMESPACE := Dict(fields)]), m.revision, createdAt, clock, refs) == Some(m')
    ensures Reconstruct(m').Some? && m'.stateDigest.Sha?
    ensures Reconstruct(m').value.snapshot == Reconstruct(m).value.snapshot[EXECUTION_NAMESPACE := Dict(fields)]
  {
    var patch := Dict(map[EXECUTION_NAMESPACE := Dict(fields)]);
    RecordIsAppended(m, id, fields, createdAt, clock, refs);
    m' := Append(m, id, patch, m.revision, createdAt, clock, refs).value;
    AppendIsExact(m, id, patch, m.revision, createdAt, clock, refs);
    RecordReplaces(Reconstruct(m).value.snapshot, fields);
  }

  // ------------------------------------------------------------- the planned record

  lemma {:induction false} PersistedFlagIsPlain(row: Value, k: Key)
    requires InPersisted(k) && RECORD_PERSISTED <= k
    ensures PlainField(k, PersistedField(row, k))
  {
  }

  lemma {:induction false} PersistedSubjectIsPlain(request: Value, k: Key)
    requires CleanRequest(request) && OWNER_ID <= k <= EXECUTION_RECORD_DIGEST && InPersisted(k)
    ensures PlainField(k, PersistedField(EC.VerifiedDecision(request), k))
  {
    DecisionFields(request);
    RecordFields(request);
    if IsIdentity(k) { assert Fixed(Get(request, k), CP.IdentityLimit(k)); }
    if IsScopeField(k) { assert Fixed(Get(request, k), 120); }
    if IsPreflightDigest(k) { assert Get(request, k).Sha?; }
  }

  lemma {:induction false} PersistedHeadIsPlain(request: Value, k: Key)
    requires CleanRequest(request) && k < OWNER_ID && InPersisted(k)
    ensures PlainField(k, PersistedField(EC.VerifiedDecision(request), k))
  {
    HonestDecision(request);
    DecisionFlags(request);
  }

  lemma {:induction false} PersistedFieldIsPlain(request: Value, k: Key)
    requires CleanRequest(request) && InPersisted(k)
    ensures PlainField(k, PersistedField(EC.VerifiedDecision(request), k))
  {
    if RECORD_PERSISTED <= k {
      PersistedFlagIsPlain(EC.VerifiedDecision(request), k);
    } else if OWNER_ID <= k {
      PersistedSubjectIsPlain(request, k);
    } else {
      PersistedHeadIsPlain(request, k);
    }
  }

  lemma {:induction false} PersistedIsPlain(request: Value)
    requires CleanRequest(request)
    ensures Plain(Persisted(EC.VerifiedDecision(request)).fields)
  {
    var fields := Persisted(EC.VerifiedDecision(request)).fields;
    forall k: Key | k in fields
      ensures PlainField(k, fields[k])
    {
      PersistedFieldIsPlain(request, k);
    }
  }
}
