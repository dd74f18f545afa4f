/** The input guard of the V2 chain, `safe_input_v2`: the bounds and text rules of
    `safe_copy`, then a walk that checks types by key.  `SafeCopy` models the copier itself
    on arbitrary Python values; here its verdict is stated on the records of the pipeline. */
module InputGuard {
  import opened Records
  import S = SafeCopy

  const KEYS := 300

  // ------------------------------------------------------------------- safe_copy

  /** The number of nodes, one for the value itself. */
  function Nodes(v: Value): nat
    decreases v, 1, 0
  {
    match v
    case Dict(_) => NodesBelow(v, KEYS)
    case List(items) => NodesIn(v, |items|)
    case _ => 1
  }

  /** One for the dictionary itself plus all nodes under its keys below `n`. */
  function NodesBelow(v: Value, n: nat): nat
    requires v.Dict? && n <= KEYS
    decreases v, 0, n
  {
    if n == 0 then 1
    else NodesBelow(v, n - 1) + if (n - 1) as Key in v.fields then Nodes(v.fields[(n - 1) as Key]) else 0
  }

  function NodesIn(v: Value, n: nat): nat
    requires v.List? && n <= |v.items|
    decreases v, 0, n
  {
    if n == 0 then 1 else NodesIn(v, n - 1) + Nodes(v.items[n - 1])
  }

  /** No node lies more than `room` levels below `v`. */
  predicate Shallow(v: Value, room: int)
    decreases v
  {
    && 0 <= room
    && match v
       case Dict(fields) => forall k: Key | k in fields :: Shallow(fields[k], room - 1)
       case List(items) => forall i | 0 <= i < |items| :: Shallow(items[i], room - 1)
       case _ => true
  }

  /** Free texts are safe and integers bounded, at every depth.  The texts that the program
      spells or derives itself are safe, and so are its keys. */
  predicate Harmless(v: Value)
    decreases v
  {
    match v
    case Str(s) => S.SafeText(s)
    case Int(n) => -S.MAX_INT <= n <= S.MAX_INT
    case Real(_) => false
    case PublicKey(_) => false
    case Dict(fields) => forall k: Key | k in fields :: Harmless(fields[k])
    case List(items) => forall i | 0 <= i < |items| :: Harmless(items[i])
    case _ => true
  }

  // -------------------------------------------------------------------- the walk

  /** The keys under which the walk insists on a text, by their names or by the endings
      `_id`, `_digest` and `_ref`. */
  predicate IsTextKey(k: Key) {
    || k <= STATE || k == EXECUTION_DECISION || OWNER_ID <= k <= REVIEW_TYPE
    || ACTION_RECORD_DIGEST <= k <= CEREMONY_ID || k == KEY_ID || k == EXPIRES_AT
    || k == CHECKPOINT_STATE_DIGEST || EXPECTED_STATE_DIGEST <= k <= RECOMMENDED_EVENT_ID || k == STATUS
    || PERSISTED_AT <= k <= BEFORE_CHECKPOINT_DIGEST || EVENT_ID <= k <= RECEIPT_DIGEST
    || k == WRITER_KEY_ID || k == WRITER_REQUEST_DIGEST || OPERATION_KIND <= k <= INTENT_WRITER_REQUEST_DIGEST
    || COMMAND_PLAN_DIGEST <= k <= OPERATION_KIND_SOURCE || k == PREVIOUS_DIGEST || BASE_DIGEST <= k <= STATE_DIGEST
    || STATEMENT_ID <= k <= SUBJECT_ID || k == POLICY_ID || k == COMMAND_PLAN_SCHEMA || k == ADAPTER_PLAN_DIGEST
    || ADAPTER_KIND <= k <= PROVIDER_CLASS || k == IDEMPOTENCY_KEY_DIGEST || k == ENVIRONMENT_DIGEST
    || k == ROLLBACK_PLAN_DIGEST || k == HARDENING_DIGEST || AS_OF <= k <= ROLLBACK_STATE
    || SNAPSHOT_STATE_DIGEST <= k <= SERVICE_STATE || DRY_RUN_DIGEST <= k <= CONTRACT_VERSION
    || BEFORE_STATE_DIGEST <= k <= AFTER_STATE_DIGEST || PROVIDER_SNAPSHOT_DIGEST <= k <= OBSERVED_AT
    || TIMESTAMP <= k <= OWNER_AUTHORIZATION_DIGEST || CONTRACT_DIGEST <= k <= PREFLIGHT_DIGEST
    || SERVICE_HEALTH_DIGEST <= k <= CUSTOMER_SAFE_PROJECTION_DIGEST
  }

  /** The keys under which it insists on an integer; no other integer is allowed. */
  predicate IsIntegerKey(k: Key) {
    || k == CHECKPOINT_REVISION || k == WRITER_KEY_VERSION || k == FINOPS_CAP_CENTS || k == FINOPS_MONTHLY_CENTS
    || k == STAGING_REVISION || k == ROLLBACK_TIMEOUT_SECONDS
  }

  predicate IsTextValue(v: Value) { v.Str? || v.Text? || v.Stamp? || v.Sha? || v.DerivedId? }

  predicate IsBindingDigest(k: Key) {
    || k == ACTION_PARAMETERS_DIGEST || EXECUTION_PREFLIGHT_DIGEST <= k <= EXECUTION_RECORD_DIGEST
    || k == INTENT_WRITER_REQUEST_DIGEST || k == COMMAND_PLAN_DIGEST
  }

  predicate InBinding(k: Key) { k == SCOPE || IsIdentity(k) || k == OPERATION_KIND || IsBindingDigest(k) }

  /** What the walk asks of a value because of its key. */
  predicate Typed(k: Key, v: Value) {
    && (IsTextKey(k) ==> IsTextValue(v)) && (IsIntegerKey(k) <==> v.Int?)
    && (k == SCOPE ==> v.Dict? && forall f: Key :: f in v.fields <==> IsScopeField(f))
    && (k == BINDING ==> v.Dict? && forall f: Key :: f in v.fields <==> InBinding(f))
  }

  /** The walk below a value; `Key` has none of the forbidden names. */
  predicate TypedInside(v: Value)
    decreases v
  {
    match v
    case Dict(fields) => forall k: Key | k in fields :: Typed(k, fields[k]) && TypedInside(fields[k])
    case List(items) => forall i | 0 <= i < |items| :: !items[i].Int? && TypedInside(items[i])
    case _ => true
  }

  // ------------------------------------------------------------------- the guard

  /** `safe_input_v2` accepts the value (and then returns it unchanged). */
  predicate SafeInput(v: Value) {
    Nodes(v) <= S.MAX_NODES && Shallow(v, S.MAX_DEPTH) && Harmless(v) && !v.Int? && TypedInside(v)
  }

  /** What is left to check of a value below a key, when `room` levels may follow it. */
  predicate Fits(k: Key, v: Value, room: int) {
    Shallow(v, room) && Harmless(v) && Typed(k, v) && TypedInside(v)
  }

  lemma {:induction false} LeafFits(k: Key, v: Value, room: nat)
    requires IsLeaf(v) && Harmless(v) && Typed(k, v)
    ensures Fits(k, v, room)
  {
  }

  /** A dictionary is in order when all its fields are. */
  lemma {:induction false} DictFits(v: Value, room: nat)
    requires v.Dict? && forall k: Key | k in v.fields :: Fits(k, v.fields[k], room - 1)
    ensures Shallow(v, room) && Harmless(v) && TypedInside(v)
  {
  }

  /** The same for a dictionary that a function fills in. */
  lemma {:induction false} FilledFits(v: Value, has: Key -> bool, field: Key -> Value, room: nat)
    requires v.Dict? && forall k: Key :: k in v.fields ==> has(k) && v.fields[k] == field(k)
    requires forall k: Key | has(k) :: Fits(k, field(k), room - 1)
    ensures Shallow(v, room) && Harmless(v) && TypedInside(v)
  {
    DictFits(v, room);
  }

  lemma {:induction false} ListFits(v: Value, room: nat)
    requires v.List?
    requires forall i | 0 <= i < |v.items| ::
               Shallow(v.items[i], room - 1) && Harmless(v.items[i]) && !v.items[i].Int? && TypedInside(v.items[i])
    ensures Shallow(v, room) && Harmless(v) && TypedInside(v)
  {
  }

  lemma {:induction false} Deeper(v: Value, room: int, more: int)
    requires Shallow(v, room) && room <= more
    ensures Shallow(v, more)
    decreases v
  {
    match v
    case Dict(fields) =>
      forall k: Key | k in fields ensures Shallow(fields[k], more - 1) { Deeper(fields[k], room - 1, more - 1); }
    case List(items) =>
      forall i | 0 <= i < |items| ensures Shallow(items[i], more - 1) { Deeper(items[i], room - 1, more - 1); }
    case _ =>
  }

  // ------------------------------------------------------------------ counting nodes

  predicate IsLeaf(v: Value) { !v.Dict? && !v.List? }

  /** Keys that are absent add nothing. */
  lemma {:induction false} NoneBetween(v: Value, lo: nat, hi: nat)
    requires v.Dict? && lo <= hi <= KEYS && forall k: Key | lo <= k as int < hi :: k !in v.fields
    ensures NodesBelow(v, hi) == NodesBelow(v, lo)
    decreases hi
  {
    if lo < hi {
      NoneBetween(v, lo, hi - 1);
      assert (hi - 1) as Key !in v.fields;
    }
  }

  /** Keys that all hold leaves add one each. */
  lemma {:induction false} LeavesBetween(v: Value, lo: nat, hi: nat)
    requires v.Dict? && lo <= hi <= KEYS
    requires forall k: Key | lo <= k as int < hi :: k in v.fields && IsLeaf(v.fields[k])
    ensures NodesBelow(v, hi) == NodesBelow(v, lo) + (hi - lo)
    decreases hi
  {
    if lo < hi {
      LeavesBetween(v, lo, hi - 1);
      var k := (hi - 1) as Key;
      assert k in v.fields && IsLeaf(v.fields[k]);
    }
  }

  /** Keys that hold leaves, if anything, add at most one each. */
  lemma {:induction false} SomeBetween(v: Value, lo: nat, hi: nat)
    requires v.Dict? && lo <= hi <= KEYS
    requires forall k: Key | lo <= k as int < hi && k in v.fields :: IsLeaf(v.fields[k])
    ensures NodesBelow(v, hi) <= NodesBelow(v, lo) + (hi - lo)
    decreases hi
  {
    if lo < hi {
      SomeBetween(v, lo, hi - 1);
      var k := (hi - 1) as Key;
      assert k in v.fields ==> IsLeaf(v.fields[k]);
    }
  }

  lemma {:induction false} OneBetween(v: Value, k: Key)
    requires v.Dict? && k in v.fields
    ensures NodesBelow(v, k as int + 1) == NodesBelow(v, k as int) + Nodes(v.fields[k])
  {
  }

  lemma {:induction false} LeafListNodes(v: Value, n: nat)
    requires v.List? && n <= |v.items| && forall i | 0 <= i < n :: IsLeaf(v.items[i])
    ensures NodesIn(v, n) == 1 + n
  {
    if n > 0 { LeafListNodes(v, n - 1); }
  }

  /** A harmless list of texts under a key that asks for nothing else. */
  lemma {:induction false} LeafListFits(k: Key, v: Value, room: nat)
    requires v.List? && Harmless(v) && room >= 1 && forall i | 0 <= i < |v.items| :: IsLeaf(v.items[i]) && !v.items[i].Int?
    requires !IsTextKey(k) && !IsIntegerKey(k) && k != SCOPE && k != BINDING
    ensures Fits(k, v, room) && Nodes(v) == 1 + |v.items|
  {
    LeafListNodes(v, |v.items|);
  }

  /** An input that may stand in a list of inputs. */
  predicate FitsInList(v: Value) { Shallow(v, S.MAX_DEPTH - 1) && Harmless(v) && !v.Int? && TypedInside(v) }

  lemma {:induction false} InListIsSafe(v: Value)
    requires FitsInList(v) && Nodes(v) <= S.MAX_NODES
    ensures SafeInput(v)
  {
    Deeper(v, S.MAX_DEPTH - 1, S.MAX_DEPTH);
  }

  /** A list of inputs is safe when each fits and they are not too many nodes together. */
  lemma {:induction false} InputsAreSafe(items: seq<Value>)
    ensures SafeInput(List(items)) <==>
            NodesIn(List(items), |items|) <= S.MAX_NODES && forall i | 0 <= i < |items| :: FitsInList(items[i])
  {
  }

  lemma {:induction false} ThreeNodes(a: Value, b: Value, c: Value)
    ensures NodesIn(List([a, b, c]), 3) == 1 + Nodes(a) + Nodes(b) + Nodes(c)
  {
    var v := List([a, b, c]);
    assert NodesIn(v, 1) == 1 + Nodes(a) && NodesIn(v, 2) == NodesIn(v, 1) + Nodes(b);
  }

  lemma {:induction false} SixNodes(a: Value, b: Value, c: Value, d: Value, e: Value, f: Value)
    ensures NodesIn(List([a, b, c, d, e, f]), 6) == 1 + Nodes(a) + Nodes(b) + Nodes(c) + Nodes(d) + Nodes(e) + Nodes(f)
  {
    var v := List([a, b, c, d, e, f]);
    assert NodesIn(v, 1) == 1 + Nodes(a) && NodesIn(v, 2) == NodesIn(v, 1) + Nodes(b);
    assert NodesIn(v, 3) == NodesIn(v, 2) + Nodes(c) && NodesIn(v, 4) == NodesIn(v, 3) + Nodes(d);
    assert NodesIn(v, 5) == NodesIn(v, 4) + Nodes(e);
  }

  lemma {:induction false} ScopeNodes(scope: Value)
    requires scope.Dict? && forall k: Key :: k in scope.fields <==> IsScopeField(k)
    requires forall k: Key | IsScopeField(k) :: IsLeaf(scope.fields[k])
    ensures Nodes(scope) == 4
  {
    NoneBetween(scope, 0, 10);
    LeavesBetween(scope, 10, 13);
    NoneBetween(scope, 13, KEYS);
  }

  lemma {:induction false} HarmlessField(row: Value, k: Key)
    requires Harmless(row)
    ensures Harmless(Get(row, k))
  {
  }

  // ---------------------------------------------------- the guard is the copier's

  /** How the records are written as Python values: the names of the keys and the texts
      that the program spells or derives. */
  datatype Spelling = Spelling(name: Key -> string, text: Value -> string)

  predicate IsProgramText(v: Value) { v.Text? || v.Stamp? || v.Sha? || v.DerivedId? }

  /** The names and texts of the program are themselves acceptable. */
  ghost predicate Proper(sp: Spelling) {
    && (forall k: Key :: S.SafeKey(S.StrKey(sp.name(k))))
    && (forall v: Value | IsProgramText(v) :: S.SafeText(sp.text(v)))
  }

  function Written(sp: Spelling, v: Value): S.Json
    decreases v, 1, 0
  {
    match v
    case Null => S.Null
    case Bool(flag) => S.Bool(flag)
    case Int(n) => S.Int(n)
    case Str(s) => S.Str(s)
    case Dict(_) => S.Dict(Entries(sp, v, KEYS))
    case List(items) => S.List(Items(sp, v, |items|))
    case Real(_) => S.Other
    case PublicKey(_) => S.Other
    case _ => S.Str(sp.text(v))
  }

  function Entries(sp: Spelling, v: Value, n: nat): seq<S.Entry>
    requires v.Dict? && n <= KEYS
    decreases v, 0, n
  {
    if n == 0 then []
    else
      var k := (n - 1) as Key;
      Entries(sp, v, n - 1) + if k in v.fields then [S.Entry(S.StrKey(sp.name(k)), Written(sp, v.fields[k]))] else []
  }

  function Items(sp: Spelling, v: Value, n: nat): (items: seq<S.Json>)
    requires v.List? && n <= |v.items|
    ensures |items| == n && forall i | 0 <= i < n :: items[i] == Written(sp, v.items[i])
    decreases v, 0, n
  {
    if n == 0 then [] else Items(sp, v, n - 1) + [Written(sp, v.items[n - 1])]
  }

  /** A property of the values under the keys below `n` is one of the first entries. */
  ghost predicate SameEntries(sp: Spelling, v: Value, n: nat, P: S.Json -> bool)
    requires v.Dict? && n <= KEYS
  {
    (forall i | 0 <= i < |Entries(sp, v, n)| :: P(Entries(sp, v, n)[i].child)) <==>
    (forall k: Key | k as int < n && k in v.fields :: P(Written(sp, v.fields[k])))
  }

  lemma {:induction false} EntriesHold(sp: Spelling, v: Value, n: nat, P: S.Json -> bool)
    requires v.Dict? && n <= KEYS
    ensures SameEntries(sp, v, n, P)
  {
    if n > 0 {
      EntriesHold(sp, v, n - 1, P);
      var k, before, all := (n - 1) as Key, Entries(sp, v, n - 1), Entries(sp, v, n);
      assert forall i | 0 <= i < |before| :: all[i] == before[i];
      if k in v.fields { assert all[|before|].child == Written(sp, v.fields[k]); }
      assert forall f: Key | f as int < n && f in v.fields && f != k :: f as int < n - 1;
    }
  }

  lemma {:induction false} EntriesAreNamed(sp: Spelling, v: Value, n: nat)
    requires Proper(sp) && v.Dict? && n <= KEYS
    ensures S.KeysSafe(Entries(sp, v, n), |Entries(sp, v, n)|)
  {
    if n > 0 { EntriesAreNamed(sp, v, n - 1); }
  }

  lemma {:induction false} ChildrenAreEntries(entries: seq<S.Entry>)
    ensures forall i | 0 <= i < |entries| :: S.Child(S.Dict(entries), i) == entries[i].child
  {
  }

  lemma {:induction false} ChildrenAreItems(sp: Spelling, v: Value)
    requires v.List?
    ensures Written(sp, v).List? && S.Arity(Written(sp, v)) == |v.items|
    ensures forall i | 0 <= i < |v.items| :: S.Child(Written(sp, v), i) == Written(sp, v.items[i])
  {
  }

  lemma {:induction false} ShallowAgrees(sp: Spelling, v: Value, room: int)
    ensures S.Shallow(Written(sp, v), room) <==> Shallow(v, room)
    decreases v
  {
    match v
    case Dict(fields) =>
      forall k: Key | k in fields
        ensures S.Shallow(Written(sp, fields[k]), room - 1) <==> Shallow(fields[k], room - 1)
      {
        ShallowAgrees(sp, fields[k], room - 1);
      }
      EntriesHold(sp, v, KEYS, child => S.Shallow(child, room - 1));
      ChildrenAreEntries(Entries(sp, v, KEYS));
    case List(items) =>
      forall i | 0 <= i < |items|
        ensures S.Shallow(Written(sp, items[i]), room - 1) <==> Shallow(items[i], room - 1)
      {
        ShallowAgrees(sp, items[i], room - 1);
      }
      ChildrenAreItems(sp, v);
    case _ =>
  }

  lemma {:induction false} HarmlessAgrees(sp: Spelling, v: Value)
    requires Proper(sp)
    ensures S.Allowed(Written(sp, v)) <==> Harmless(v)
    decreases v
  {
    match v
    case Dict(fields) =>
      forall k: Key | k in fields
        ensures S.Allowed(Written(sp, fields[k])) <==> Harmless(fields[k])
      {
        HarmlessAgrees(sp, fields[k]);
      }
      EntriesHold(sp, v, KEYS, child => S.Allowed(child));
      ChildrenAreEntries(Entries(sp, v, KEYS));
      EntriesAreNamed(sp, v, KEYS);
    case List(items) =>
      forall i | 0 <= i < |items|
        ensures S.Allowed(Written(sp, items[i])) <==> Harmless(items[i])
      {
        HarmlessAgrees(sp, items[i]);
      }
      ChildrenAreItems(sp, v);
    case _ =>
  }

  lemma {:induction false} NodesAgree(sp: Spelling, v: Value)
    ensures S.Nodes(Written(sp, v)) == Nodes(v)
    decreases v, 1, 0
  {
    match v
    case Dict(_) => NodesBelowAgree(sp, v, KEYS);
    case List(items) => NodesInAgree(sp, v, |items|);
    case _ =>
  }

  /** The first entries of the whole dictionary are its entries below `n`. */
  lemma {:induction false} EntriesExtend(sp: Spelling, v: Value, n: nat, m: nat)
    requires v.Dict? && n <= m <= KEYS
    ensures |Entries(sp, v, n)| <= |Entries(sp, v, m)|
    ensures Entries(sp, v, n) == Entries(sp, v, m)[..|Entries(sp, v, n)|]
    decreases m
  {
    if n < m { EntriesExtend(sp, v, n, m - 1); }
  }

  lemma {:induction false} NodesBelowAgree(sp: Spelling, v: Value, n: nat)
    requires v.Dict? && n <= KEYS
    ensures |Entries(sp, v, n)| <= |Entries(sp, v, KEYS)|
    ensures S.NodesUpTo(S.Dict(Entries(sp, v, KEYS)), |Entries(sp, v, n)|) == NodesBelow(v, n)
    decreases v, 0, n
  {
    EntriesExtend(sp, v, n, KEYS);
    if n > 0 {
      var k := (n - 1) as Key;
      NodesBelowAgree(sp, v, n - 1);
      if k in v.fields {
        var item, at := S.Dict(Entries(sp, v, KEYS)), |Entries(sp, v, n - 1)|;
        NodesAgree(sp, v.fields[k]);
        assert item.entries[at] == Entries(sp, v, n)[at];
        assert S.Child(item, at) == Written(sp, v.fields[k]);
      }
    }
  }

  lemma {:induction false} NodesInAgree(sp: Spelling, v: Value, n: nat)
    requires v.List? && n <= |v.items|
    ensures S.NodesUpTo(S.List(Items(sp, v, |v.items|)), n) == NodesIn(v, n)
    decreases v, 0, n
  {
    if n > 0 {
      NodesInAgree(sp, v, n - 1);
      NodesAgree(sp, v.items[n - 1]);
    }
  }

  /** On the records of the pipeline the first half of the guard is exactly the verdict of
      `safe_copy`, however the program spells its keys and texts. */
  lemma {:induction false} GuardCopies(sp: Spelling, v: Value)
    requires Proper(sp)
    ensures S.Acceptable(Written(sp, v), S.MAX_DEPTH, S.MAX_NODES) <==>
            Nodes(v) <= S.MAX_NODES && Shallow(v, S.MAX_DEPTH) && Harmless(v)
  {
    NodesAgree(sp, v);
    ShallowAgrees(sp, v, S.MAX_DEPTH);
    HarmlessAgrees(sp, v);
  }
}
