/** Checkpoint Master: a base snapshot and an append-only journal of merge patches, each
    event chained to the one before by its digest. */
module Checkpoints {
  import opened Wrappers
  import opened Records
  import T = Texts

  const MAX_EVENTS := 256
  const MAX_DEPTH := 24

  datatype Event = Event(
    id: Value, sequence: int, baseRevision: int, revision: int, createdAt: Value, patch: Value, patchDigest: Value,
    previous: Value, refs: Value, digest: Value)

  /** `safe` says that no master flag is set; the fields that neither the replay nor the
      digest looks at are left out. */
  datatype Master = Master(
    safe: bool, baseRevision: int, revision: int, base: Value, baseDigest: Value, journal: seq<Event>, head: Value,
    stateDigest: Value, generation: int, sources: Value)

  datatype Current = Current(snapshot: map<Key, Value>, revision: int, stateDigest: Value)

  // ---------------------------------------------------------------------- patches

  /** `_safe_structure` accepts the value. */
  predicate Safe(v: Value, depth: nat)
    decreases v
  {
    depth <= MAX_DEPTH &&
    match v
    case Dict(fields) =>
      forall k: Key | k in fields :: Safe(fields[k], depth + 1) && !(k == EXTERNAL_ACTION_EXECUTED && fields[k] == Bool(true))
    case List(items) => forall i | 0 <= i < |items| :: Safe(items[i], depth + 1)
    case _ => true
  }

  /** `_merge_patch`: a null removes its key, a dictionary is merged, all else replaces. */
  function Merge(target: map<Key, Value>, patch: map<Key, Value>): map<Key, Value>
    decreases Dict(patch), 1
  {
    map k: Key | k in target.Keys + patch.Keys && (k in patch ==> patch[k] != Null) ::
      if k in patch then MergeValue(Get(Dict(target), k), patch[k]) else target[k]
  }

  function MergeValue(existing: Value, value: Value): Value
    decreases value, 2
  {
    if value.Dict? then Dict(Merge(if existing.Dict? then existing.fields else map[], value.fields)) else value
  }

  predicate SaysExecuted(v: Value) { v.Str? && T.Upper(v.s) == "EXECUTED" }

  /** `_reject_replay_execution_promotion` refuses the step. */
  predicate Promotes(before: Value, after: Value)
    decreases after
  {
    match after
    case Dict(fields) =>
      exists k: Key | k in fields ::
        ((k == STATE || k == STATUS) && SaysExecuted(fields[k]) && !SaysExecuted(Get(before, k)))
        || Promotes(Get(before, k), fields[k])
    case List(items) =>
      exists i | 0 <= i < |items| ::
        Promotes(if before.List? && i < |before.items| then before.items[i] else Null, items[i])
    case _ => false
  }

  // -------------------------------------------------------------------- the chain

  /** The hashed fields of an event. */
  function Material(e: Event): Value {
    List([Text(CheckpointEventSchema), e.id, Int(e.sequence), Int(e.baseRevision), Int(e.revision), Text(MergePatch),
          e.createdAt, e.patch, e.patchDigest, e.previous, e.refs])
  }

  /** An event id that is already canonical. */
  predicate IsEventId(id: Value) { Fixed(id, 160) }

  datatype Replay = Replay(state: map<Key, Value>, digest: Value, revision: int)

  predicate Conflicts(journal: seq<Event>, id: Value, patchDigest: Value) {
    exists i | 0 <= i < |journal| :: journal[i].id == id && journal[i].patchDigest != patchDigest
  }

  /** One event continues the chain that `before` ends. */
  predicate Continues(e: Event, journal: seq<Event>, before: Replay) {
    && e.sequence == |journal| + 1 && IsEventId(e.id)
    && e.patch.Dict? && Safe(e.patch, 0) && e.patchDigest == Sha(e.patch)
    && e.previous == before.digest && e.baseRevision == before.revision && e.revision == before.revision + 1
    && e.digest == Sha(Material(e)) && !Conflicts(journal, e.id, e.patchDigest)
    && Safe(Dict(Merge(before.state, e.patch.fields)), 0)
  }

  /** The replay after one event, given the replay before it. */
  function Extended(before: Option<Replay>, rest: seq<Event>, e: Event): Option<Replay> {
    if before.None? || !Continues(e, rest, before.value) then None
    else Some(Replay(Merge(before.value.state, e.patch.fields), e.digest, e.revision))
  }

  function Replayed(base: map<Key, Value>, baseRevision: int, journal: seq<Event>): Option<Replay> {
    if journal == [] then Some(Replay(base, Text(Genesis), baseRevision))
    else
      var rest, e := journal[..|journal| - 1], journal[|journal| - 1];
      Extended(Replayed(base, baseRevision, rest), rest, e)
  }

  /** `reconstruct_checkpoint`, or nothing when the master is refused. */
  function Reconstruct(m: Master): Option<Current> {
    if !m.safe || !m.base.Dict? || !Safe(m.base, 0) || m.baseDigest != Sha(m.base) || |m.journal| > MAX_EVENTS
       || !(0 <= m.baseRevision <= m.revision) then None
    else
      var replay := Replayed(m.base.fields, m.baseRevision, m.journal);
      if replay.None? || replay.value.revision != m.revision || replay.value.digest != m.head
         || m.stateDigest != Sha(Dict(replay.value.state)) then None
      else Some(Current(replay.value.state, m.revision, m.stateDigest))
  }

  function Digests(journal: seq<Event>): (digests: seq<Value>)
    ensures |digests| == |journal|
    ensures forall i | 0 <= i < |journal| :: digests[i] == journal[i].digest
  {
    if journal == [] then [] else Digests(journal[..|journal| - 1]) + [journal[|journal| - 1].digest]
  }

  /** `checkpoint_master_digest`. */
  function MasterDigest(m: Master): Value {
    Sha(List([Text(CheckpointSchema), Int(m.baseRevision), Int(m.revision), m.baseDigest, m.head, m.stateDigest,
              Int(m.generation), m.sources, List(Digests(m.journal))]))
  }

  // ----------------------------------------------------------------------- append

  function NextEvent(m: Master, current: Current, id: Value, patch: Value, createdAt: Value, clock: Value, refs: seq<Value>)
    : Event
  {
    var e := Event(id, |m.journal| + 1, current.revision, current.revision + 1,
                   if Blank(createdAt, 80) then clock else TextOf(createdAt, 80), patch, Sha(patch), m.head,
                   List(DistinctTexts(refs, 300)), Null);
    e.(digest := Sha(Material(e)))
  }

  predicate Known(journal: seq<Event>, id: Value) { exists i | 0 <= i < |journal| :: journal[i].id == id }

  /** `append_checkpoint_patch`: compare-and-set on the revision; `clock` is used only when
      no creation time is given. */
  function Append(
    m: Master, id: Value, patch: Value, expected: int, createdAt: Value, clock: Value, refs: seq<Value>): Option<Master>
  {
    var current := Reconstruct(m);
    if current.None? || expected < 0 || !IsEventId(id) || !patch.Dict? || !Safe(patch, 0) then None
    else if Known(m.journal, id) then (if Conflicts(m.journal, id, Sha(patch)) then None else Some(m))
    else if expected != current.value.revision || |m.journal| >= MAX_EVENTS then None
    else
      var e := NextEvent(m, current.value, id, patch, createdAt, clock, refs);
      var next := Merge(current.value.snapshot, patch.fields);
      if !Safe(Dict(next), 0) || Promotes(Dict(current.value.snapshot), Dict(next)) then None
      else
        Some(m.(safe := true, revision := e.revision, journal := m.journal + [e], head := e.digest,
                stateDigest := Sha(Dict(next))))
  }

  // ------------------------------------------------------------- what is promised

  lemma {:induction false} MergeKeepsOthers(target: map<Key, Value>, patch: map<Key, Value>, k: Key)
    requires k !in patch
    ensures Get(Dict(Merge(target, patch)), k) == Get(Dict(target), k)
  {
  }

  lemma {:induction false} ReplayedChain(base: map<Key, Value>, baseRevision: int, journal: seq<Event>)
    requires Replayed(base, baseRevision, journal).Some?
    ensures forall i | 0 <= i < |journal| :: journal[i].digest == Sha(Material(journal[i]))
    ensures Replayed(base, baseRevision, journal).value.revision == baseRevision + |journal|
    decreases |journal|
  {
    if journal != [] {
      ReplayedChain(base, baseRevision, journal[..|journal| - 1]);
      assert forall i | 0 <= i < |journal| - 1 :: journal[..|journal| - 1][i] == journal[i];
    }
  }

  lemma {:induction false} MaterialDetermines(a: Event, b: Event)
    requires Material(a) == Material(b) && a.digest == b.digest
    ensures a == b
  {
    var x, y := Material(a).items, Material(b).items;
    assert x[1] == y[1] && x[2] == y[2] && x[3] == y[3] && x[4] == y[4];
    assert x[6] == y[6] && x[7] == y[7] && x[8] == y[8] && x[9] == y[9] && x[10] == y[10];
  }

  lemma {:induction false} DigestFields(a: Master, b: Master)
    requires MasterDigest(a) == MasterDigest(b)
    ensures a.baseRevision == b.baseRevision && a.revision == b.revision && a.baseDigest == b.baseDigest
    ensures a.head == b.head && a.stateDigest == b.stateDigest && a.generation == b.generation
    ensures a.sources == b.sources && Digests(a.journal) == Digests(b.journal)
  {
    var x, y := MasterDigest(a).of.items, MasterDigest(b).of.items;
    assert x[1] == y[1] && x[2] == y[2] && x[3] == y[3] && x[4] == y[4] && x[5] == y[5];
    assert x[6] == y[6] && x[7] == y[7] && x[8] == y[8];
  }

  ghost predicate Chained(journal: seq<Event>) {
    forall i | 0 <= i < |journal| :: journal[i].digest == Sha(Material(journal[i]))
  }

  lemma {:induction false} ChainsDetermined(a: seq<Event>, b: seq<Event>)
    requires Chained(a) && Chained(b) && Digests(a) == Digests(b)
    ensures a == b
  {
    assert |Digests(a)| == |Digests(b)|;
    forall i | 0 <= i < |a|
      ensures a[i] == b[i]
    {
      assert Digests(a)[i] == Digests(b)[i];
      MaterialDetermines(a[i], b[i]);
    }
  }

  lemma {:induction false} ReconstructedChain(m: Master)
    requires Reconstruct(m).Some?
    ensures Chained(m.journal) && m.safe && m.baseDigest == Sha(m.base) && m.base.Dict?
    ensures m.revision == m.baseRevision + |m.journal|
  {
    ReplayedChain(m.base.fields, m.baseRevision, m.journal);
  }

  /** The master digest covers only digests, yet two masters that both replay and have
      equal digests are the same master. */
  lemma {:induction false} DigestDetermines(a: Master, b: Master)
    requires Reconstruct(a).Some? && Reconstruct(b).Some? && MasterDigest(a) == MasterDigest(b)
    ensures a == b
  {
    DigestFields(a, b);
    ReconstructedChain(a);
    ReconstructedChain(b);
    ChainsDetermined(a.journal, b.journal);
  }

  lemma {:induction false} ReplayedSnoc(base: map<Key, Value>, baseRevision: int, journal: seq<Event>, e: Event)
    ensures Replayed(base, baseRevision, journal + [e])
         == Extended(Replayed(base, baseRevision, journal), journal, e)
  {
    assert (journal + [e])[..|journal|] == journal;
  }

  lemma {:induction false} NextEventContinues(
    m: Master, current: Current, id: Value, patch: Value, createdAt: Value, clock: Value, refs: seq<Value>)
    requires !Known(m.journal, id) && IsEventId(id) && patch.Dict? && Safe(patch, 0)
    requires Safe(Dict(Merge(current.snapshot, patch.fields)), 0)
    ensures Continues(NextEvent(m, current, id, patch, createdAt, clock, refs), m.journal,
                      Replay(current.snapshot, m.head, current.revision))
  {
    var e := NextEvent(m, current, id, patch, createdAt, clock, refs);
    assert Material(e) == Material(e.(digest := Null));
    assert !Conflicts(m.journal, id, Sha(patch)) by {
      assert forall i | 0 <= i < |m.journal| :: m.journal[i].id != id;
    }
  }

  /** A successful append of a new id adds exactly one event that chains to the old head,
      and the result replays to the merged state one revision later. */
  lemma {:induction false} AppendIsExact(
    m: Master, id: Value, patch: Value, expected: int, createdAt: Value, clock: Value, refs: seq<Value>)
    requires Append(m, id, patch, expected, createdAt, clock, refs).Some? && !Known(m.journal, id)
    ensures var m' := Append(m, id, patch, expected, createdAt, clock, refs).value;
            var current := Reconstruct(m);
            && current.Some? && expected == current.value.revision && patch.Dict?
            && m'.journal == m.journal + [NextEvent(m, current.value, id, patch, createdAt, clock, refs)]
            && Reconstruct(m')
               == Some(Current(Merge(current.value.snapshot, patch.fields), current.value.revision + 1, m'.stateDigest))
  {
    var current := Reconstruct(m).value;
    NextEventContinues(m, current, id, patch, createdAt, clock, refs);
    ReplayedSnoc(m.base.fields, m.baseRevision, m.journal, NextEvent(m, current, id, patch, createdAt, clock, refs));
  }
}
