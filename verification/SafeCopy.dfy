/** The bounded recursive copier of the adapter plan: `safe_copy`.

    A Python value is a `Json` tree; dictionaries keep their insertion order, because
    that is the order in which the copier walks them. */
module SafeCopy {
  import opened Wrappers
  import opened Texts

  const MAX_NODES := 4096
  const MAX_DEPTH := 12
  const MAX_TEXT := 512
  const MAX_KEY := 120
  const MAX_INT := 1_000_000_000_000

  predicate Banned(key: string) {
    key in {
      "secret", "password", "token", "api_key", "credential", "credentials",
      "cookie", "authorization", "endpoint", "url", "ip", "method", "http_method",
      "headers", "header", "payload", "body", "command", "shell", "subprocess",
      "powershell", "curl", "script", "request", "private_key", "access_token"
    }
  }

  datatype Key = StrKey(text: string) | OtherKey

  datatype Entry = Entry(key: Key, child: Json)

  datatype Json =
    | Null
    | Bool(b: bool)
    | Int(n: int)
    | Str(text: string)
    | List(items: seq<Json>)
    | Dict(entries: seq<Entry>)
    | Other  // floats, tuples, subclasses and every other type

  datatype Fault = BoundsExceeded | UnsafeMaterial | TypeInvalid

  // ------------------------------------------------------------------ leaf rules

  predicate OccursAt(s: string, i: nat, word: string) {
    i + |word| <= |s| && s[i..i + |word|] == word
  }

  predicate Mentions(s: string, word: string) {
    exists i: nat | i <= |s| :: OccursAt(Lower(s), i, word)
  }

  /** A run of `n` digits and a dot at `i`. */
  predicate Octet(s: string, i: nat, n: nat) {
    1 <= n <= 3 && i + n < |s| && (forall k | i <= k < i + n :: IsDigit(s[k])) && s[i + n] == '.'
  }

  /** `n` dotted groups followed by a digit, starting at `i`. */
  predicate DottedGroups(s: string, i: nat, n: nat)
    decreases n
  {
    if n == 0 then i < |s| && IsDigit(s[i])
    else
      || (Octet(s, i, 1) && DottedGroups(s, i + 2, n - 1))
      || (Octet(s, i, 2) && DottedGroups(s, i + 3, n - 1))
      || (Octet(s, i, 3) && DottedGroups(s, i + 4, n - 1))
  }

  predicate DottedQuad(s: string) {
    exists i: nat | i <= |s| :: DottedGroups(s, i, 3)
  }

  predicate MentionsThenSpace(s: string, word: string) {
    exists i: nat | i + |word| < |s| :: OccursAt(Lower(s), i, word) && IsSpace(s[i + |word|])
  }

  predicate SafeText(s: string) {
    && |s| <= MAX_TEXT
    && (forall i | 0 <= i < |s| :: s[i] >= ' ')
    && !Mentions(s, "http://") && !Mentions(s, "https://") && !Mentions(s, "www.")
    && !Mentions(s, "powershell")
    && !MentionsThenSpace(s, "bearer") && !MentionsThenSpace(s, "curl")
    && !DottedQuad(s)
  }

  predicate SafeKey(key: Key) {
    key.StrKey? && |key.text| <= MAX_KEY && !Banned(Lower(key.text))
  }

  // -------------------------------------------------------- plain specification

  function Arity(item: Json): nat {
    match item
    case List(items) => |items|
    case Dict(entries) => |entries|
    case _ => 0
  }

  function Child(item: Json, i: nat): (child: Json)
    requires i < Arity(item)
    ensures child < item
  {
    match item
    case List(items) => items[i]
    case Dict(entries) => entries[i].child
  }

  /** One for the node itself plus all nodes of its first `n` children. */
  function NodesUpTo(item: Json, n: nat): (count: nat)
    requires n <= Arity(item)
    ensures 1 + n <= count
    decreases item, n
  {
    if n == 0 then 1
    else
      var child := Child(item, n - 1);
      NodesUpTo(item, n - 1) + NodesUpTo(child, Arity(child))
  }

  function Nodes(item: Json): nat {
    NodesUpTo(item, Arity(item))
  }

  /** No node lies more than `room` levels below `item`. */
  predicate Shallow(item: Json, room: int) {
    0 <= room && forall i | 0 <= i < Arity(item) :: Shallow(Child(item, i), room - 1)
  }

  predicate KeysSafe(entries: seq<Entry>, n: nat)
    requires n <= |entries|
  {
    forall k | 0 <= k < n :: SafeKey(entries[k].key)
  }

  /** The type, keys, text or number of this one node are allowed. */
  predicate AllowedHere(item: Json) {
    match item
    case Int(n) => -MAX_INT <= n <= MAX_INT
    case Str(text) => SafeText(text)
    case Dict(entries) => KeysSafe(entries, |entries|)
    case Other => false
    case _ => true
  }

  predicate Allowed(item: Json) {
    AllowedHere(item) && forall i | 0 <= i < Arity(item) :: Allowed(Child(item, i))
  }

  /** The first `n` children are allowed and no deeper than `room`. */
  predicate ChildrenFit(item: Json, n: nat, room: int)
    requires n <= Arity(item)
  {
    forall k | 0 <= k < n :: Shallow(Child(item, k), room) && Allowed(Child(item, k))
  }

  predicate Acceptable(item: Json, room: int, budget: int) {
    Nodes(item) <= budget && Shallow(item, room) && Allowed(item)
  }

  lemma {:induction false} NodesGrow(item: Json, m: nat, n: nat)
    requires m <= n <= Arity(item)
    ensures NodesUpTo(item, m) + (n - m) <= NodesUpTo(item, n)
    decreases n - m
  {
    if m < n { NodesGrow(item, m, n - 1); }
  }

  /** The early exit: a node with more children than the budget has left is too big. */
  lemma {:induction false} TooManyChildren(item: Json, budget: int)
    requires budget <= Arity(item)
    ensures budget < Nodes(item)
  {
    NodesGrow(item, 0, Arity(item));
  }

  lemma {:induction false} OneMoreFits(item: Json, n: nat, room: int)
    requires n < Arity(item) && ChildrenFit(item, n, room)
    requires Shallow(Child(item, n), room) && Allowed(Child(item, n))
    ensures ChildrenFit(item, n + 1, room)
  {
  }

  lemma {:induction false} AllFit(item: Json, room: nat, budget: int)
    requires ChildrenFit(item, Arity(item), room - 1) && AllowedHere(item)
    requires Nodes(item) <= budget
    ensures Acceptable(item, room, budget)
  {
  }

  lemma {:induction false} BigChildBlocks(item: Json, i: nat, budget: int)
    requires i < Arity(item)
    requires budget - NodesUpTo(item, i) < Nodes(Child(item, i))
    ensures budget < Nodes(item)
  {
    NodesGrow(item, i + 1, Arity(item));
  }

  lemma {:induction false} DeepChildBlocks(item: Json, i: nat, room: int)
    requires i < Arity(item) && !Shallow(Child(item, i), room - 1)
    ensures !Shallow(item, room)
  {
  }

  lemma {:induction false} UnsafeChildBlocks(item: Json, i: nat)
    requires i < Arity(item) && !Allowed(Child(item, i))
    ensures !Allowed(item)
  {
  }

  /** A child that does not fit in what is left makes the whole item unacceptable. */
  lemma {:induction false} ChildBlocks(item: Json, i: nat, room: int, budget: int)
    requires i < Arity(item)
    requires !Acceptable(Child(item, i), room - 1, budget - NodesUpTo(item, i))
    ensures !Acceptable(item, room, budget)
  {
    if !Allowed(Child(item, i)) {
      UnsafeChildBlocks(item, i);
    } else if !Shallow(Child(item, i), room - 1) {
      DeepChildBlocks(item, i, room);
    } else {
      BigChildBlocks(item, i, budget);
    }
  }

  // -------------------------------------------------------------- the algorithm

  class Budget {
    var left: int

    constructor (n: int)
      ensures left == n
    {
      left := n;
    }
  }

  method Visit(item: Json, depth: nat, budget: Budget) returns (r: Result<Json, Fault>)
    modifies budget
    ensures r.Success? <==> Acceptable(item, MAX_DEPTH - depth, old(budget.left))
    ensures r.Success? ==> r.value == item && budget.left == old(budget.left) - Nodes(item)
    ensures r.Failure? && Allowed(item) ==> r.error == BoundsExceeded
    decreases item, 1
  {
    budget.left := budget.left - 1;
    if budget.left < 0 || depth > MAX_DEPTH { return Failure(BoundsExceeded); }
    match item {
      case Dict(_) => r := VisitDict(item, depth, budget);
      case List(_) => r := VisitList(item, depth, budget);
      case Str(text) => r := if SafeText(text) then Success(item) else Failure(UnsafeMaterial);
      case Int(n) => r := if -MAX_INT <= n <= MAX_INT then Success(item) else Failure(BoundsExceeded);
      case Bool(_) => r := Success(item);
      case Null => r := Success(item);
      case Other => r := Failure(TypeInvalid);
    }
  }

  /** The branch for a dictionary, entered after the node itself has been paid for. */
  method VisitDict(item: Json, depth: nat, budget: Budget) returns (r: Result<Json, Fault>)
    requires item.Dict? && 0 <= budget.left && depth <= MAX_DEPTH
    modifies budget
    ensures r.Success? <==> Acceptable(item, MAX_DEPTH - depth, old(budget.left) + 1)
    ensures r.Success? ==> r.value == item && budget.left == old(budget.left) + 1 - Nodes(item)
    ensures r.Failure? && Allowed(item) ==> r.error == BoundsExceeded
    decreases item, 0
  {
    var entries := item.entries;
    ghost var room, all := MAX_DEPTH - depth, budget.left + 1;
    if |entries| > budget.left {
      TooManyChildren(item, all);
      return Failure(BoundsExceeded);
    }
    var out := [];
    for i := 0 to |entries|
      invariant out == entries[..i]
      invariant 0 <= budget.left == all - NodesUpTo(item, i)
      invariant KeysSafe(entries, i)
      invariant ChildrenFit(item, i, room - 1)
    {
      if !SafeKey(entries[i].key) { return Failure(UnsafeMaterial); }
      var copy := Visit(entries[i].child, depth + 1, budget);
      if copy.Failure? {
        ChildBlocks(item, i, room, all);
        return copy;
      }
      OneMoreFits(item, i, room - 1);
      out := out + [Entry(entries[i].key, copy.value)];
    }
    assert out == entries;
    AllFit(item, room, all);
    r := Success(Dict(out));
  }

  /** The branch for a list, entered after the node itself has been paid for. */
  method VisitList(item: Json, depth: nat, budget: Budget) returns (r: Result<Json, Fault>)
    requires item.List? && 0 <= budget.left && depth <= MAX_DEPTH
    modifies budget
    ensures r.Success? <==> Acceptable(item, MAX_DEPTH - depth, old(budget.left) + 1)
    ensures r.Success? ==> r.value == item && budget.left == old(budget.left) + 1 - Nodes(item)
    ensures r.Failure? && Allowed(item) ==> r.error == BoundsExceeded
    decreases item, 0
  {
    var items := item.items;
    ghost var room, all := MAX_DEPTH - depth, budget.left + 1;
    if |items| > budget.left {
      TooManyChildren(item, all);
      return Failure(BoundsExceeded);
    }
    var out := [];
    for i := 0 to |items|
      invariant out == items[..i]
      invariant 0 <= budget.left == all - NodesUpTo(item, i)
      invariant ChildrenFit(item, i, room - 1)
    {
      var copy := Visit(items[i], depth + 1, budget);
      if copy.Failure? {
        ChildBlocks(item, i, room, all);
        return copy;
      }
      OneMoreFits(item, i, room - 1);
      out := out + [copy.value];
    }
    assert out == items;
    AllFit(item, room, all);
    r := Success(List(out));
  }

  /** `safe_copy`: the early exits and the shared budget never change the verdict of the
      plain recursive definition, and an accepted value comes back unchanged. */
  method Copy(value: Json) returns (r: Result<Json, Fault>)
    ensures r.Success? <==> Acceptable(value, MAX_DEPTH, MAX_NODES)
    ensures r.Success? ==> r.value == value
    ensures r.Failure? && Allowed(value) ==> r.error == BoundsExceeded
  {
    var budget := new Budget(MAX_NODES);
    r := Visit(value, 0, budget);
  }
}
