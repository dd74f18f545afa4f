/** The user registry of atlasquant_access_control.py: one pass over the configured
    records that keeps a name only while exactly one valid record claims it. */
module AccessControl {
  import opened Wrappers
  import opened HashFormat
  import opened Texts

  const MAX_USERS := 500

  datatype Role = User | Sales | Admin

  datatype AccessUser = AccessUser(username: string, role: Role, passwordHash: string, active: bool)

  /** `record.get("active", True)`. */
  datatype RawActive = Unset | Flag(value: bool) | NotBoolean

  datatype RawRecord =
    | NotMapping
    | Record(role: string, passwordHash: string, active: RawActive, hasPlainPassword: bool)

  /** What is left of the raw configuration once JSON has been read: unusable text and
      non-mappings are `Unreadable`. */
  datatype Config = Unreadable | Users(records: seq<(string, RawRecord)>)

  predicate NameStart(c: char) { 'a' <= c <= 'z' || '0' <= c <= '9' }

  predicate NameChar(c: char) { NameStart(c) || c == '.' || c == '_' || c == '-' }

  /** The user-name pattern: 3 to 64 characters. */
  predicate IsUsername(s: string) {
    3 <= |s| <= 64 && NameStart(s[0]) && forall i | 0 <= i < |s| :: NameChar(s[i])
  }

  /** `normalize_username`; the empty result means no name. */
  function NormalizeUsername(raw: string): (name: string)
    ensures name == "" || IsUsername(name)
  {
    var name := Lower(Strip(raw));
    if IsUsername(name) then name else ""
  }

  function NormalizeRole(raw: string): Option<Role> {
    var role := Upper(Strip(raw));
    if role == "USER" then Some(User)
    else if role == "SALES" then Some(Sales)
    else if role == "ADMIN" then Some(Admin)
    else None
  }

  /** `_user_from_record`. */
  function UserFromRecord(raw: string, record: RawRecord): (user: Option<AccessUser>)
    ensures user.Some? ==> user.value.username == NormalizeUsername(raw) != ""
    ensures user.Some? ==> ValidHashFormat(user.value.passwordHash)
  {
    var name := NormalizeUsername(raw);
    if name == "" || record.NotMapping? then None
    else
      var role := NormalizeRole(record.role);
      var encoded := Strip(record.passwordHash);
      if role.None? || record.active.NotBoolean? then None
      else if record.hasPlainPassword || !ValidHashFormat(encoded) then None
      else Some(AccessUser(name, role.value, encoded, record.active == Unset || record.active == Flag(true)))
  }

  /** One `(name, record)` item of the configuration. */
  function ReadItem(item: (string, RawRecord)): Option<AccessUser> {
    UserFromRecord(item.0, item.1)
  }

  // ------------------------------------------------------ counting specification

  /** The claim of one item on `name`, if any. */
  function ClaimOf<T>(read: T -> Option<AccessUser>, item: T, name: string): seq<AccessUser> {
    var user := read(item);
    if user.Some? && user.value.username == name then [user.value] else []
  }

  /** The valid records that normalise to `name`, in order. */
  function Claims<T>(read: T -> Option<AccessUser>, items: seq<T>, name: string): seq<AccessUser> {
    if items == [] then []
    else Claims(read, items[..|items| - 1], name) + ClaimOf(read, items[|items| - 1], name)
  }

  /** A registry maps exactly the names with one and only one claim to that claim. */
  ghost predicate IsRegistryOf<T>(users: map<string, AccessUser>, read: T -> Option<AccessUser>, items: seq<T>) {
    && (forall name :: name in users <==> |Claims(read, items, name)| == 1)
    && (forall name | name in users :: Claims(read, items, name) == [users[name]])
  }

  ghost predicate Progress<T>(
    out: map<string, AccessUser>, ambiguous: set<string>, read: T -> Option<AccessUser>, seen: seq<T>)
  {
    && IsRegistryOf(out, read, seen)
    && (forall name :: name in ambiguous <==> |Claims(read, seen, name)| >= 2)
  }

  lemma {:induction false} ClaimsSnoc<T>(read: T -> Option<AccessUser>, seen: seq<T>, item: T, name: string)
    ensures Claims(read, seen + [item], name) == Claims(read, seen, name) + ClaimOf(read, item, name)
  {
    assert (seen + [item])[..|seen|] == seen;
  }

  /** One turn of the pop-or-remember loop keeps the counting meaning of both collections. */
  lemma {:induction false} OneMoreItem<T>(
    out: map<string, AccessUser>, ambiguous: set<string>, read: T -> Option<AccessUser>, seen: seq<T>, item: T,
    out': map<string, AccessUser>, ambiguous': set<string>)
    requires Progress(out, ambiguous, read, seen)
    requires var user := read(item);
             if user.None? || user.value.username in ambiguous then out' == out && ambiguous' == ambiguous
             else if user.value.username in out then
               out' == out - {user.value.username} && ambiguous' == ambiguous + {user.value.username}
             else out' == out[user.value.username := user.value] && ambiguous' == ambiguous
    ensures Progress(out', ambiguous', read, seen + [item])
  {
    var user := read(item);
    forall name
      ensures name in out' <==> |Claims(read, seen + [item], name)| == 1
      ensures name in out' ==> Claims(read, seen + [item], name) == [out'[name]]
      ensures name in ambiguous' <==> |Claims(read, seen + [item], name)| >= 2
    {
      ClaimsSnoc(read, seen, item, name);
      if user.None? || user.value.username != name { assert ClaimOf(read, item, name) == []; }
    }
  }

  /** The loop of `load_users_config`, for any way of reading an item. */
  method KeepUnambiguous<T>(read: T -> Option<AccessUser>, items: seq<T>) returns (out: map<string, AccessUser>)
    ensures IsRegistryOf(out, read, items)
    ensures forall name | name in out :: exists item :: item in items && read(item) == Some(out[name]) && out[name].username == name
  {
    out := map[];
    var ambiguous: set<string> := {};
    for i := 0 to |items|
      invariant Progress(out, ambiguous, read, items[..i])
      invariant forall name | name in out :: exists item :: item in items && read(item) == Some(out[name]) && out[name].username == name
    {
      ghost var out0, ambiguous0 := out, ambiguous;
      var user := read(items[i]);
      if user.Some? && user.value.username !in ambiguous {
        if user.value.username in out {
          ambiguous := ambiguous + {user.value.username};
          out := out - {user.value.username};
        } else {
          out := out[user.value.username := user.value];
        }
      }
      OneMoreItem(out0, ambiguous0, read, items[..i], items[i], out, ambiguous);
      assert items[..i + 1] == items[..i] + [items[i]];
    }
    assert items[..|items|] == items;
  }

  /** Every entry is keyed by its own normalised name and holds a well-formed hash. */
  ghost predicate Usable(users: map<string, AccessUser>) {
    forall name | name in users ::
      users[name].username == name && IsUsername(name) && ValidHashFormat(users[name].passwordHash)
  }

  /** `load_users_config`. */
  method LoadUsersConfig(config: Config) returns (users: map<string, AccessUser>)
    ensures config.Unreadable? || |config.records| > MAX_USERS ==> users == map[]
    ensures config.Users? && |config.records| <= MAX_USERS ==> IsRegistryOf(users, ReadItem, config.records)
    ensures Usable(users)
  {
    if config.Unreadable? || |config.records| > MAX_USERS { return map[]; }
    users := KeepUnambiguous(ReadItem, config.records);
    forall name | name in users
      ensures users[name].username == name && IsUsername(name) && ValidHashFormat(users[name].passwordHash)
    {
      var item :| item in config.records && ReadItem(item) == Some(users[name]) && users[name].username == name;
      assert UserFromRecord(item.0, item.1) == Some(users[name]);
    }
  }

  // ---------------------------------------------------------- order independence

  lemma {:induction false} ConcatIsAssociative<T>(x: seq<T>, y: seq<T>, z: seq<T>)
    ensures (x + y) + z == x + (y + z)
  {
  }

  lemma {:induction false} ClaimsConcat<T>(read: T -> Option<AccessUser>, a: seq<T>, b: seq<T>, name: string)
    ensures Claims(read, a + b, name) == Claims(read, a, name) + Claims(read, b, name)
    decreases |b|
  {
    if b == [] {
      assert a + b == a;
    } else {
      var init, last := b[..|b| - 1], b[|b| - 1];
      assert b == init + [last];
      ClaimsConcat(read, a, init, name);
      ConcatIsAssociative(a, init, [last]);
      ClaimsSnoc(read, a + init, last, name);
      ConcatIsAssociative(Claims(read, a, name), Claims(read, init, name), ClaimOf(read, last, name));
    }
  }

  /** Where an item stands does not change the multiset of claims. */
  lemma {:induction false} ClaimsMoveToEnd<T>(read: T -> Option<AccessUser>, left: seq<T>, x: T, right: seq<T>, name: string)
    ensures multiset(Claims(read, left + ([x] + right), name))
         == multiset(Claims(read, left + right, name)) + multiset(ClaimOf(read, x, name))
  {
    ClaimsConcat(read, left, [x] + right, name);
    ClaimsConcat(read, [x], right, name);
    ClaimsConcat(read, left, right, name);
    ClaimsSnoc(read, [], x, name);
    assert [] + [x] == [x];
  }

  lemma {:induction false} ClaimsOfPermutation<T>(read: T -> Option<AccessUser>, a: seq<T>, b: seq<T>, name: string)
    requires multiset(a) == multiset(b)
    ensures multiset(Claims(read, a, name)) == multiset(Claims(read, b, name))
    decreases |a|
  {
    assert |a| == |multiset(a)| == |multiset(b)| == |b|;
    if a != [] {
      var init, x := a[..|a| - 1], a[|a| - 1];
      assert a == init + [x];
      assert x in multiset(b);
      var k :| 0 <= k < |b| && b[k] == x;
      var left, right := b[..k], b[k + 1..];
      assert b == left + ([x] + right);
      assert multiset(left + right) == multiset(b) - multiset{x} == multiset(init);
      ClaimsOfPermutation(read, init, left + right, name);
      ClaimsMoveToEnd(read, left, x, right, name);
      ClaimsSnoc(read, init, x, name);
    }
  }

  /** The order in which the configuration lists its records cannot change the registry. */
  lemma {:induction false} RegistryIgnoresOrder<T>(
    read: T -> Option<AccessUser>, a: seq<T>, b: seq<T>, users: map<string, AccessUser>, others: map<string, AccessUser>)
    requires multiset(a) == multiset(b)
    requires IsRegistryOf(users, read, a) && IsRegistryOf(others, read, b)
    ensures users == others
  {
    forall name
      ensures name in users <==> name in others
      ensures name in users ==> users[name] == others[name]
    {
      ClaimsOfPermutation(read, a, b, name);
      assert |multiset(Claims(read, a, name))| == |Claims(read, a, name)|;
      assert |multiset(Claims(read, b, name))| == |Claims(read, b, name)|;
      if name in users {
        assert users[name] in multiset(Claims(read, a, name));
        assert users[name] in Claims(read, b, name);
      }
    }
  }
}
