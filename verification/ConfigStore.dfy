/**
 The configuration store with its profiles: each profile is a numbered group with a name, names are unique up to
 case, and the current profile is one of those that exist.
 */
module ConfigStore {
  import opened Options

  type Path = seq<string>

  datatype Value = StringVal(s: string) | BoolVal(b: bool) | IntVal(i: int) | FloatVal(r: real)

  /** Where an entry is: below /profile/id, or elsewhere. */
  datatype Key = InProfile(id: int, path: Path) | InGlobal(path: Path)

  type Store = map<Key, Value>

  const NAME: Path := ["name"]
  const CURRENT: Key := InGlobal(["currentProfile"])
  const DEFAULT_PROFILE_NAME := "My Equipment"
  const TEMP_NAME := ".!temp!profile!name!~"

  function LowerChar(c: char): char {
    if 'A' <= c <= 'Z' then (c as int + 32) as char else c
  }

  function Lower(s: string): string {
    seq(|s|, i requires 0 <= i < |s| => LowerChar(s[i]))
  }

  /** Comparison without regard to case. */
  predicate SameName(a: string, b: string) {
    Lower(a) == Lower(b)
  }

  function Ids(m: Store): set<int> {
    set k | k in m && k.InProfile? :: k.id
  }

  function Digit(d: nat): char
    requires d < 10
  {
    ('0' as int + d) as char
  }

  function Digits(n: nat): string {
    (if n < 10 then [] else Digits(n / 10)) + [Digit(n % 10)]
  }

  /** The name of a profile that has none. */
  function Fallback(id: int): (name: string)
    ensures name != ""
  {
    "Profile " + if id < 0 then "-" + Digits(-id) else Digits(id)
  }

  /** What a profile with this entry for its name is called. */
  function Shown(id: int, name: string): (shown: string)
    ensures shown != ""
  {
    if name == "" then Fallback(id) else name
  }

  function NameOf(m: Store, id: int): (name: string)
    ensures name != ""
  {
    Shown(id, if InProfile(id, NAME) in m && m[InProfile(id, NAME)].StringVal? then m[InProfile(id, NAME)].s else "")
  }

  ghost predicate Taken(m: Store, name: string) {
    exists id :: id in Ids(m) && SameName(NameOf(m, id), name)
  }

  /** No other profile is called that. */
  ghost predicate Free(m: Store, id: int, name: string) {
    forall j :: j in Ids(m) && j != id ==> !SameName(NameOf(m, j), name)
  }

  /** The first number without a profile. */
  ghost predicate FirstFree(m: Store, id: int) {
    id >= 1 && id !in Ids(m) && forall j :: 1 <= j < id ==> j in Ids(m)
  }

  ghost predicate Numbered(m: Store) {
    forall id :: id in Ids(m) ==> id >= 1
  }

  /** Every profile has a positive number, and no two names are the same. */
  ghost predicate WellNamed(m: Store) {
    && Numbered(m)
    && (forall i, j :: i in Ids(m) && j in Ids(m) && SameName(NameOf(m, i), NameOf(m, j)) ==> i == j)
  }

  ghost predicate Live(m: Store, current: int) {
    current in Ids(m) && CURRENT in m && m[CURRENT] == IntVal(current)
  }

  /** The number stored for the current profile, 0 if none is stored. */
  function StoredProfile(m: Store): int {
    if CURRENT in m && m[CURRENT].IntVal? then m[CURRENT].i else 0
  }

  /** The store without a profile. */
  function Without(m: Store, id: int): Store {
    map k | k in m && !(k.InProfile? && k.id == id) :: m[k]
  }

  function Get(m: Store, k: Key): Option<Value> {
    if k in m then Some(m[k]) else None
  }

  /** k is where a copy of what lies below the path in profile src goes in profile dst. */
  predicate CopyTarget(m: Store, src: int, dst: int, path: Path, k: Key) {
    k.InProfile? && k.id == dst && path < k.path && InProfile(src, k.path) in m
  }

  /** The entry at k after everything below a path in one profile has been copied into another. */
  function Copied(m: Store, src: int, dst: int, path: Path, k: Key): Option<Value> {
    if CopyTarget(m, src, dst, path, k) then Some(m[InProfile(src, k.path)]) else Get(m, k)
  }

  // ----- names

  /** One is the capital of the other. */
  predicate CaseOf(a: char, b: char) {
    'A' <= a <= 'Z' && b as int == a as int + 32
  }

  /** Names are the same if they differ in the case of letters only. */
  lemma SameNameMeans(a: string, b: string)
    ensures SameName(a, b) <==>
              |a| == |b| && forall i :: 0 <= i < |a| ==> a[i] == b[i] || CaseOf(a[i], b[i]) || CaseOf(b[i], a[i])
  {
    if SameName(a, b) {
      assert |Lower(a)| == |Lower(b)|;
      forall i | 0 <= i < |a| ensures a[i] == b[i] || CaseOf(a[i], b[i]) || CaseOf(b[i], a[i]) {
        assert Lower(a)[i] == Lower(b)[i];
      }
    }
    if |a| == |b| && forall i :: 0 <= i < |a| ==> a[i] == b[i] || CaseOf(a[i], b[i]) || CaseOf(b[i], a[i]) {
      assert forall i :: 0 <= i < |a| ==> LowerChar(a[i]) == LowerChar(b[i]);
      assert Lower(a) == Lower(b);
    }
  }

  /** The number that a string of digits says. */
  function Number(s: string): int {
    if s == "" then 0 else 10 * Number(s[..|s| - 1]) + (s[|s| - 1] as int - '0' as int)
  }

  lemma NumberSnoc(s: string, d: nat)
    requires d < 10
    ensures Number(s + [Digit(d)]) == 10 * Number(s) + d && '0' <= Digit(d) <= '9'
  {
    assert (s + [Digit(d)])[..|s|] == s;
  }

  lemma {:induction false} DigitsSayNumber(n: nat)
    ensures Number(Digits(n)) == n && Digits(n) != "" && forall i :: 0 <= i < |Digits(n)| ==> '0' <= Digits(n)[i] <= '9'
  {
    var before := if n < 10 then "" else Digits(n / 10);
    assert Digits(n) == before + [Digit(n % 10)];
    NumberSnoc(before, n % 10);
    if n < 10 {
    } else {
      hide Number, Digits, Digit;
      DigitsSayNumber(n / 10);
    }
  }

  /** The names shown for two different profiles without names are different. */
  lemma FallbacksDiffer(i: nat, j: nat)
    requires SameName(Fallback(i), Fallback(j))
    ensures i == j
  {
    hide SameName, Digits, Number;
    DigitsSayNumber(i);
    DigitsSayNumber(j);
    SameTails("Profile ", Digits(i), Digits(j));
  }

  lemma SameTails(p: string, a: string, b: string)
    requires SameName(p + a, p + b)
    requires forall i :: 0 <= i < |a| ==> '0' <= a[i] <= '9'
    requires forall i :: 0 <= i < |b| ==> '0' <= b[i] <= '9'
    ensures a == b
  {
    hide SameName;
    SameNameMeans(p + a, p + b);
    assert |a| == |b|;
    forall k | 0 <= k < |a| ensures a[k] == b[k] {
      assert (p + a)[|p| + k] == a[k] && (p + b)[|p| + k] == b[k];
    }
  }

  // ----- how names change with the store

  /** A new entry for a name changes that name alone. */
  lemma NewName(m: Store, id: int, name: string)
    ensures var n := m[InProfile(id, NAME) := StringVal(name)];
            && Ids(n) == Ids(m) + {id} && NameOf(n, id) == Shown(id, name)
            && forall j :: j != id ==> NameOf(n, j) == NameOf(m, j)
  {
    var n := m[InProfile(id, NAME) := StringVal(name)];
    assert InProfile(id, NAME) in n;
    assert forall k :: k in n && k.InProfile? ==> k.id == id || (k in m && k.id in Ids(m));
    forall j | j in Ids(m) ensures j in Ids(n) {
      var k :| k in m && k.InProfile? && k.id == j;
      assert k in n;
    }
  }

  /** It keeps names distinct exactly if no other profile is called what the entry shows as. */
  lemma NewNameKeeps(m: Store, id: int, name: string)
    requires WellNamed(m) && id >= 1
    ensures WellNamed(m[InProfile(id, NAME) := StringVal(name)]) <==> Free(m, id, Shown(id, name))
  {
    NewName(m, id, name);
    var n, shown := m[InProfile(id, NAME) := StringVal(name)], Shown(id, name);
    if WellNamed(n) {
      forall j | j in Ids(m) && j != id ensures !SameName(NameOf(m, j), shown) {
        assert j in Ids(n) && id in Ids(n);
      }
    }
  }

  /** A new profile under a name that is not taken keeps names distinct unless it has none of its own. */
  lemma NewProfile(m: Store, id: int, name: string)
    requires WellNamed(m) && id >= 1 && id !in Ids(m) && !Taken(m, name)
    ensures var n := m[InProfile(id, NAME) := StringVal(name)];
            && Ids(n) == Ids(m) + {id} && NameOf(n, id) == Shown(id, name) && Numbered(n)
            && (WellNamed(n) <==> Free(m, id, Shown(id, name))) && (name != "" ==> WellNamed(n))
            && Get(n, CURRENT) == Get(m, CURRENT)
  {
    NewName(m, id, name);
    NewNameKeeps(m, id, name);
  }

  /** Two profiles, the second without a name of its own, can be called the same. */
  lemma UnnamedClash()
    ensures var m := map[InProfile(1, NAME) := StringVal("Profile 2"), CURRENT := IntVal(1)];
            && WellNamed(m) && Live(m, 1) && !Taken(m, "")
            && !WellNamed(m[InProfile(2, NAME) := StringVal("")])
  {
    var m := map[InProfile(1, NAME) := StringVal("Profile 2"), CURRENT := IntVal(1)];
    assert InProfile(1, NAME) in m;
    assert Ids(m) == {1} && NameOf(m, 1) == "Profile 2";
    assert Digits(2) == "2";
    assert Shown(2, "") == "Profile 2";
    assert |Lower("Profile 2")| != |Lower("")|;
    NewNameKeeps(m, 2, "");
  }

  lemma GlobalKeeps(m: Store, v: Value)
    ensures Ids(m[CURRENT := v]) == Ids(m)
    ensures forall j :: NameOf(m[CURRENT := v], j) == NameOf(m, j)
  {
    var n := m[CURRENT := v];
    forall j | j in Ids(m) ensures j in Ids(n) {
      var k :| k in m && k.InProfile? && k.id == j;
      assert k in n;
    }
  }

  lemma WithoutKeeps(m: Store, id: int)
    ensures Ids(Without(m, id)) == Ids(m) - {id}
    ensures forall j :: j != id ==> NameOf(Without(m, id), j) == NameOf(m, j)
    ensures WellNamed(m) ==> WellNamed(Without(m, id))
  {
    var n := Without(m, id);
    forall j | j in Ids(m) && j != id ensures j in Ids(n) {
      var k :| k in m && k.InProfile? && k.id == j;
      assert k in n;
    }
  }

  // ----- copying a group

  /** The path goes on into one of the sub-groups, or ends in one of the entries, directly below the given one. */
  predicate Within(path: Path, p: Path, groups: set<string>, leaves: set<string>)
    requires path < p
  {
    if |p| > |path| + 1 then p[|path|] in groups else p[|path|] in leaves
  }

  /** The entry at k after only some of the sub-groups and entries have been copied. */
  function PartlyCopied(m: Store, src: int, dst: int, path: Path, groups: set<string>, leaves: set<string>, k: Key)
    : Option<Value>
  {
    if CopyTarget(m, src, dst, path, k) && Within(path, k.path, groups, leaves)
    then Some(m[InProfile(src, k.path)]) else Get(m, k)
  }

  function Groups(m: Store, src: int, path: Path): set<string> {
    set k | k in m && k.InProfile? && k.id == src && path < k.path && |k.path| > |path| + 1 :: k.path[|path|]
  }

  function Leaves(m: Store, src: int, path: Path): set<string> {
    set k | k in m && k.InProfile? && k.id == src && path < k.path && |k.path| == |path| + 1 :: k.path[|path|]
  }

  lemma GroupStep(m: Store, n: Store, src: int, dst: int, path: Path, gs: set<string>, g: string, k: Key)
    requires src != dst && g !in gs
    requires forall j :: Get(n, j) == PartlyCopied(m, src, dst, path, gs, {}, j)
    ensures Copied(n, src, dst, path + [g], k) == PartlyCopied(m, src, dst, path, gs + {g}, {}, k)
  {
    assert Get(n, k) == PartlyCopied(m, src, dst, path, gs, {}, k);
    if k.InProfile? {
      var from := InProfile(src, k.path);
      assert Get(n, from) == PartlyCopied(m, src, dst, path, gs, {}, from);
      assert Get(n, from) == Get(m, from);
      if path < k.path && |k.path| > |path| + 1 && k.path[|path|] == g {
        assert k.path[..|path| + 1] == path + [g];
        assert path + [g] < k.path;
      }
    }
  }

  lemma LeafStep(m: Store, n: Store, src: int, dst: int, path: Path, gs: set<string>, ls: set<string>, e: string,
                 k: Key)
    requires src != dst && InProfile(src, path + [e]) in m
    requires forall j :: Get(n, j) == PartlyCopied(m, src, dst, path, gs, ls, j)
    ensures InProfile(src, path + [e]) in n
    ensures Get(n[InProfile(dst, path + [e]) := n[InProfile(src, path + [e])]], k)
         == PartlyCopied(m, src, dst, path, gs, ls + {e}, k)
  {
    var from := InProfile(src, path + [e]);
    assert Get(n, from) == PartlyCopied(m, src, dst, path, gs, ls, from) == Get(m, from);
    assert Get(n, k) == PartlyCopied(m, src, dst, path, gs, ls, k);
    if k.InProfile? && path < k.path && |k.path| == |path| + 1 && k.path[|path|] == e {
      assert k.path == path + [e];
    }
  }

  lemma AllCopied(m: Store, src: int, dst: int, path: Path, k: Key)
    ensures PartlyCopied(m, src, dst, path, Groups(m, src, path), Leaves(m, src, path), k)
         == Copied(m, src, dst, path, k)
  {
    if CopyTarget(m, src, dst, path, k) {
      var from := InProfile(src, k.path);
      assert from in m && from.path == k.path;
    }
  }

  lemma LeafPath(m: Store, src: int, path: Path, e: string)
    requires e in Leaves(m, src, path)
    ensures InProfile(src, path + [e]) in m
  {
    var k :| k in m && k.InProfile? && k.id == src && path < k.path && |k.path| == |path| + 1 && k.path[|path|] == e;
    assert k.path == path + [e];
  }

  function AtLeast(ids: set<int>, n: int): set<int> {
    set j | j in ids && j >= n
  }

  lemma AtLeastStep(ids: set<int>, n: int)
    requires n in ids
    ensures |AtLeast(ids, n)| == |AtLeast(ids, n + 1)| + 1
  {
    assert AtLeast(ids, n) == AtLeast(ids, n + 1) + {n};
  }

  // ----- the configuration object

  class PhdConfig {
    var entries: Store
    var currentProfileId: int

    ghost predicate Valid()
      reads this
    {
      WellNamed(entries) && Live(entries, currentProfileId)
    }

    /** The number of the profile with a name, 0 if there is none; the groups are visited in any order. */
    method GetProfileId(name: string) returns (ret: int)
      requires Numbered(entries)
      ensures ret == 0 <==> !Taken(entries, name)
      ensures ret != 0 ==> ret >= 1 && ret in Ids(entries) && SameName(NameOf(entries, ret), name)
    {
      ret := 0;
      var todo := Ids(entries);
      while todo != {}
        invariant todo <= Ids(entries)
        invariant forall id :: id in Ids(entries) && id !in todo ==> !SameName(NameOf(entries, id), name)
        decreases |todo|
      {
        var id :| id in todo;
        if SameName(NameOf(entries, id), name) {
          return id;
        }
        todo := todo - {id};
      }
    }

    method GetCurrentProfile() returns (name: string)
      requires Valid()
      ensures name == NameOf(entries, currentProfileId)
    {
      name := NameOf(entries, currentProfileId);
    }

    /** A new profile under the first free number, unless the name is taken. The empty name never is. */
    method CreateProfile(name: string) returns (err: bool, ghost id: int)
      requires WellNamed(entries)
      modifies this`entries
      ensures Numbered(entries) && (err <==> Taken(old(entries), name))
      ensures err ==> entries == old(entries)
      ensures !err ==> FirstFree(old(entries), id)
      ensures !err ==> entries == old(entries)[InProfile(id, NAME) := StringVal(name)]
      ensures !err ==> Ids(entries) == Ids(old(entries)) + {id} && NameOf(entries, id) == Shown(id, name)
      ensures !err ==> (WellNamed(entries) <==> Free(old(entries), id, Shown(id, name)))
      ensures name != "" ==> WellNamed(entries)
      ensures name != "" && old(Valid()) ==> Valid()
    {
      hide NameOf, Shown, Lower;
      var existing := GetProfileId(name);
      if existing > 0 {
        return true, 0;
      }
      var free := 1;
      while free in Ids(entries)
        invariant entries == old(entries)
        invariant free >= 1 && forall j :: 1 <= j < free ==> j in Ids(entries)
        decreases |AtLeast(Ids(entries), free)|
      {
        AtLeastStep(Ids(entries), free);
        free := free + 1;
      }
      NewProfile(entries, free, name);
      entries := entries[InProfile(free, NAME) := StringVal(name)];
      return false, free;
    }

    method MakeCurrent(id: int)
      requires WellNamed(entries) && id in Ids(entries)
      modifies this
      ensures Valid() && currentProfileId == id && entries == old(entries)[CURRENT := IntVal(id)]
    {
      GlobalKeeps(entries, IntVal(id));
      currentProfileId := id;
      entries := entries[CURRENT := IntVal(id)];
    }

    /** Selects a profile by name, creating it if need be. The empty name leaves an unnamed profile behind and fails. */
    method SetCurrentProfile(name: string) returns (err: bool, ghost id: int)
      requires Valid()
      modifies this
      ensures err <==> name == ""
      ensures !err ==> Valid() && id == currentProfileId && SameName(NameOf(entries, currentProfileId), name)
      ensures Taken(old(entries), name) ==>
                id in Ids(old(entries)) && entries == old(entries)[CURRENT := IntVal(id)]
      ensures !Taken(old(entries), name) && !err ==>
                && FirstFree(old(entries), id)
                && entries == old(entries)[InProfile(id, NAME) := StringVal(name)][CURRENT := IntVal(id)]
      ensures err ==> LeftUnnamed(old(entries), id, entries) && currentProfileId == old(currentProfileId)
      ensures err ==> (Valid() <==> Free(old(entries), id, Fallback(id)))
    {
      if SameName(NameOf(entries, currentProfileId), name) {
        assert entries[CURRENT := IntVal(currentProfileId)] == entries;
        return false, currentProfileId;
      }
      var found := GetProfileId(name);
      if found <= 0 {
        err, id := CreateProfile(name);
        found := GetProfileId(name);
        if found <= 0 {
          return true, id;
        }
        assert found == id;
      }
      GlobalKeeps(entries, IntVal(found));
      MakeCurrent(found);
      return false, found;
    }

    /** Copies a group and everything below it from one profile to another, group by group. */
    method CopyGroup(src: int, dst: int, path: Path, ghost depth: nat)
      requires src != dst
      requires forall p :: InProfile(src, p) in entries ==> |p| <= |path| + depth
      modifies this`entries
      ensures forall k :: Get(entries, k) == Copied(old(entries), src, dst, path, k)
      decreases depth
    {
      ghost var m := entries;
      var todo := Groups(entries, src, path);
      ghost var all := todo;
      while todo != {}
        invariant todo <= all
        invariant forall k :: Get(entries, k) == PartlyCopied(m, src, dst, path, all - todo, {}, k)
        decreases |todo|
      {
        var str :| str in todo;
        ghost var before := entries;
        SameSource(m, before, src, dst, path, all - todo);
        GroupDepth(m, src, path, str, depth);
        CopyGroup(src, dst, path + [str], depth - 1);
        forall k ensures Get(entries, k) == PartlyCopied(m, src, dst, path, (all - todo) + {str}, {}, k) {
          GroupStep(m, before, src, dst, path, all - todo, str, k);
        }
        assert all - (todo - {str}) == (all - todo) + {str};
        todo := todo - {str};
      }
      assert all - todo == all;
      CopyEntries(m, src, dst, path);
      forall k ensures Get(entries, k) == Copied(m, src, dst, path, k) {
        AllCopied(m, src, dst, path, k);
      }
    }

    /** The entries directly below the path, after all its sub-groups. */
    method CopyEntries(ghost m: Store, src: int, dst: int, path: Path)
      requires src != dst
      requires forall k :: Get(entries, k) == PartlyCopied(m, src, dst, path, Groups(m, src, path), {}, k)
      modifies this`entries
      ensures forall k :: Get(entries, k)
                == PartlyCopied(m, src, dst, path, Groups(m, src, path), Leaves(m, src, path), k)
    {
      ghost var gs, all := Groups(m, src, path), Leaves(m, src, path);
      SameLeaves(m, entries, src, dst, path, gs);
      var todo := Leaves(entries, src, path);
      while todo != {}
        invariant todo <= all
        invariant forall k :: Get(entries, k) == PartlyCopied(m, src, dst, path, gs, all - todo, k)
        decreases |todo|
      {
        var str :| str in todo;
        ghost var before, done := entries, all - todo;
        LeafPath(m, src, path, str);
        LeafStep(m, before, src, dst, path, gs, done, str, CURRENT);
        entries := entries[InProfile(dst, path + [str]) := entries[InProfile(src, path + [str])]];
        forall k ensures Get(entries, k) == PartlyCopied(m, src, dst, path, gs, done + {str}, k) {
          LeafStep(m, before, src, dst, path, gs, done, str, k);
        }
        assert all - (todo - {str}) == done + {str};
        todo := todo - {str};
      }
      assert all - todo == all;
    }

    /**
     A new profile with everything of another one but its name; every other entry of the store stays as it is. The empty
     name leaves an empty unnamed profile behind and fails.
     */
    method CloneProfile(dest: string, source: string) returns (err: bool, ghost srcId: int, ghost dstId: int)
      requires Valid()
      modifies this`entries
      ensures err <==> !Taken(old(entries), source) || Taken(old(entries), dest) || dest == ""
      ensures err && (!Taken(old(entries), source) || Taken(old(entries), dest)) ==> entries == old(entries)
      ensures err && Taken(old(entries), source) && !Taken(old(entries), dest) ==>
                LeftUnnamed(old(entries), dstId, entries) && (Valid() <==> Free(old(entries), dstId, Fallback(dstId)))
      ensures !err ==> Valid()
      ensures !err ==> srcId in Ids(old(entries)) && SameName(NameOf(old(entries), srcId), source)
      ensures !err ==> FirstFree(old(entries), dstId)
      ensures !err ==> forall k :: Get(entries, k) == Cloned(old(entries), srcId, dstId, dest, k)
    {
      ghost var m := entries;
      var src := GetProfileId(source);
      if src <= 0 {
        return true, 0, 0;
      }
      var dst := GetProfileId(dest);
      if dst > 0 {
        return true, 0, 0;
      }
      err, dstId := CreateProfile(dest);
      dst := GetProfileId(dest);
      if dst <= 0 {
        return true, src, dstId;
      }
      assert dst == dstId;
      CopyInto(m, src, dst, dest);
      return false, src, dst;
    }

    /** The copying that follows the creation of the new profile: the whole group, and the name again. */
    method CopyInto(ghost m: Store, src: int, dst: int, dest: string)
      requires WellNamed(m) && Live(m, currentProfileId) && src in Ids(m) && dst !in Ids(m) && dst >= 1
      requires dest != "" && !Taken(m, dest) && entries == m[InProfile(dst, NAME) := StringVal(dest)]
      modifies this`entries
      ensures Valid() && forall k :: Get(entries, k) == Cloned(m, src, dst, dest, k)
    {
      ghost var made, depth := entries, LongestPath(entries);
      CopyGroup(src, dst, [], depth);
      ghost var copied := entries;
      entries := entries[InProfile(dst, NAME) := StringVal(dest)];
      forall k ensures Get(entries, k) == Cloned(m, src, dst, dest, k) {
        CloneStep(m, made, copied, src, dst, dest, k);
      }
      CloneKeeps(m, entries, src, dst, dest);
    }

    /** Some profile, 0 if there is none. */
    method FirstProfile() returns (id: int)
      ensures if Ids(entries) == {} then id == 0 else id in Ids(entries)
    {
      id := 0;
      var all := Ids(entries);
      if all != {} {
        id :| id in all;
      }
    }

    /** Selects the profile of the last session, else some profile, which is created if there is none. */
    method InitializeProfile()
      requires WellNamed(entries)
      modifies this
      ensures WellNamed(entries) && CURRENT in entries && entries[CURRENT] == IntVal(currentProfileId)
      ensures Ids(old(entries)) != {} ==> entries == old(entries)[CURRENT := IntVal(currentProfileId)]
      ensures Valid() <==> StoredProfile(old(entries)) <= 0 || StoredProfile(old(entries)) in Ids(old(entries))
    {
      var currentProfile := StoredProfile(entries);
      if currentProfile <= 0 {
        currentProfile := FirstProfile();
      }
      if currentProfile <= 0 {
        var err, created := CreateProfile(DEFAULT_PROFILE_NAME);
        currentProfile := GetProfileId(DEFAULT_PROFILE_NAME);
      }
      GlobalKeeps(entries, IntVal(currentProfile));
      currentProfileId := currentProfile;
      entries := entries[CURRENT := IntVal(currentProfile)];
    }

    /** Deletes a profile; there is always one left, and the current one is always among those left. */
    method DeleteProfile(name: string)
      requires Valid()
      modifies this
      ensures Valid()
      ensures !Taken(old(entries), name) ==> entries == old(entries) && currentProfileId == old(currentProfileId)
      ensures Taken(old(entries), name) ==>
                exists id :: id in Ids(old(entries)) && SameName(NameOf(old(entries), id), name)
                  && Deleted(old(entries), old(currentProfileId), id, entries, currentProfileId)
    {
      var id := GetProfileId(name);
      if id <= 0 {
        return;
      }
      ghost var rest := Without(entries, id);
      WithoutKeeps(entries, id);
      entries := map k | k in entries && !(k.InProfile? && k.id == id) :: entries[k];
      if Ids(entries) == {} {
        ghost var created;
        var err;
        err, created := CreateProfile(DEFAULT_PROFILE_NAME);
        assert created > 1 ==> 1 in Ids(rest);
      }
      if id == currentProfileId {
        var first := FirstProfile();
        MakeCurrent(first);
      }
    }

    method RenameProfile(oldname: string, newname: string) returns (err: bool, ghost id: int)
      requires Valid()
      modifies this`entries
      ensures err <==> Taken(old(entries), newname) || !Taken(old(entries), oldname)
      ensures err ==> entries == old(entries)
      ensures !err ==> id in Ids(old(entries)) && SameName(NameOf(old(entries), id), oldname)
                       && entries == old(entries)[InProfile(id, NAME) := StringVal(newname)]
      ensures !err ==> (Valid() <==> Free(old(entries), id, Shown(id, newname)))
      ensures newname != "" ==> Valid()
    {
      var taken := GetProfileId(newname);
      if taken > 0 {
        return true, 0;
      }
      var found := GetProfileId(oldname);
      if found <= 0 {
        return true, 0;
      }
      NewName(entries, found, newname);
      NewNameKeeps(entries, found, newname);
      entries := entries[InProfile(found, NAME) := StringVal(newname)];
      return false, found;
    }

    /** A setting of the current profile; the name is changed only by renaming. */
    method SetSetting(path: Path, v: Value)
      requires Valid() && path != NAME
      modifies this`entries
      ensures Valid() && entries == old(entries)[InProfile(currentProfileId, path) := v]
    {
      hide NameOf, Lower;
      SettingKeeps(entries, currentProfileId, path, v);
      entries := entries[InProfile(currentProfileId, path) := v];
    }
  }

  /** Nothing but a new profile without a name. */
  ghost predicate LeftUnnamed(m: Store, id: int, n: Store) {
    FirstFree(m, id) && n == m[InProfile(id, NAME) := StringVal("")]
  }

  lemma SettingKeeps(m: Store, id: int, path: Path, v: Value)
    requires id in Ids(m) && path != NAME
    ensures Ids(m[InProfile(id, path) := v]) == Ids(m)
    ensures forall j :: NameOf(m[InProfile(id, path) := v], j) == NameOf(m, j)
  {
    var n := m[InProfile(id, path) := v];
    forall j | j in Ids(m) ensures j in Ids(n) {
      var k :| k in m && k.InProfile? && k.id == j;
      assert k in n;
    }
  }

  /** What deleting profile id makes of a store and its current profile. */
  ghost predicate Deleted(m: Store, current: int, id: int, n: Store, now: int) {
    var rest := Without(m, id);
    if Ids(rest) == {} then
      now == 1 && n == rest[InProfile(1, NAME) := StringVal(DEFAULT_PROFILE_NAME)][CURRENT := IntVal(1)]
    else if id == current then now in Ids(rest) && n == rest[CURRENT := IntVal(now)]
    else now == current && n == rest
  }

  lemma SameSource(m: Store, n: Store, src: int, dst: int, path: Path, gs: set<string>)
    requires src != dst && forall k :: Get(n, k) == PartlyCopied(m, src, dst, path, gs, {}, k)
    ensures forall p :: Get(n, InProfile(src, p)) == Get(m, InProfile(src, p))
    ensures forall p :: InProfile(src, p) in n ==> InProfile(src, p) in m
  {
    forall p ensures Get(n, InProfile(src, p)) == Get(m, InProfile(src, p)) {
      assert Get(n, InProfile(src, p)) == PartlyCopied(m, src, dst, path, gs, {}, InProfile(src, p));
    }
    forall p | InProfile(src, p) in n ensures InProfile(src, p) in m {
      assert Get(n, InProfile(src, p)) == Get(m, InProfile(src, p));
    }
  }

  lemma SameLeaves(m: Store, n: Store, src: int, dst: int, path: Path, gs: set<string>)
    requires src != dst && forall k :: Get(n, k) == PartlyCopied(m, src, dst, path, gs, {}, k)
    ensures Leaves(m, src, path) == Leaves(n, src, path)
  {
    SameSource(m, n, src, dst, path, gs);
    forall e | e in Leaves(m, src, path) ensures e in Leaves(n, src, path) {
      LeafPath(m, src, path, e);
      assert Get(n, InProfile(src, path + [e])) == Get(m, InProfile(src, path + [e]));
      assert InProfile(src, path + [e]) in n && path < path + [e];
    }
    forall e | e in Leaves(n, src, path) ensures e in Leaves(m, src, path) {
      LeafPath(n, src, path, e);
      assert InProfile(src, path + [e]) in m && path < path + [e];
    }
  }

  lemma GroupDepth(m: Store, src: int, path: Path, g: string, depth: nat)
    requires g in Groups(m, src, path) && forall p :: InProfile(src, p) in m ==> |p| <= |path| + depth
    ensures depth >= 2
  {
    var k :| k in m && k.InProfile? && k.id == src && path < k.path && |k.path| > |path| + 1 && k.path[|path|] == g;
    assert InProfile(src, k.path) in m;
  }

  ghost function LongestPath(m: Store): (n: nat)
    ensures forall k :: k in m ==> |k.path| <= n
    decreases |m|
  {
    if m == map[] then 0
    else
      var k :| k in m;
      var rest := map j | j in m && j != k :: m[j];
      assert rest.Keys == m.Keys - {k};
      var n := LongestPath(rest);
      if n > |k.path| then n else |k.path|
  }

  /** The entry at k after profile src has been cloned into the new profile dst. */
  function Cloned(m: Store, src: int, dst: int, dest: string, k: Key): Option<Value> {
    if k == InProfile(dst, NAME) then Some(StringVal(dest)) else Copied(m, src, dst, [], k)
  }

  lemma CloneStep(m: Store, made: Store, copied: Store, src: int, dst: int, dest: string, k: Key)
    requires src != dst && made == m[InProfile(dst, NAME) := StringVal(dest)]
    requires Get(copied, k) == Copied(made, src, dst, [], k)
    ensures Get(copied[InProfile(dst, NAME) := StringVal(dest)], k) == Cloned(m, src, dst, dest, k)
  {
  }

  lemma CloneKeeps(m: Store, n: Store, src: int, dst: int, dest: string)
    requires WellNamed(m) && src in Ids(m) && dst !in Ids(m) && dst >= 1 && dest != "" && !Taken(m, dest)
    requires forall k :: Get(n, k) == Cloned(m, src, dst, dest, k)
    ensures WellNamed(n) && Ids(n) == Ids(m) + {dst} && Get(n, CURRENT) == Get(m, CURRENT)
  {
    assert Get(n, CURRENT) == Cloned(m, src, dst, dest, CURRENT);
    assert Get(n, InProfile(dst, NAME)) == Cloned(m, src, dst, dest, InProfile(dst, NAME));
    forall j | j != dst ensures NameOf(n, j) == NameOf(m, j) && (j in Ids(n) <==> j in Ids(m)) {
      assert Get(n, InProfile(j, NAME)) == Cloned(m, src, dst, dest, InProfile(j, NAME));
      if j in Ids(m) {
        var k :| k in m && k.InProfile? && k.id == j;
        assert Get(n, k) == Cloned(m, src, dst, dest, k);
      }
      if j in Ids(n) {
        var k :| k in n && k.InProfile? && k.id == j;
        assert Get(n, k) == Cloned(m, src, dst, dest, k);
      }
    }
  }
}
