/**
 Sessions: the profile store under any sequence of commands. It stays sound exactly as long as no command leaves a
 profile without a name behind that shows as another one, and a profile keeps its settings until it is deleted.
 */
module ConfigRuns {
  import opened ConfigStore
  import opened Options

  type SettingPath = p: Path | p != NAME witness []

  datatype Command =
    | Create(name: string)
    | Select(name: string)
    | Clone(dest: string, source: string)
    | Delete(name: string)
    | Rename(oldname: string, newname: string)
    | Put(path: SettingPath, value: Value)

  datatype State = State(entries: Store, current: int)

  ghost predicate Sound(s: State) {
    WellNamed(s.entries) && Live(s.entries, s.current)
  }

  ghost predicate Called(m: Store, id: int, name: string) {
    id in Ids(m) && SameName(NameOf(m, id), name)
  }

  function Made(m: Store, id: int, name: string): Store {
    m[InProfile(id, NAME) := StringVal(name)]
  }

  /** What a command makes of s when it finds profile id under the name it looks up and free is the next number. */
  ghost predicate Step(c: Command, s: State, id: int, free: int, t: State) {
    var m := s.entries;
    match c
    case Create(name) =>
      if Taken(m, name) then t == s else FirstFree(m, free) && t == State(Made(m, free, name), s.current)
    case Select(name) =>
      if Taken(m, name) then Called(m, id, name) && t == State(m[CURRENT := IntVal(id)], id)
      else
        && FirstFree(m, free)
        && t == if name == "" then State(Made(m, free, name), s.current)
                else State(Made(m, free, name)[CURRENT := IntVal(free)], free)
    case Clone(dest, source) =>
      if !Taken(m, source) || Taken(m, dest) then t == s
      else
        && FirstFree(m, free) && t.current == s.current
        && if dest == "" then t.entries == Made(m, free, dest)
           else Called(m, id, source) && forall k :: Get(t.entries, k) == Cloned(m, id, free, dest, k)
    case Delete(name) =>
      if Taken(m, name) then Called(m, id, name) && Deleted(m, s.current, id, t.entries, t.current) else t == s
    case Rename(oldname, newname) =>
      if Taken(m, newname) || !Taken(m, oldname) then t == s
      else Called(m, id, oldname) && t == State(Made(m, id, newname), s.current)
    case Put(path, value) => t == State(m[InProfile(s.current, path) := value], s.current)
  }

  ghost predicate Effect(c: Command, s: State, t: State) {
    exists id, free :: Step(c, s, id, free, t)
  }

  /** The command leaves profile id without a name of its own. */
  ghost predicate Unnames(c: Command, m: Store, id: int) {
    match c
    case Create(name) => name == "" && FirstFree(m, id)
    case Select(name) => name == "" && FirstFree(m, id)
    case Clone(dest, source) => dest == "" && Taken(m, source) && FirstFree(m, id)
    case Rename(oldname, newname) => newname == "" && Called(m, id, oldname)
    case _ => false
  }

  /** The command leaves a profile without a name that shows as another profile. */
  ghost predicate Clashes(c: Command, m: Store) {
    exists id :: Unnames(c, m, id) && !Free(m, id, Fallback(id))
  }

  /** Every state follows from the one before by its command. */
  ghost predicate Session(commands: seq<Command>, states: seq<State>) {
    && |states| == |commands| + 1
    && forall i :: 0 <= i < |commands| ==> Effect(commands[i], states[i], states[i + 1])
  }

  // ----- one command

  /** No profile is called by the empty name. */
  lemma EmptyNeverTaken(m: Store)
    ensures !Taken(m, "")
  {
    forall id | id in Ids(m) ensures !SameName(NameOf(m, id), "") {
      assert |Lower(NameOf(m, id))| > 0 == |Lower("")|;
    }
  }

  lemma MadeSound(s: State, id: int, name: string)
    requires Sound(s) && id >= 1
    requires name == "" || !Taken(s.entries, name)
    ensures Sound(State(Made(s.entries, id, name), s.current))
            <==> (name == "" ==> Free(s.entries, id, Fallback(id)))
  {
    hide NameOf, Lower;
    NewName(s.entries, id, name);
    NewNameKeeps(s.entries, id, name);
  }

  lemma CurrentSound(s: State, id: int)
    requires WellNamed(s.entries) && id in Ids(s.entries)
    ensures Sound(State(s.entries[CURRENT := IntVal(id)], id))
  {
    hide NameOf, Lower;
    GlobalKeeps(s.entries, IntVal(id));
  }

  lemma DeletedSound(m: Store, current: int, id: int, n: Store, now: int)
    requires Sound(State(m, current)) && id in Ids(m) && Deleted(m, current, id, n, now)
    ensures Sound(State(n, now))
  {
    hide NameOf, Lower;
    var rest := Without(m, id);
    WithoutKeeps(m, id);
    if Ids(rest) == {} {
      NewName(rest, 1, DEFAULT_PROFILE_NAME);
      CurrentSound(State(Made(rest, 1, DEFAULT_PROFILE_NAME), current), 1);
    } else if id == current {
      CurrentSound(State(rest, current), now);
    }
  }

  lemma PutSound(s: State, path: SettingPath, value: Value)
    requires Sound(s)
    ensures Sound(State(s.entries[InProfile(s.current, path) := value], s.current))
  {
    hide NameOf, Lower;
    SettingKeeps(s.entries, s.current, path, value);
  }

  /** A command on a sound store leaves it sound exactly if it leaves no unnamed profile that shows as another. */
  lemma StepSound(c: Command, s: State, id: int, free: int, t: State)
    requires Sound(s) && Step(c, s, id, free, t)
    ensures Sound(t) <==> !Clashes(c, s.entries)
  {
    hide NameOf, Lower, Fallback, Deleted;
    var m := s.entries;
    EmptyNeverTaken(m);
    match c
    case Create(name) =>
      if !Taken(m, name) { MadeSound(s, free, name); }
    case Select(name) =>
      if Taken(m, name) {
        CurrentSound(s, id);
      } else {
        MadeSound(s, free, name);
        if name != "" {
          NewName(m, free, name);
          CurrentSound(State(Made(m, free, name), s.current), free);
        }
      }
    case Clone(dest, source) =>
      if Taken(m, source) && !Taken(m, dest) {
        if dest == "" { MadeSound(s, free, dest); } else { CloneKeeps(m, t.entries, id, free, dest); }
      }
    case Delete(name) =>
      if Taken(m, name) { DeletedSound(m, s.current, id, t.entries, t.current); }
    case Rename(oldname, newname) =>
      if !Taken(m, newname) && Taken(m, oldname) { MadeSound(s, id, newname); }
    case Put(path, value) => PutSound(s, path, value);
  }

  // ----- sessions

  ghost predicate AllSound(states: seq<State>) {
    forall i :: 0 <= i < |states| ==> Sound(states[i])
  }

  ghost predicate NoClash(commands: seq<Command>, states: seq<State>)
    requires |states| > |commands|
  {
    forall i :: 0 <= i < |commands| ==> !Clashes(commands[i], states[i].entries)
  }

  lemma AllSoundSnoc(states: seq<State>, s: State)
    ensures AllSound(states + [s]) <==> AllSound(states) && Sound(s)
  {
    var all := states + [s];
    assert all[|states|] == s;
    if AllSound(all) {
      forall i | 0 <= i < |states| ensures Sound(states[i]) {
        assert all[i] == states[i];
      }
    }
  }

  lemma NoClashSnoc(commands: seq<Command>, states: seq<State>, c: Command, t: State)
    requires |states| == |commands| + 1
    ensures NoClash(commands + [c], states + [t])
            <==> NoClash(commands, states) && !Clashes(c, states[|commands|].entries)
  {
    var all, n := commands + [c], |commands|;
    assert all[n] == c && (states + [t])[n] == states[n];
    if NoClash(all, states + [t]) {
      forall i | 0 <= i < n ensures !Clashes(commands[i], states[i].entries) {
        assert all[i] == commands[i];
      }
    }
  }

  /** In a session every state is sound exactly if no command leaves a clash of names behind. */
  lemma {:induction false} SessionSound(commands: seq<Command>, states: seq<State>)
    requires Session(commands, states) && Sound(states[0])
    ensures AllSound(states) <==> NoClash(commands, states)
  {
    if commands == [] {
    } else {
      var n := |commands| - 1;
      var before, c, t := states[..n + 1], commands[n], states[n + 1];
      assert commands == commands[..n] + [c] && states == before + [t];
      SessionSound(commands[..n], before);
      assert Effect(c, states[n], t);
      var id, free :| Step(c, states[n], id, free, t);
      AllSoundSnoc(before, t);
      NoClashSnoc(commands[..n], before, c, t);
      if AllSound(before) {
        assert Sound(before[n]);
        StepSound(c, states[n], id, free, t);
      }
    }
  }

  /** A sound store on which creating a profile without a name leaves two profiles called the same. */
  lemma ClashSession()
    ensures exists s, t :: Session([Create("")], [s, t]) && Sound(s) && !Sound(t)
  {
    var m: Store := map[InProfile(1, NAME) := StringVal("Profile 2"), CURRENT := IntVal(1)];
    var s, t := State(m, 1), State(Made(m, 2, ""), 1);
    UnnamedClash();
    assert InProfile(1, NAME) in m;
    assert Ids(m) == {1};
    assert Step(Create(""), s, 1, 2, t);
    assert Effect([Create("")][0], s, t);
    assert Session([Create("")], [s, t]);
  }

  predicate GivesNames(c: Command) {
    match c
    case Create(name) => name != ""
    case Select(name) => name != ""
    case Clone(dest, _) => dest != ""
    case Rename(_, newname) => newname != ""
    case _ => true
  }

  /** Whatever the sequence of commands, if they give names the names stay distinct and the current profile exists. */
  lemma NamedSessionSound(commands: seq<Command>, states: seq<State>)
    requires Session(commands, states) && Sound(states[0])
    requires forall i :: 0 <= i < |commands| ==> GivesNames(commands[i])
    ensures AllSound(states)
  {
    SessionSound(commands, states);
  }

  // ----- what a session leaves alone

  /** The command deletes profile id or changes a setting of it. */
  ghost predicate Touches(c: Command, s: State, id: int) {
    match c
    case Delete(name) => Called(s.entries, id, name)
    case Put(_, _) => id == s.current
    case _ => false
  }

  /** Profile id has the same settings in both stores, its name aside. */
  ghost predicate SameSettings(m: Store, n: Store, id: int) {
    forall path: SettingPath :: Get(m, InProfile(id, path)) == Get(n, InProfile(id, path))
  }

  lemma StepLeaves(c: Command, s: State, id: int, free: int, t: State, p: int)
    requires Sound(s) && Step(c, s, id, free, t) && p in Ids(s.entries) && !Touches(c, s, p)
    ensures p in Ids(t.entries) && SameSettings(s.entries, t.entries, p)
  {
    hide NameOf, Lower, Fallback, SameName;
    var m, n := s.entries, t.entries;
    forall path: SettingPath ensures Get(m, InProfile(p, path)) == Get(n, InProfile(p, path)) {
      if c.Clone? && Taken(m, c.source) && !Taken(m, c.dest) && c.dest != "" {
        assert Get(n, InProfile(p, path)) == Cloned(m, id, free, c.dest, InProfile(p, path));
      }
    }
    StaysThere(c, s, id, free, t, p);
  }

  lemma StaysThere(c: Command, s: State, id: int, free: int, t: State, p: int)
    requires Sound(s) && Step(c, s, id, free, t) && p in Ids(s.entries) && !Touches(c, s, p)
    ensures p in Ids(t.entries)
  {
    hide NameOf, Lower, Fallback, SameName;
    var m, n := s.entries, t.entries;
    var k :| k in m && k.InProfile? && k.id == p;
    if c.Clone? && Taken(m, c.source) && !Taken(m, c.dest) && c.dest != "" {
      assert Get(n, k) == Cloned(m, id, free, c.dest, k);
    }
    assert k in n;
  }

  /** A profile keeps its settings over any session in which it is neither deleted nor current when one is changed. */
  lemma {:induction false} SettingsKept(commands: seq<Command>, states: seq<State>, p: int)
    requires Session(commands, states) && AllSound(states)
    requires p in Ids(states[0].entries)
    requires forall i :: 0 <= i < |commands| ==> !Touches(commands[i], states[i], p)
    ensures p in Ids(states[|commands|].entries)
    ensures SameSettings(states[0].entries, states[|commands|].entries, p)
  {
    if commands == [] {
    } else {
      var n := |commands| - 1;
      SettingsKept(commands[..n], states[..n + 1], p);
      assert Effect(commands[n], states[n], states[n + 1]);
      var id, free :| Step(commands[n], states[n], id, free, states[n + 1]);
      StepLeaves(commands[n], states[n], id, free, states[n + 1], p);
    }
  }

  /** A clone has every setting of its source under the new name, and nothing else of the store has changed. */
  lemma CloneIsCopy(c: Command, s: State, id: int, free: int, t: State)
    requires c.Clone? && c.dest != "" && Sound(s) && Step(c, s, id, free, t)
    requires Taken(s.entries, c.source) && !Taken(s.entries, c.dest)
    ensures id in Ids(s.entries) && SameName(NameOf(s.entries, id), c.source) && free !in Ids(s.entries)
    ensures Get(t.entries, InProfile(free, NAME)) == Some(StringVal(c.dest))
    ensures forall path: SettingPath :: path != [] ==>
              Get(t.entries, InProfile(free, path)) == Get(s.entries, InProfile(id, path))
    ensures forall k: Key :: (k.InProfile? ==> k.id != free) ==> Get(t.entries, k) == Get(s.entries, k)
  {
    hide NameOf, SameName;
    var m, n := s.entries, t.entries;
    forall k: Key ensures Get(n, k) == Cloned(m, id, free, c.dest, k) {
    }
    assert Get(n, InProfile(free, NAME)) == Cloned(m, id, free, c.dest, InProfile(free, NAME));
    forall path: SettingPath | path != [] ensures Get(n, InProfile(free, path)) == Get(m, InProfile(id, path)) {
      assert Get(n, InProfile(free, path)) == Cloned(m, id, free, c.dest, InProfile(free, path));
      assert [] < path;
      assert InProfile(free, path) in m ==> free in Ids(m);
    }
    forall k: Key | k.InProfile? ==> k.id != free ensures Get(n, k) == Get(m, k) {
      assert Get(n, k) == Cloned(m, id, free, c.dest, k);
    }
  }

  /** Entries outside the profiles, but for the number of the current one, are never touched. */
  lemma StepLeavesGlobals(c: Command, s: State, id: int, free: int, t: State, k: Key)
    requires Step(c, s, id, free, t) && k.InGlobal? && k != CURRENT
    ensures Get(t.entries, k) == Get(s.entries, k)
  {
    hide NameOf, SameName, Fallback;
    if c.Clone? && Taken(s.entries, c.source) && !Taken(s.entries, c.dest) && c.dest != "" {
      assert Get(t.entries, k) == Cloned(s.entries, id, free, c.dest, k);
    }
  }

  lemma {:induction false} GlobalsKept(commands: seq<Command>, states: seq<State>, k: Key)
    requires Session(commands, states) && k.InGlobal? && k != CURRENT
    ensures Get(states[|commands|].entries, k) == Get(states[0].entries, k)
  {
    hide Step;
    if commands == [] {
    } else {
      var n := |commands| - 1;
      GlobalsKept(commands[..n], states[..n + 1], k);
      assert Effect(commands[n], states[n], states[n + 1]);
      var id, free :| Step(commands[n], states[n], id, free, states[n + 1]);
      StepLeavesGlobals(commands[n], states[n], id, free, states[n + 1], k);
    }
  }

  /** Carries out a command; its effect is the one a session is made of. */
  method Perform(cfg: PhdConfig, c: Command)
    requires cfg.Valid()
    modifies cfg
    ensures Effect(c, State(old(cfg.entries), old(cfg.currentProfileId)), State(cfg.entries, cfg.currentProfileId))
    ensures GivesNames(c) ==> cfg.Valid()
  {
    hide NameOf, Lower, Fallback, SameName;
    ghost var s, id, free := State(cfg.entries, cfg.currentProfileId), 0, 0;
    var err;
    EmptyNeverTaken(s.entries);
    match c {
      case Create(name) =>
        err, free := cfg.CreateProfile(name);
      case Select(name) =>
        err, id := cfg.SetCurrentProfile(name);
        free := id;
        GlobalKeeps(s.entries, IntVal(id));
      case Clone(dest, source) =>
        err, id, free := cfg.CloneProfile(dest, source);
      case Delete(name) =>
        cfg.DeleteProfile(name);
        if Taken(s.entries, name) {
          id :| Called(s.entries, id, name) && Deleted(s.entries, s.current, id, cfg.entries, cfg.currentProfileId);
        }
      case Rename(oldname, newname) =>
        err, id := cfg.RenameProfile(oldname, newname);
      case Put(path, value) =>
        cfg.SetSetting(path, value);
    }
    assert Step(c, s, id, free, State(cfg.entries, cfg.currentProfileId));
  }
}
