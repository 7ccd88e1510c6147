/**
 A temporary profile: it is made current, edited, and then either committed under a real name or dropped, and
 dropping it leaves no trace unless one was left over from before.
 */
module TempProfile {
  import opened ConfigStore

  /** The two stores agree outside one profile and the number of the current profile. */
  ghost predicate SameOutside(m: Store, n: Store, id: int) {
    forall k :: k != CURRENT && !(k.InProfile? && k.id == id) ==> Get(m, k) == Get(n, k)
  }

  lemma EntryHasId(m: Store, k: Key)
    ensures k in m && k.InProfile? ==> k.id in Ids(m)
  {
  }

  lemma DroppedIsSaved(saved: Store, current: int, n: Store, id: int)
    requires Live(saved, current) && id !in Ids(saved) && SameOutside(saved, n, id)
    ensures Without(n[CURRENT := IntVal(current)], id) == saved
    ensures Without(n, id)[CURRENT := IntVal(current)] == saved
  {
    var r := Without(n[CURRENT := IntVal(current)], id);
    forall k ensures Get(r, k) == Get(saved, k) {
      if k.InProfile? && k.id == id {
        EntryHasId(saved, k);
      } else if k != CURRENT {
        assert Get(saved, k) == Get(n, k);
      }
    }
    SameEntries(r, saved);
    assert Without(n, id)[CURRENT := IntVal(current)] == r;
  }

  lemma SameEntries(m: Store, n: Store)
    requires forall k :: Get(m, k) == Get(n, k)
    ensures m == n
  {
    forall k | k in m ensures k in n && m[k] == n[k] {
      assert Get(m, k) == Get(n, k);
    }
    forall k | k in n ensures k in m {
      assert Get(m, k) == Get(n, k);
    }
  }

  lemma IdsOutside(saved: Store, n: Store, id: int)
    requires SameOutside(saved, n, id) && id !in Ids(saved)
    ensures Ids(n) - {id} == Ids(saved)
    ensures forall j :: j != id ==> NameOf(n, j) == NameOf(saved, j)
  {
    forall j ensures j in Ids(saved) <==> j in Ids(n) && j != id {
      if j in Ids(saved) {
        var k :| k in saved && k.InProfile? && k.id == j;
        assert Get(saved, k) == Get(n, k);
      }
      if j in Ids(n) && j != id {
        var k :| k in n && k.InProfile? && k.id == j;
        assert Get(saved, k) == Get(n, k);
      }
    }
    forall j | j != id ensures NameOf(n, j) == NameOf(saved, j) {
      assert Get(saved, InProfile(j, NAME)) == Get(n, InProfile(j, NAME));
    }
  }

  lemma DefaultIsNotTemp()
    ensures !SameName(DEFAULT_PROFILE_NAME, TEMP_NAME)
  {
    assert |Lower(DEFAULT_PROFILE_NAME)| != |Lower(TEMP_NAME)|;
  }

  /** Once the profile with a name is deleted, the name is free, also when the default profile had to be created. */
  lemma DeletedIsFree(m: Store, current: int, id: int, n: Store, now: int)
    requires WellNamed(m) && id in Ids(m) && SameName(NameOf(m, id), TEMP_NAME) && Deleted(m, current, id, n, now)
    ensures !Taken(n, TEMP_NAME)
  {
    var rest := Without(m, id);
    WithoutKeeps(m, id);
    DefaultIsNotTemp();
    GlobalKeeps(rest, IntVal(now));
    if Ids(rest) == {} {
      var made := rest[InProfile(1, NAME) := StringVal(DEFAULT_PROFILE_NAME)];
      NewName(rest, 1, DEFAULT_PROFILE_NAME);
      GlobalKeeps(made, IntVal(1));
    }
  }

  class AutoTempProfile {
    const cfg: PhdConfig
    var prev: string
    var name: string
    // the store and its current profile before, and the number of the temporary profile
    ghost var saved: Store
    ghost var savedCurrent: int
    ghost var id: int

    /** Not committed yet, and nothing but the temporary profile has changed. */
    ghost predicate Pending()
      reads this, cfg
    {
      && cfg.Valid() && WellNamed(saved) && Live(saved, savedCurrent)
      && name == TEMP_NAME && prev != "" && prev == NameOf(saved, savedCurrent)
      && id !in Ids(saved) && id in Ids(cfg.entries) && cfg.currentProfileId == id
      && SameName(NameOf(cfg.entries, id), TEMP_NAME)
      && SameOutside(saved, cfg.entries, id)
    }

    constructor (cfg: PhdConfig)
      requires cfg.Valid()
      modifies cfg
      ensures cfg.Valid() && this.cfg == cfg && name == TEMP_NAME && prev != ""
      ensures prev == NameOf(old(cfg.entries), old(cfg.currentProfileId))
      ensures Taken(cfg.entries, TEMP_NAME) && SameName(NameOf(cfg.entries, cfg.currentProfileId), TEMP_NAME)
      ensures !Taken(old(cfg.entries), TEMP_NAME) ==>
                Pending() && saved == old(cfg.entries) && savedCurrent == old(cfg.currentProfileId)
    {
      this.cfg := cfg;
      saved, savedCurrent, id := cfg.entries, cfg.currentProfileId, 0;
      prev, name := "", "";
      new;
      prev := cfg.GetCurrentProfile();
      cfg.DeleteProfile(TEMP_NAME);
      var err;
      err, id := cfg.SetCurrentProfile(TEMP_NAME);
      name := TEMP_NAME;
    }

    /** A setting made while the temporary profile is the current one. */
    method ApplySetting(path: Path, v: Value)
      requires Pending() && path != NAME
      modifies cfg
      ensures Pending()
      ensures cfg.entries == old(cfg.entries)[InProfile(id, path) := v]
    {
      SettingKeeps(cfg.entries, id, path, v);
      cfg.SetSetting(path, v);
    }

    method Commit(newname: string) returns (ok: bool)
      requires Pending() && newname != ""
      modifies this`prev, cfg
      ensures ok <==> !Taken(old(cfg.entries), newname)
      ensures !ok ==> Pending() && cfg.entries == old(cfg.entries)
      ensures ok ==> prev == "" && cfg.Valid() && cfg.currentProfileId == id
                     && cfg.entries == old(cfg.entries)[InProfile(id, NAME) := StringVal(newname)]
    {
      assert Taken(cfg.entries, name);
      var err;
      ghost var renamed;
      err, renamed := cfg.RenameProfile(name, newname);
      if err {
        return false;
      }
      prev := "";
      ok := true;
    }

    /** The destructor. */
    method Close()
      requires cfg.Valid() && name == TEMP_NAME
      requires prev != "" ==> SameName(NameOf(cfg.entries, cfg.currentProfileId), TEMP_NAME)
      modifies cfg
      ensures cfg.Valid()
      ensures prev == "" ==> cfg.entries == old(cfg.entries) && cfg.currentProfileId == old(cfg.currentProfileId)
      ensures prev != "" ==> !Taken(cfg.entries, TEMP_NAME)
      ensures old(Pending()) ==> cfg.entries == saved && cfg.currentProfileId == savedCurrent
    {
      if prev == "" {
        return;
      }
      ghost var pending, n := Pending(), cfg.entries;
      if pending {
        IdsOutside(saved, n, id);
        assert savedCurrent in Ids(n);
        assert Taken(n, prev);
      }
      ghost var was := cfg.currentProfileId;
      ghost var back;
      var err;
      err, back := cfg.SetCurrentProfile(prev);
      ghost var m, current := cfg.entries, cfg.currentProfileId;
      TempStays(n, was, m, back);
      cfg.DeleteProfile(name);
      ghost var gone :| gone in Ids(m) && SameName(NameOf(m, gone), TEMP_NAME)
                        && Deleted(m, current, gone, cfg.entries, cfg.currentProfileId);
      DeletedIsFree(m, current, gone, cfg.entries, cfg.currentProfileId);
      if pending {
        GlobalKeeps(n, IntVal(back));
        assert back == savedCurrent && gone == id;
        DroppedIsSaved(saved, savedCurrent, n, id);
      }
    }
  }

  /** Going back to the previous profile does not touch the temporary one. */
  lemma TempStays(n: Store, was: int, m: Store, back: int)
    requires was in Ids(n) && SameName(NameOf(n, was), TEMP_NAME) && WellNamed(n)
    requires m == n[CURRENT := IntVal(back)]
             || exists name :: back !in Ids(n)
                  && m == n[InProfile(back, NAME) := StringVal(name)][CURRENT := IntVal(back)]
    ensures Taken(m, TEMP_NAME)
  {
    var k :| k in n && k.InProfile? && k.id == was;
    assert k in m;
    assert was in Ids(m);
    if m != n[CURRENT := IntVal(back)] {
      assert back != was;
    }
    assert NameOf(m, was) == NameOf(n, was);
  }

  /** Opening and dropping a temporary profile restores store and current profile exactly if none was left over. */
  method OpenAndDrop(cfg: PhdConfig)
    requires cfg.Valid()
    modifies cfg
    ensures cfg.Valid()
    ensures cfg.entries == old(cfg.entries) && cfg.currentProfileId == old(cfg.currentProfileId)
            <==> !Taken(old(cfg.entries), TEMP_NAME)
  {
    var t := new AutoTempProfile(cfg);
    t.Close();
  }
}
