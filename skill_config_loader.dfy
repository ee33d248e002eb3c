/** The hot-reloading configuration store of Battle/Config/SkillConfigLoader.cs: skill and buff
    tables filled from the JSON files of two directories with first-wins de-duplication, the
    last-write times of the files read, and the check that decides whether to reload.

    The file system is an input: a directory is `Missing` or lists its files, and each file
    carries its last-write time and its entries, `None` where reading or parsing it fails. */
module ConfigLoader {
  import opened Common
  import opened ConfigData
  import ConfigValidator

  /** A configured buff, keyed by a string id (`None` where the JSON id is null). */
  datatype BuffConfigData = BuffConfigData(
    buffId: Option<string>,
    buffName: string,
    description: string,
    buffType: EffectType,
    isVisible: bool,
    icon: string,
    maxStacks: int,
    defaultDuration: int,
    dispelType: string,
    immunityTags: seq<string>,
    attributeModifiers: seq<AttributeModifierData>)

  /** One `*.json` file of a configuration directory. */
  datatype ConfigFile<T> = ConfigFile(path: string, timestamp: int, entries: Option<seq<T>>)

  /** A configuration directory as the loader finds it. */
  datatype ConfigDirectory<T> = Missing | Present(files: seq<ConfigFile<T>>)

  // ---------------------------------------------------------------- first-wins tables

  /** The table a run of entries fills when each entry goes in under its key unless the key is
      already taken; an entry with no key is skipped. */
  function FirstWins<K, V>(key: V -> Option<K>, entries: seq<V>): map<K, V>
  {
    if entries == [] then map[]
    else
      var table := FirstWins(key, entries[..|entries| - 1]);
      var last := entries[|entries| - 1];
      if key(last).None? || key(last).value in table then table else table[key(last).value := last]
  }

  /** The key of a skill: its id. */
  function SkillKey(c: SkillConfigData): Option<int>
  {
    Some(c.skillId)
  }

  /** The key of a buff: its id, or none where the id is null or empty. */
  function BuffKey(b: BuffConfigData): Option<string>
  {
    if b.buffId.None? || b.buffId.value == "" then None else b.buffId
  }

  /** A key is in the table exactly when some entry carries it, and the entry kept under it is
      the first one that does. */
  lemma {:induction false} FirstWinsKeepsFirst<K, V>(key: V -> Option<K>, entries: seq<V>, k: K)
    ensures k in FirstWins(key, entries) <==> exists i :: 0 <= i < |entries| && key(entries[i]) == Some(k)
    ensures k in FirstWins(key, entries) ==>
      exists i :: 0 <= i < |entries| && key(entries[i]) == Some(k) && FirstWins(key, entries)[k] == entries[i]
        && forall j :: 0 <= j < i ==> key(entries[j]) != Some(k)
  {
    if entries != [] {
      var front := entries[..|entries| - 1];
      var last := entries[|entries| - 1];
      var table := FirstWins(key, front);
      FirstWinsKeepsFirst(key, front, k);
      assert forall i :: 0 <= i < |front| ==> entries[i] == front[i];
      if k in table {
        var i :| 0 <= i < |front| && key(front[i]) == Some(k) && table[k] == front[i]
          && forall j :: 0 <= j < i ==> key(front[j]) != Some(k);
        assert key(entries[i]) == Some(k);
      } else if key(last) == Some(k) {
        assert key(entries[|front|]) == Some(k);
        forall j | 0 <= j < |front|
          ensures key(entries[j]) != Some(k)
        {
          assert key(front[j]) != Some(k);
        }
      } else {
        forall i | 0 <= i < |entries|
          ensures key(entries[i]) != Some(k)
        {
          if i < |front| {
            assert key(front[i]) != Some(k);
          }
        }
      }
    }
  }

  /** The entries of every readable file, file after file, each file's in order. */
  function Loaded<T>(files: seq<ConfigFile<T>>): seq<T>
  {
    if files == [] then []
    else
      var last := files[|files| - 1];
      Loaded(files[..|files| - 1]) + (if last.entries.Some? then last.entries.value else [])
  }

  /** Every entry of every readable file is loaded, and nothing else. */
  lemma {:induction false} LoadedFromReadableFiles<T>(files: seq<ConfigFile<T>>, x: T)
    ensures x in Loaded(files) <==> exists f :: 0 <= f < |files| && files[f].entries.Some? && x in files[f].entries.value
  {
    if files != [] {
      var front := files[..|files| - 1];
      LoadedFromReadableFiles(front, x);
      assert forall f :: 0 <= f < |front| ==> files[f] == front[f];
      if x in Loaded(front) {
        var f :| 0 <= f < |front| && front[f].entries.Some? && x in front[f].entries.value;
        assert files[f].entries.Some? && x in files[f].entries.value;
      }
    }
  }

  /** What `LoadSkillConfigs` leaves in the skill table: nothing for a missing directory. */
  function SkillTable(dir: ConfigDirectory<SkillConfigData>): map<int, SkillConfigData>
  {
    if dir.Missing? then map[] else FirstWins(SkillKey, Loaded(dir.files))
  }

  /** What `LoadBuffConfigs` leaves in the buff table: nothing for a missing directory. */
  function BuffTable(dir: ConfigDirectory<BuffConfigData>): map<string, BuffConfigData>
  {
    if dir.Missing? then map[] else FirstWins(BuffKey, Loaded(dir.files))
  }

  /** The skill table holds an id exactly when a readable file lists a skill with it, and keeps
      the first such skill in file order. */
  lemma SkillTableFirstWins(dir: ConfigDirectory<SkillConfigData>, id: int)
    requires dir.Present?
    ensures id in SkillTable(dir) <==> exists c :: c in Loaded(dir.files) && c.skillId == id
    ensures id in SkillTable(dir) ==>
      var s := Loaded(dir.files);
      exists i :: 0 <= i < |s| && SkillTable(dir)[id] == s[i] && s[i].skillId == id
        && forall j :: 0 <= j < i ==> s[j].skillId != id
  {
    var s := Loaded(dir.files);
    FirstWinsKeepsFirst(SkillKey, s, id);
    if id in SkillTable(dir) {
      var i :| 0 <= i < |s| && SkillKey(s[i]) == Some(id) && SkillTable(dir)[id] == s[i]
        && forall j :: 0 <= j < i ==> SkillKey(s[j]) != Some(id);
      assert s[i] in s;
      forall j | 0 <= j < i
        ensures s[j].skillId != id
      {
        assert SkillKey(s[j]) != Some(id);
      }
    } else {
      forall c | c in s
        ensures c.skillId != id
      {
        var i :| 0 <= i < |s| && s[i] == c;
        assert SkillKey(s[i]) != Some(id);
      }
    }
  }

  /** The buff table holds exactly the non-empty ids some readable file lists, and keeps the
      first buff with each. */
  lemma BuffTableFirstWins(dir: ConfigDirectory<BuffConfigData>, id: string)
    requires dir.Present?
    ensures id in BuffTable(dir) <==> id != "" && exists b :: b in Loaded(dir.files) && b.buffId == Some(id)
    ensures id in BuffTable(dir) ==>
      var s := Loaded(dir.files);
      exists i :: 0 <= i < |s| && BuffTable(dir)[id] == s[i] && s[i].buffId == Some(id)
        && forall j :: 0 <= j < i ==> s[j].buffId != Some(id)
  {
    var s := Loaded(dir.files);
    FirstWinsKeepsFirst(BuffKey, s, id);
    if id in BuffTable(dir) {
      var i :| 0 <= i < |s| && BuffKey(s[i]) == Some(id) && BuffTable(dir)[id] == s[i]
        && forall j :: 0 <= j < i ==> BuffKey(s[j]) != Some(id);
      assert s[i] in s;
      forall j | 0 <= j < i
        ensures s[j].buffId != Some(id)
      {
        assert BuffKey(s[j]) != Some(id);
      }
    } else {
      forall b | b in s
        ensures !(id != "" && b.buffId == Some(id))
      {
        var i :| 0 <= i < |s| && s[i] == b;
        assert BuffKey(s[i]) != Some(id);
      }
    }
  }

  // ---------------------------------------------------------------- timestamps

  /** The recorded write times after reading the files: each readable file's time is recorded
      under its path, over whatever was recorded before; unreadable files leave no trace. */
  function Recorded<T>(before: map<string, int>, files: seq<ConfigFile<T>>): map<string, int>
  {
    if files == [] then before
    else
      var table := Recorded(before, files[..|files| - 1]);
      var last := files[|files| - 1];
      if last.entries.Some? then table[last.path := last.timestamp] else table
  }

  /** The timestamps a load of a directory records; a missing directory records nothing. */
  function RecordedFrom<T>(before: map<string, int>, dir: ConfigDirectory<T>): map<string, int>
  {
    if dir.Missing? then before else Recorded(before, dir.files)
  }

  /** A path is recorded exactly when it was before or a readable file has it; a readable file
      with no later readable namesake has its own time recorded; earlier records of paths that
      were not read again are kept. */
  lemma {:induction false} RecordedTimes<T>(before: map<string, int>, files: seq<ConfigFile<T>>, p: string)
    ensures p in Recorded(before, files) <==>
      p in before || exists f :: 0 <= f < |files| && files[f].entries.Some? && files[f].path == p
    ensures forall f :: (0 <= f < |files| && files[f].entries.Some? && files[f].path == p
                         && forall g :: f < g < |files| && files[g].entries.Some? ==> files[g].path != p)
                        ==> Recorded(before, files)[p] == files[f].timestamp
    ensures p in before && (forall f :: 0 <= f < |files| && files[f].entries.Some? ==> files[f].path != p)
      ==> Recorded(before, files)[p] == before[p]
  {
    if files != [] {
      var front := files[..|files| - 1];
      RecordedTimes(before, front, p);
      assert forall f :: 0 <= f < |front| ==> files[f] == front[f];
      if p in Recorded(before, front) && !(p in before) {
        var f :| 0 <= f < |front| && front[f].entries.Some? && front[f].path == p;
        assert files[f].entries.Some? && files[f].path == p;
      }
    }
  }

  // ---------------------------------------------------------------- validation and change check

  /** `ValidateSkillConfig`: a positive id and at least one effect. */
  predicate LoaderAccepts(c: SkillConfigData)
  {
    c.skillId > 0 && HasEffects(c)
  }

  /** The loader's check is the weaker half of the full validator: whatever the validator
      accepts the loader accepts, and where the loader accepts, the validator can only complain
      about the cost or the target count. */
  lemma LoaderCheckWeakerThanValidator(c: SkillConfigData)
    ensures ConfigValidator.ConfigErrors(Some(c)) == [] ==> LoaderAccepts(c)
    ensures LoaderAccepts(c) ==> forall e :: e in ConfigValidator.ConfigErrors(Some(c)) ==>
      e == ConfigValidator.MSG_NEGATIVE_COST || e == ConfigValidator.MSG_BAD_TARGET_COUNT
    ensures LoaderAccepts(c) && c.revolutionCost >= 0 && c.targetCount > 0 ==>
      ConfigValidator.ConfigErrors(Some(c)) == []
  {
    if LoaderAccepts(c) {
      assert ConfigValidator.BasicErrors(c) ==
        (if c.revolutionCost < 0 then [ConfigValidator.MSG_NEGATIVE_COST] else [])
        + (if c.targetCount <= 0 then [ConfigValidator.MSG_BAD_TARGET_COUNT] else []);
    }
  }

  /** The ids among `keys` whose skills the loader rejects. */
  function Rejected(table: map<int, SkillConfigData>, keys: set<int>): set<int>
  {
    set id | id in keys && id in table && !LoaderAccepts(table[id])
  }

  /** Looking at one more id adds it to the rejected ones exactly when its skill is rejected. */
  lemma RejectedGrow(table: map<int, SkillConfigData>, seen: set<int>, id: int)
    requires id in table && id !in seen
    ensures |Rejected(table, seen + {id})| == |Rejected(table, seen)| + (if LoaderAccepts(table[id]) then 0 else 1)
  {
    if LoaderAccepts(table[id]) {
      assert Rejected(table, seen + {id}) == Rejected(table, seen);
    } else {
      assert Rejected(table, seen + {id}) == Rejected(table, seen) + {id};
    }
  }

  /** Some tracked file still exists and was written after the recorded time. */
  predicate ChangeDetected(tracked: map<string, int>, current: map<string, int>)
  {
    exists p :: p in tracked && p in current && current[p] > tracked[p]
  }

  /** Only tracked files count: a file that was never read successfully, or one that has been
      deleted, never triggers a reload. */
  lemma UntrackedFilesIgnored(tracked: map<string, int>, current: map<string, int>, p: string, t: int)
    ensures p !in tracked ==> (ChangeDetected(tracked, current[p := t]) <==> ChangeDetected(tracked, current))
    ensures ChangeDetected(tracked, current - {p}) ==> ChangeDetected(tracked, current)
    ensures p in tracked && p in current && current[p] <= tracked[p] ==>
      (ChangeDetected(tracked, current - {p}) <==> ChangeDetected(tracked, current))
  {
    if p !in tracked && ChangeDetected(tracked, current) {
      var q :| q in tracked && q in current && current[q] > tracked[q];
      assert q in current[p := t] && current[p := t][q] == current[q];
    }
    if p !in tracked && ChangeDetected(tracked, current[p := t]) {
      var q :| q in tracked && q in current[p := t] && current[p := t][q] > tracked[q];
      assert q != p;
    }
    if ChangeDetected(tracked, current - {p}) {
      var q :| q in tracked && q in current - {p} && (current - {p})[q] > tracked[q];
      assert q in current && current[q] > tracked[q];
    }
    if p in tracked && p in current && current[p] <= tracked[p] && ChangeDetected(tracked, current) {
      var q :| q in tracked && q in current && current[q] > tracked[q];
      assert q != p;
      assert q in current - {p};
    }
  }

  /** `SkillConfigLoader`: the two tables and the recorded file times. `current` in the change
      check maps each existing file to its last-write time. */
  class SkillConfigLoader {
    var skillConfigs: map<int, SkillConfigData>
    var buffConfigs: map<string, BuffConfigData>
    var configFileTimestamps: map<string, int>

    /** `InitializeConfig`: empty tables, then a full load. */
    constructor (skillDir: ConfigDirectory<SkillConfigData>, buffDir: ConfigDirectory<BuffConfigData>)
      ensures skillConfigs == SkillTable(skillDir) && buffConfigs == BuffTable(buffDir)
      ensures configFileTimestamps == RecordedFrom(RecordedFrom(map[], skillDir), buffDir)
    {
      skillConfigs := map[];
      buffConfigs := map[];
      configFileTimestamps := map[];
      new;
      LoadAllConfigs(skillDir, buffDir);
    }

    /** `LoadAllConfigs`: reload both tables, then count the rejected skills. */
    method LoadAllConfigs(skillDir: ConfigDirectory<SkillConfigData>, buffDir: ConfigDirectory<BuffConfigData>)
      modifies this
      ensures skillConfigs == SkillTable(skillDir) && buffConfigs == BuffTable(buffDir)
      ensures configFileTimestamps == RecordedFrom(RecordedFrom(old(configFileTimestamps), skillDir), buffDir)
    {
      LoadSkillConfigs(skillDir);
      LoadBuffConfigs(buffDir);
      var errorCount := ValidateConfigs();
    }

    /** `LoadSkillConfigs`: clear the skill table, then insert every skill of every readable
      file unless its id is already taken. */
    method LoadSkillConfigs(dir: ConfigDirectory<SkillConfigData>)
      modifies this`skillConfigs, this`configFileTimestamps
      ensures skillConfigs == SkillTable(dir)
      ensures configFileTimestamps == RecordedFrom(old(configFileTimestamps), dir)
    {
      skillConfigs := map[];
      if dir.Missing? {
        return;
      }
      var files := dir.files;
      for i := 0 to |files|
        invariant skillConfigs == FirstWins(SkillKey, Loaded(files[..i]))
        invariant configFileTimestamps == Recorded(old(configFileTimestamps), files[..i])
      {
        assert files[..i + 1][..i] == files[..i];
        assert Loaded(files[..i + 1]) == Loaded(files[..i]) + if files[i].entries.Some? then files[i].entries.value else [];
        if files[i].entries.Some? {
          InsertSkills(Loaded(files[..i]), files[i].entries.value);
          configFileTimestamps := configFileTimestamps[files[i].path := files[i].timestamp];
        } else {
          assert Loaded(files[..i]) + [] == Loaded(files[..i]);
        }
      }
      assert files[..|files|] == files;
    }

    /** The inner loop of `LoadSkillConfigs`: one file's skills, each unless its id is taken. */
    method InsertSkills(ghost before: seq<SkillConfigData>, skills: seq<SkillConfigData>)
      requires skillConfigs == FirstWins(SkillKey, before)
      modifies this`skillConfigs
      ensures skillConfigs == FirstWins(SkillKey, before + skills)
    {
      assert before + skills[..0] == before;
      for j := 0 to |skills|
        invariant skillConfigs == FirstWins(SkillKey, before + skills[..j])
      {
        assert (before + skills[..j + 1])[..|before| + j] == before + skills[..j];
        if skills[j].skillId !in skillConfigs {
          skillConfigs := skillConfigs[skills[j].skillId := skills[j]];
        }
      }
      assert skills[..|skills|] == skills;
    }

    /** `LoadBuffConfigs`: clear the buff table, then insert every buff of every readable file
      unless its id is null, empty or already taken. */
    method LoadBuffConfigs(dir: ConfigDirectory<BuffConfigData>)
      modifies this`buffConfigs, this`configFileTimestamps
      ensures buffConfigs == BuffTable(dir)
      ensures configFileTimestamps == RecordedFrom(old(configFileTimestamps), dir)
    {
      buffConfigs := map[];
      if dir.Missing? {
        return;
      }
      var files := dir.files;
      for i := 0 to |files|
        invariant buffConfigs == FirstWins(BuffKey, Loaded(files[..i]))
        invariant configFileTimestamps == Recorded(old(configFileTimestamps), files[..i])
      {
        assert files[..i + 1][..i] == files[..i];
        assert Loaded(files[..i + 1]) == Loaded(files[..i]) + if files[i].entries.Some? then files[i].entries.value else [];
        if files[i].entries.Some? {
          InsertBuffs(Loaded(files[..i]), files[i].entries.value);
          configFileTimestamps := configFileTimestamps[files[i].path := files[i].timestamp];
        } else {
          assert Loaded(files[..i]) + [] == Loaded(files[..i]);
        }
      }
      assert files[..|files|] == files;
    }

    /** The inner loop of `LoadBuffConfigs`: one file's buffs, each unless its id is null, empty
      or taken. */
    method InsertBuffs(ghost before: seq<BuffConfigData>, buffs: seq<BuffConfigData>)
      requires buffConfigs == FirstWins(BuffKey, before)
      modifies this`buffConfigs
      ensures buffConfigs == FirstWins(BuffKey, before + buffs)
    {
      assert before + buffs[..0] == before;
      for j := 0 to |buffs|
        invariant buffConfigs == FirstWins(BuffKey, before + buffs[..j])
      {
        assert (before + buffs[..j + 1])[..|before| + j] == before + buffs[..j];
        var buff := buffs[j];
        if buff.buffId.None? || buff.buffId.value == "" {
          continue;
        }
        if buff.buffId.value !in buffConfigs {
          buffConfigs := buffConfigs[buff.buffId.value := buff];
        }
      }
      assert buffs[..|buffs|] == buffs;
    }

    /** `ValidateConfigs`: the number of stored skills the loader's check rejects. */
    method ValidateConfigs() returns (errorCount: nat)
      ensures errorCount == |Rejected(skillConfigs, skillConfigs.Keys)|
    {
      errorCount := 0;
      var todo := skillConfigs.Keys;
      ghost var seen: set<int> := {};
      while todo != {}
        invariant forall id :: id in todo <==> id in skillConfigs && id !in seen
        invariant seen <= skillConfigs.Keys
        invariant errorCount == |Rejected(skillConfigs, seen)|
        decreases |todo|
      {
        ghost var member := NonEmptyHasMember(todo);
        var id :| id in todo;
        RejectedGrow(skillConfigs, seen, id);
        if !ValidateSkillConfig(skillConfigs[id]) {
          errorCount := errorCount + 1;
        }
        seen := seen + {id};
        todo := todo - {id};
      }
      assert forall id :: id in skillConfigs ==> id in seen;
      assert seen == skillConfigs.Keys;
    }

    /** `ValidateSkillConfig`. */
    function ValidateSkillConfig(c: SkillConfigData): (ok: bool)
      ensures ok <==> LoaderAccepts(c)
    {
      if c.skillId <= 0 then false
      else if c.effects.None? || |c.effects.value| == 0 then false
      else true
    }

    /** The scan of `CheckConfigChanges`: stops at the first tracked, still existing file whose
      write time is newer than the recorded one, in whatever order the table yields them. */
    method HasChanges(current: map<string, int>) returns (hasChanges: bool)
      ensures hasChanges <==> ChangeDetected(configFileTimestamps, current)
    {
      hasChanges := false;
      var todo := configFileTimestamps.Keys;
      while todo != {}
        invariant todo <= configFileTimestamps.Keys
        invariant forall p :: p in configFileTimestamps && p !in todo && p in current ==>
          current[p] <= configFileTimestamps[p]
        decreases |todo|
      {
        ghost var member := NonEmptyHasMember(todo);
        var p :| p in todo;
        if p in current && current[p] > configFileTimestamps[p] {
          hasChanges := true;
          break;
        }
        todo := todo - {p};
      }
    }

    /** `CheckConfigChanges`: reload everything when a tracked file changed, otherwise leave
      the store as it is. */
    method CheckConfigChanges(current: map<string, int>, skillDir: ConfigDirectory<SkillConfigData>,
                              buffDir: ConfigDirectory<BuffConfigData>) returns (reloaded: bool)
      modifies this
      ensures reloaded <==> ChangeDetected(old(configFileTimestamps), current)
      ensures reloaded ==>
        skillConfigs == SkillTable(skillDir) && buffConfigs == BuffTable(buffDir)
        && configFileTimestamps == RecordedFrom(RecordedFrom(old(configFileTimestamps), skillDir), buffDir)
      ensures !reloaded ==>
        skillConfigs == old(skillConfigs) && buffConfigs == old(buffConfigs)
        && configFileTimestamps == old(configFileTimestamps)
    {
      reloaded := HasChanges(current);
      if reloaded {
        LoadAllConfigs(skillDir, buffDir);
      }
    }

    /** `GetSkillConfig`: `None` (null) for an absent id. */
    function GetSkillConfig(skillId: int): (r: Option<SkillConfigData>)
      reads this
      ensures r.Some? <==> skillId in skillConfigs
      ensures r.Some? ==> r.value == skillConfigs[skillId] && r.value in skillConfigs.Values
    {
      if skillId in skillConfigs then Some(skillConfigs[skillId]) else None
    }

    /** `GetAllSkillConfigs`: a copy of the table; a map is a value, so changing the copy
      cannot reach the store. */
    method GetAllSkillConfigs() returns (copy: map<int, SkillConfigData>)
      ensures copy == skillConfigs
    {
      copy := map id | id in skillConfigs :: skillConfigs[id];
    }

    /** `ManualReload`. */
    method ManualReload(skillDir: ConfigDirectory<SkillConfigData>, buffDir: ConfigDirectory<BuffConfigData>)
      modifies this
      ensures skillConfigs == SkillTable(skillDir) && buffConfigs == BuffTable(buffDir)
      ensures configFileTimestamps == RecordedFrom(RecordedFrom(old(configFileTimestamps), skillDir), buffDir)
    {
      LoadAllConfigs(skillDir, buffDir);
    }
  }
}
