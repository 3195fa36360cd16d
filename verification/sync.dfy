/** Reconciling a repo's manifest with the skill and schedule tables. */
module Sync {
  import opened Options
  import opened Destinations
  import opened Schema
  import opened Cron
  import opened Machine

  type RepoId = nat

  // ----- config.Manifest -----

  /** One schedule of the manifest. `payload` stands for the JSON of destinations, writeback and env. */
  datatype ScheduleSpec = ScheduleSpec(
    name: string,
    cron: string,
    timezone: string,
    overlap: string,
    timeoutSec: int,
    provider: string,
    model: string,
    copilotPrefix: string,
    maxTurns: int,
    mcpEnv: set<string>,
    autoPauseAfter: Option<int>,
    destinations: seq<Destination>,
    payload: string)

  datatype SkillEntry = SkillEntry(path: string, schedules: seq<ScheduleSpec>)

  datatype Manifest = Manifest(version: int, skills: seq<SkillEntry>)

  /** A parsed SKILL.md. */
  datatype Skill = Skill(name: string, mcpServers: seq<string>, frontmatter: string)

  const MAX_INT32: int := 0x7fff_ffff

  ghost predicate ValidSpec(s: ScheduleSpec) {
    && s.name != "" && s.cron != "" && s.provider != "" && s.model != ""
    && (s.provider == "copilot-enterprise" ==> s.copilotPrefix != "")
    && 0 <= s.maxTurns <= MAX_INT32
    && s.overlap in {"", "skip", "queue", "concurrent"}
    && (s.autoPauseAfter.Some? ==> s.autoPauseAfter.value >= 1)
    && AllValid(s.destinations)
  }

  ghost predicate ValidEntry(e: SkillEntry) {
    && e.path != ""
    && (forall i :: 0 <= i < |e.schedules| ==> ValidSpec(e.schedules[i]))
    && (forall i, j :: 0 <= i < j < |e.schedules| ==> e.schedules[i].name != e.schedules[j].name)
  }

  ghost predicate ValidManifest(m: Manifest) {
    && m.version == 1
    && (forall i :: 0 <= i < |m.skills| ==> ValidEntry(m.skills[i]))
    && (forall i, j :: 0 <= i < j < |m.skills| ==> m.skills[i].path != m.skills[j].path)
  }

  /** The checks Validate makes on one schedule, in its order. */
  method CheckSpec(s: ScheduleSpec, seen: set<string>) returns (ok: bool)
    ensures ok <==> ValidSpec(s) && s.name !in seen
  {
    if s.name == "" || s.name in seen { return false; }
    if s.cron == "" || s.provider == "" || s.model == "" { return false; }
    if s.provider == "copilot-enterprise" && s.copilotPrefix == "" { return false; }
    if s.maxTurns < 0 || s.maxTurns > MAX_INT32 { return false; }
    if s.overlap !in {"", "skip", "queue", "concurrent"} { return false; }
    if s.autoPauseAfter.Some? && s.autoPauseAfter.value < 1 { return false; }
    ok := CheckDestinations(s.destinations);
  }

  method CheckEntry(e: SkillEntry) returns (ok: bool)
    ensures ok <==> ValidEntry(e)
  {
    if e.path == "" { return false; }
    var seen: set<string> := {};
    for i := 0 to |e.schedules|
      invariant seen == set k | 0 <= k < i :: e.schedules[k].name
      invariant forall k :: 0 <= k < i ==> ValidSpec(e.schedules[k])
      invariant forall j, k :: 0 <= j < k < i ==> e.schedules[j].name != e.schedules[k].name
    {
      var fine := CheckSpec(e.schedules[i], seen);
      if !fine {
        if e.schedules[i].name in seen {
          var k :| 0 <= k < i && e.schedules[k].name == e.schedules[i].name;
        }
        return false;
      }
      seen := seen + {e.schedules[i].name};
    }
    return true;
  }

  /** Manifest.Validate accepts exactly the valid manifests. */
  method Validate(m: Manifest) returns (ok: bool)
    ensures ok <==> ValidManifest(m)
  {
    if m.version != 1 { return false; }
    var seen: set<string> := {};
    for i := 0 to |m.skills|
      invariant seen == set k | 0 <= k < i :: m.skills[k].path
      invariant forall k :: 0 <= k < i ==> ValidEntry(m.skills[k])
      invariant forall j, k :: 0 <= j < k < i ==> m.skills[j].path != m.skills[k].path
    {
      if m.skills[i].path in seen {
        var k :| 0 <= k < i && m.skills[k].path == m.skills[i].path;
        return false;
      }
      var fine := CheckEntry(m.skills[i]);
      if !fine { return false; }
      seen := seen + {m.skills[i].path};
    }
    return true;
  }

  // ----- what a schedule of the manifest becomes -----

  /** Go's int32(x): the low 32 bits, as a signed number. */
  function Int32(x: int): (r: int)
    ensures -0x8000_0000 <= r <= MAX_INT32
    ensures -0x8000_0000 <= x <= MAX_INT32 ==> r == x
    ensures (r - x) % 0x1_0000_0000 == 0
  {
    (x + 0x8000_0000) % 0x1_0000_0000 - 0x8000_0000
  }

  function PolicyOf(overlap: string): Policy {
    if overlap == "" || overlap == "skip" then Skip
    else if overlap == "queue" then Queue
    else if overlap == "concurrent" then Concurrent
    else Unknown
  }

  function ZoneOf(s: ScheduleSpec): string {
    if s.timezone == "" then "UTC" else s.timezone
  }

  /** The row the INSERT proposes (EXCLUDED), apart from its id. */
  function Proposed(skill: SkillId, s: ScheduleSpec, fire: Time, at: Time): Schedule {
    Schedule(skill, s.name, s.cron, ZoneOf(s), PolicyOf(s.overlap),
             Int32(if s.timeoutSec == 0 then 600 else s.timeoutSec), true,
             Settings(s.provider, s.model, if s.maxTurns > 0 then Some(s.maxTurns) else None, s.mcpEnv,
                      if s.provider == "copilot-enterprise" && s.copilotPrefix != ""
                      then Some(s.copilotPrefix) else None, s.payload),
             s.autoPauseAfter,
             None, at, Some(fire), at)
  }

  /** ON CONFLICT (skill_id, name) DO UPDATE. */
  function Merged(before: Schedule, proposed: Schedule): Schedule {
    proposed.(
      autoPausedAt := before.autoPausedAt,
      lastEnabledAt := before.lastEnabledAt,
      nextFireAt :=
        if Rearms(before, proposed.cron, proposed.timezone) then proposed.nextFireAt else before.nextFireAt)
  }

  /** The cross-file and range checks of step 3. */
  predicate Accepts(sk: Skill, s: ScheduleSpec) {
    && (if sk.mcpServers != []
        then && s.provider != "azure-foundry"
             && (forall n :: n in sk.mcpServers ==> n in s.mcpEnv)
             && (forall n :: n in s.mcpEnv ==> n in sk.mcpServers)
        else s.mcpEnv == {})
    && s.maxTurns <= MAX_INT32
    && (s.autoPauseAfter.Some? ==> s.autoPauseAfter.value <= MAX_INT32)
  }

  /** The sync gets past every check for this schedule. */
  predicate Passes(sk: Skill, s: ScheduleSpec, nextFire: Clockwork, at: Time) {
    Accepts(sk, s) && nextFire(s.cron, ZoneOf(s), at).Some?
  }

  predicate AllPass(sk: Skill, specs: seq<ScheduleSpec>, nextFire: Clockwork, at: Time) {
    forall i :: 0 <= i < |specs| ==> Passes(sk, specs[i], nextFire, at)
  }

  /** The sync gets past every check for this entry. */
  ghost predicate AcceptsEntry(e: SkillEntry, skills: map<string, Skill>, nextFire: Clockwork, at: Time) {
    e.path in skills && AllPass(skills[e.path], e.schedules, nextFire, at)
  }

  /** The statements of a sync, and which of them fail. */
  datatype Stmt =
    | UpsertOf(path: string)
    | DeleteMissingOf
    | ScheduleOf(path: string, name: string)
    | DisableOf(path: string)
    | CommitOf

  type Faults = Stmt -> bool

  /** No statement about the schedules of this entry fails. */
  predicate Answered(e: SkillEntry, fails: Faults) {
    !fails(DisableOf(e.path)) && forall j :: 0 <= j < |e.schedules| ==> !fails(ScheduleOf(e.path, e.schedules[j].name))
  }

  ghost predicate Goes(e: SkillEntry, skills: map<string, Skill>, nextFire: Clockwork, at: Time, fails: Faults) {
    AcceptsEntry(e, skills, nextFire, at) && Answered(e, fails)
  }

  /** Every check passes and no statement fails. */
  ghost predicate Unhindered(m: Manifest, skills: map<string, Skill>, nextFire: Clockwork, at: Time, fails: Faults) {
    && !fails(DeleteMissingOf) && !fails(CommitOf)
    && forall i :: 0 <= i < |m.skills| ==>
         !fails(UpsertOf(m.skills[i].path)) && Goes(m.skills[i], skills, nextFire, at, fails)
  }

  // ----- the tables, by their unique keys -----

  datatype SkillRow = SkillRow(id: SkillId, name: string, sha: string, frontmatter: string, updatedAt: Time)

  datatype Row = Row(id: ScheduleId, sch: Schedule)

  /** `skill` UNIQUE (repo_id, path); `schedule` UNIQUE (skill_id, name). */
  datatype Tables = Tables(
    skills: map<(RepoId, string), SkillRow>,
    schedules: map<(SkillId, string), Row>,
    nextSkill: SkillId,
    nextSchedule: ScheduleId)

  ghost predicate SkillIdsOk(t: Tables) {
    && (forall k :: k in t.skills ==> t.skills[k].id < t.nextSkill)
    && (forall j, k :: j in t.skills && k in t.skills && t.skills[j].id == t.skills[k].id ==> j == k)
  }

  ghost predicate LiveSkill(t: Tables, id: SkillId) {
    exists k :: k in t.skills && t.skills[k].id == id
  }

  ghost predicate SchedulesOk(t: Tables) {
    && (forall k :: k in t.schedules ==>
          && t.schedules[k].id < t.nextSchedule
          && t.schedules[k].sch.skill == k.0 && t.schedules[k].sch.name == k.1
          && LiveSkill(t, k.0))
    && (forall j, k :: j in t.schedules && k in t.schedules && t.schedules[j].id == t.schedules[k].id ==> j == k)
  }

  ghost predicate TablesOk(t: Tables) {
    SkillIdsOk(t) && SchedulesOk(t)
  }

  function UpsertSkill(t: Tables, repo: RepoId, path: string, sk: Skill, sha: string, at: Time): Tables {
    var id := if (repo, path) in t.skills then t.skills[(repo, path)].id else t.nextSkill;
    t.(skills := t.skills[(repo, path) := SkillRow(id, sk.name, sha, sk.frontmatter, at)],
       nextSkill := t.nextSkill + 1)
  }

  /** DeleteMissingSkills, cascading to schedules. */
  function DeleteMissingSkills(t: Tables, repo: RepoId, paths: set<string>): Tables {
    var gone := set k | k in t.skills && k.0 == repo && k.1 !in paths :: t.skills[k].id;
    t.(skills := map k | k in t.skills && !(k.0 == repo && k.1 !in paths) :: t.skills[k],
       schedules := map k | k in t.schedules && k.0 !in gone :: t.schedules[k])
  }

  function UpsertSchedule(t: Tables, proposed: Schedule): Tables {
    var key := (proposed.skill, proposed.name);
    var row := if key in t.schedules
               then Row(t.schedules[key].id, Merged(t.schedules[key].sch, proposed))
               else Row(t.nextSchedule, proposed);
    t.(schedules := t.schedules[key := row], nextSchedule := t.nextSchedule + 1)
  }

  function Disabled(r: Row, at: Time): Row {
    if r.sch.enabled then r.(sch := r.sch.(enabled := false, updatedAt := at)) else r
  }

  function DisableMissingSchedules(t: Tables, skill: SkillId, names: set<string>, at: Time): Tables {
    t.(schedules := map k | k in t.schedules ::
         if k.0 == skill && k.1 !in names then Disabled(t.schedules[k], at) else t.schedules[k])
  }

  // ----- step 3 for one skill -----

  function Names(e: SkillEntry): set<string> {
    set i | 0 <= i < |e.schedules| :: e.schedules[i].name
  }

  /** What the upsert makes of a key, given the tables before. */
  ghost predicate Upserted(a: Tables, b: Tables, skill: SkillId, s: ScheduleSpec, nextFire: Clockwork, at: Time) {
    var key := (skill, s.name);
    && nextFire(s.cron, ZoneOf(s), at).Some?
    && key in b.schedules
    && var p := Proposed(skill, s, nextFire(s.cron, ZoneOf(s), at).value, at);
       if key in a.schedules
       then b.schedules[key] == Row(a.schedules[key].id, Merged(a.schedules[key].sch, p))
       else b.schedules[key].sch == p && a.nextSchedule <= b.schedules[key].id < b.nextSchedule
  }

  ghost predicate SameRow(a: Tables, b: Tables, skill: SkillId, name: string) {
    var key := (skill, name);
    (key in b.schedules <==> key in a.schedules) && (key in a.schedules ==> b.schedules[key] == a.schedules[key])
  }

  ghost predicate OthersSame(a: Tables, b: Tables, skill: SkillId) {
    forall k: SkillId, name: string :: k != skill ==> SameRow(a, b, k, name)
  }

  /** The first `n` schedules of the entry are upserted, nothing else has changed. */
  ghost predicate UpTo(a: Tables, b: Tables, skill: SkillId, e: SkillEntry, n: nat, nextFire: Clockwork, at: Time)
    requires n <= |e.schedules|
  {
    && b.skills == a.skills && b.nextSkill == a.nextSkill && a.nextSchedule <= b.nextSchedule
    && OthersSame(a, b, skill)
    && (forall i :: 0 <= i < n ==> Upserted(a, b, skill, e.schedules[i], nextFire, at))
    && (forall name :: (forall i :: 0 <= i < n ==> e.schedules[i].name != name) ==> SameRow(a, b, skill, name))
  }

  ghost predicate DisabledRow(a: Tables, b: Tables, skill: SkillId, name: string, at: Time) {
    var key := (skill, name);
    && (key in b.schedules <==> key in a.schedules)
    && (key in a.schedules ==> b.schedules[key] == Disabled(a.schedules[key], at))
  }

  /** The entry's schedules are upserted, the skill's other schedules are disabled. */
  ghost predicate EntryDone(a: Tables, b: Tables, skill: SkillId, e: SkillEntry, nextFire: Clockwork, at: Time) {
    && (forall i :: 0 <= i < |e.schedules| ==> Upserted(a, b, skill, e.schedules[i], nextFire, at))
    && (forall name :: name !in Names(e) ==> DisabledRow(a, b, skill, name, at))
  }

  ghost predicate SkillDone(a: Tables, b: Tables, skill: SkillId, e: SkillEntry, nextFire: Clockwork, at: Time) {
    && b.skills == a.skills && b.nextSkill == a.nextSkill && a.nextSchedule <= b.nextSchedule
    && OthersSame(a, b, skill)
    && EntryDone(a, b, skill, e, nextFire, at)
  }

  lemma UpsertOne(a: Tables, b: Tables, skill: SkillId, e: SkillEntry, n: nat, nextFire: Clockwork, at: Time)
    requires n < |e.schedules| && ValidEntry(e) && UpTo(a, b, skill, e, n, nextFire, at)
    requires nextFire(e.schedules[n].cron, ZoneOf(e.schedules[n]), at).Some?
    ensures var s := e.schedules[n];
            var c := UpsertSchedule(b, Proposed(skill, s, nextFire(s.cron, ZoneOf(s), at).value, at));
            UpTo(a, c, skill, e, n + 1, nextFire, at)
  {
    var s := e.schedules[n];
    var c := UpsertSchedule(b, Proposed(skill, s, nextFire(s.cron, ZoneOf(s), at).value, at));
    assert SameRow(a, b, skill, s.name);
    assert forall i :: 0 <= i < n ==> e.schedules[i].name != s.name;
    forall i | 0 <= i < n ensures Upserted(a, c, skill, e.schedules[i], nextFire, at) {
      assert Upserted(a, b, skill, e.schedules[i], nextFire, at);
    }
    forall k, name | k != skill ensures SameRow(a, c, k, name) { assert SameRow(a, b, k, name); }
    forall name | forall i :: 0 <= i < n + 1 ==> e.schedules[i].name != name ensures SameRow(a, c, skill, name) {
      assert e.schedules[n].name != name;
      assert SameRow(a, b, skill, name);
    }
  }

  lemma UpsertIds(b: Tables, p: Schedule)
    requires SchedulesOk(b) && LiveSkill(b, p.skill)
    ensures SchedulesOk(UpsertSchedule(b, p))
  {
    var c := UpsertSchedule(b, p);
    forall id | LiveSkill(b, id) ensures LiveSkill(c, id) {
      var k :| k in b.skills && b.skills[k].id == id;
      assert k in c.skills;
    }
  }

  lemma DisableRest(a: Tables, b: Tables, skill: SkillId, e: SkillEntry, nextFire: Clockwork, at: Time)
    requires UpTo(a, b, skill, e, |e.schedules|, nextFire, at)
    ensures SkillDone(a, DisableMissingSchedules(b, skill, Names(e), at), skill, e, nextFire, at)
  {
    var c := DisableMissingSchedules(b, skill, Names(e), at);
    forall i | 0 <= i < |e.schedules| ensures Upserted(a, c, skill, e.schedules[i], nextFire, at) {
      assert Upserted(a, b, skill, e.schedules[i], nextFire, at);
      assert e.schedules[i].name in Names(e);
    }
    forall k, name | k != skill ensures SameRow(a, c, k, name) { assert SameRow(a, b, k, name); }
    forall name | name !in Names(e) ensures DisabledRow(a, c, skill, name, at) {
      assert forall i :: 0 <= i < |e.schedules| ==> e.schedules[i].name in Names(e);
      assert SameRow(a, b, skill, name);
    }
  }

  lemma DisableIds(b: Tables, skill: SkillId, names: set<string>, at: Time)
    requires SchedulesOk(b)
    ensures SchedulesOk(DisableMissingSchedules(b, skill, names, at))
  {
    var c := DisableMissingSchedules(b, skill, names, at);
    forall id ensures LiveSkill(b, id) ==> LiveSkill(c, id) { SameSkillsLive(b, c, id); }
    forall k | k in c.schedules
      ensures c.schedules[k].id == b.schedules[k].id && c.schedules[k].sch.skill == b.schedules[k].sch.skill
      ensures c.schedules[k].sch.name == b.schedules[k].sch.name
    {
    }
  }

  lemma SameSkillsLive(b: Tables, c: Tables, id: SkillId)
    requires c.skills == b.skills
    ensures LiveSkill(b, id) ==> LiveSkill(c, id)
  {
  }

  /** The names of mcp_servers and mcp_env, one against the other, and the ranges. */
  method CheckAgainstSkill(sk: Skill, s: ScheduleSpec) returns (ok: bool)
    ensures ok <==> Accepts(sk, s)
  {
    if |sk.mcpServers| > 0 {
      if s.provider == "azure-foundry" { return false; }
      var declared: set<string> := {};
      for i := 0 to |sk.mcpServers|
        invariant declared == set n | n in sk.mcpServers[..i]
        invariant forall n :: n in sk.mcpServers[..i] ==> n in s.mcpEnv
      {
        declared := declared + {sk.mcpServers[i]};
        if sk.mcpServers[i] !in s.mcpEnv { return false; }
      }
      assert sk.mcpServers[..|sk.mcpServers|] == sk.mcpServers;
      var rest := s.mcpEnv;
      while rest != {}
        invariant rest <= s.mcpEnv && forall n :: n in s.mcpEnv - rest ==> n in declared
        decreases rest
      {
        var n :| n in rest;
        if n !in declared { return false; }
        rest := rest - {n};
      }
      assert s.mcpEnv - rest == s.mcpEnv;
    } else if |s.mcpEnv| > 0 {
      return false;
    }
    if s.maxTurns > 0 && s.maxTurns > MAX_INT32 { return false; }
    return s.autoPauseAfter.None? || s.autoPauseAfter.value <= MAX_INT32;
  }

  /** Step 3's inner loop. */
  method UpsertAll(a: Tables, skill: SkillId, e: SkillEntry, sk: Skill, nextFire: Clockwork, at: Time, fails: Faults)
    returns (ok: bool, b: Tables)
    requires SchedulesOk(a) && LiveSkill(a, skill) && ValidEntry(e)
    ensures ok ==> UpTo(a, b, skill, e, |e.schedules|, nextFire, at) && SchedulesOk(b)
    ensures ok <==> forall k :: 0 <= k < |e.schedules| ==>
              Passes(sk, e.schedules[k], nextFire, at) && !fails(ScheduleOf(e.path, e.schedules[k].name))
  {
    b, ok := a, false;
    for i := 0 to |e.schedules|
      invariant UpTo(a, b, skill, e, i, nextFire, at) && SchedulesOk(b)
      invariant forall k :: 0 <= k < i ==>
                  Passes(sk, e.schedules[k], nextFire, at) && !fails(ScheduleOf(e.path, e.schedules[k].name))
    {
      var s := e.schedules[i];
      var fine := CheckAgainstSkill(sk, s);
      if !fine || nextFire(s.cron, if s.timezone == "" then "UTC" else s.timezone, at).None? { return; }
      if fails(ScheduleOf(e.path, s.name)) { return; }
      b := UpsertNext(a, b, skill, e, i, nextFire, at);
    }
    ok := true;
  }

  method UpsertNext(ghost a: Tables, b: Tables, skill: SkillId, e: SkillEntry, n: nat, nextFire: Clockwork, at: Time)
    returns (c: Tables)
    requires n < |e.schedules| && ValidEntry(e) && UpTo(a, b, skill, e, n, nextFire, at) && SchedulesOk(b)
    requires LiveSkill(a, skill)
    requires nextFire(e.schedules[n].cron, ZoneOf(e.schedules[n]), at).Some?
    ensures UpTo(a, c, skill, e, n + 1, nextFire, at) && SchedulesOk(c)
  {
    var s := e.schedules[n];
    UpsertOne(a, b, skill, e, n, nextFire, at);
    UpsertIds(b, Proposed(skill, s, nextFire(s.cron, ZoneOf(s), at).value, at));
    c := UpsertSchedule(b, Proposed(skill, s, nextFire(s.cron, ZoneOf(s), at).value, at));
  }

  /** Step 3's outer loop body. */
  method SyncSkill(a: Tables, skill: SkillId, e: SkillEntry, sk: Skill, nextFire: Clockwork, at: Time, fails: Faults)
    returns (ok: bool, b: Tables)
    requires SchedulesOk(a) && LiveSkill(a, skill) && ValidEntry(e)
    ensures ok ==> SkillDone(a, b, skill, e, nextFire, at) && SchedulesOk(b)
    ensures ok <==> AllPass(sk, e.schedules, nextFire, at) && Answered(e, fails)
  {
    ok, b := UpsertAll(a, skill, e, sk, nextFire, at, fails);
    if ok {
      ok := !fails(DisableOf(e.path));
      DisableRest(a, b, skill, e, nextFire, at);
      DisableIds(b, skill, Names(e), at);
      b := DisableMissingSchedules(b, skill, Names(e), at);
    }
  }

  // ----- steps 1 and 2: the skills -----

  /** What the upsert makes of a skill key: the id is kept, or is a fresh one. */
  ghost predicate SkillUpserted(a: Tables, b: Tables, key: (RepoId, string), sk: Skill, sha: string, at: Time) {
    && key in b.skills
    && b.skills[key] == SkillRow(b.skills[key].id, sk.name, sha, sk.frontmatter, at)
    && (if key in a.skills then b.skills[key].id == a.skills[key].id
        else a.nextSkill <= b.skills[key].id < b.nextSkill)
  }

  ghost predicate SameSkill(a: Tables, b: Tables, key: (RepoId, string)) {
    (key in b.skills <==> key in a.skills) && (key in a.skills ==> b.skills[key] == a.skills[key])
  }

  function Paths(m: Manifest): set<string> {
    set i | 0 <= i < |m.skills| :: m.skills[i].path
  }

  /** No entry among the first `n` is about this key. */
  ghost predicate NotYet(repo: RepoId, m: Manifest, n: nat, key: (RepoId, string))
    requires n <= |m.skills|
  {
    key.0 == repo ==> forall i :: 0 <= i < n ==> m.skills[i].path != key.1
  }

  ghost predicate SkillsUpTo(a: Tables, b: Tables, repo: RepoId, m: Manifest, n: nat, skills: map<string, Skill>,
                             sha: string, at: Time)
    requires n <= |m.skills|
  {
    && b.schedules == a.schedules && b.nextSchedule == a.nextSchedule && a.nextSkill <= b.nextSkill
    && (forall i :: 0 <= i < n ==>
          m.skills[i].path in skills
          && SkillUpserted(a, b, (repo, m.skills[i].path), skills[m.skills[i].path], sha, at))
    && (forall other: RepoId, path: string :: NotYet(repo, m, n, (other, path)) ==> SameSkill(a, b, (other, path)))
  }

  lemma UpsertOneSkill(a: Tables, b: Tables, repo: RepoId, m: Manifest, n: nat, skills: map<string, Skill>,
                       sha: string, at: Time)
    requires n < |m.skills| && ValidManifest(m) && SkillsUpTo(a, b, repo, m, n, skills, sha, at)
    requires m.skills[n].path in skills
    ensures var c := UpsertSkill(b, repo, m.skills[n].path, skills[m.skills[n].path], sha, at);
            SkillsUpTo(a, c, repo, m, n + 1, skills, sha, at)
  {
    var path := m.skills[n].path;
    var c := UpsertSkill(b, repo, path, skills[path], sha, at);
    assert SameSkill(a, b, (repo, path));
    forall i | 0 <= i < n
      ensures SkillUpserted(a, c, (repo, m.skills[i].path), skills[m.skills[i].path], sha, at)
    {
      assert SkillUpserted(a, b, (repo, m.skills[i].path), skills[m.skills[i].path], sha, at);
    }
    forall other: RepoId, p: string | NotYet(repo, m, n + 1, (other, p)) ensures SameSkill(a, c, (other, p)) {
      if other == repo { assert m.skills[n].path != p; }
      assert NotYet(repo, m, n, (other, p));
    }
  }

  lemma UpsertSkillIds(b: Tables, repo: RepoId, path: string, sk: Skill, sha: string, at: Time)
    requires TablesOk(b)
    ensures TablesOk(UpsertSkill(b, repo, path, sk, sha, at))
  {
    var c := UpsertSkill(b, repo, path, sk, sha, at);
    forall id | LiveSkill(b, id) ensures LiveSkill(c, id) {
      var k :| k in b.skills && b.skills[k].id == id;
      assert k in c.skills && c.skills[k].id == id;
    }
  }

  /** Nothing under another repo, and no schedule of a skill that stays, is deleted. */
  lemma DeleteMissing(b: Tables, repo: RepoId, paths: set<string>)
    requires TablesOk(b)
    ensures TablesOk(DeleteMissingSkills(b, repo, paths))
    ensures var c := DeleteMissingSkills(b, repo, paths);
            forall k, name :: LiveSkill(c, k) ==> SameRow(b, c, k, name)
  {
    var c := DeleteMissingSkills(b, repo, paths);
    var gone := set k | k in b.skills && k.0 == repo && k.1 !in paths :: b.skills[k].id;
    forall id | LiveSkill(c, id) ensures id !in gone {
      var k :| k in c.skills && c.skills[k].id == id;
    }
    forall id | LiveSkill(b, id) && id !in gone ensures LiveSkill(c, id) {
      var k :| k in b.skills && b.skills[k].id == id;
      assert k in c.skills;
    }
  }

  // ----- step 3 for all skills -----

  ghost predicate HasPaths(t: Tables, repo: RepoId, m: Manifest) {
    forall i :: 0 <= i < |m.skills| ==> (repo, m.skills[i].path) in t.skills
  }

  function IdAt(t: Tables, repo: RepoId, m: Manifest, i: nat): SkillId
    requires i < |m.skills| && (repo, m.skills[i].path) in t.skills
  {
    t.skills[(repo, m.skills[i].path)].id
  }

  ghost function IdsUpTo(t: Tables, repo: RepoId, m: Manifest, n: nat): set<SkillId>
    requires n <= |m.skills| && HasPaths(t, repo, m)
  {
    set i | 0 <= i < n :: IdAt(t, repo, m, i)
  }

  /** The first `n` skills of the manifest have their schedules in place. */
  ghost predicate DoneUpTo(a: Tables, b: Tables, repo: RepoId, m: Manifest, n: nat, nextFire: Clockwork, at: Time)
    requires n <= |m.skills| && HasPaths(a, repo, m)
  {
    && b.skills == a.skills && b.nextSkill == a.nextSkill && a.nextSchedule <= b.nextSchedule
    && (forall i :: 0 <= i < n ==> EntryDone(a, b, IdAt(a, repo, m, i), m.skills[i], nextFire, at))
    && (forall k, name :: k !in IdsUpTo(a, repo, m, n) ==> SameRow(a, b, k, name))
  }

  lemma EntryMoves(a: Tables, b: Tables, c: Tables, skill: SkillId, e: SkillEntry, nextFire: Clockwork, at: Time)
    requires EntryDone(a, b, skill, e, nextFire, at) && b.nextSchedule <= c.nextSchedule
    requires forall name :: SameRow(b, c, skill, name)
    ensures EntryDone(a, c, skill, e, nextFire, at)
  {
    forall i | 0 <= i < |e.schedules| ensures Upserted(a, c, skill, e.schedules[i], nextFire, at) {
      assert Upserted(a, b, skill, e.schedules[i], nextFire, at);
      assert SameRow(b, c, skill, e.schedules[i].name);
    }
    forall name | name !in Names(e) ensures DisabledRow(a, c, skill, name, at) {
      assert DisabledRow(a, b, skill, name, at) && SameRow(b, c, skill, name);
    }
  }

  lemma EntryFrom(a: Tables, b: Tables, c: Tables, skill: SkillId, e: SkillEntry, nextFire: Clockwork, at: Time)
    requires EntryDone(b, c, skill, e, nextFire, at) && a.nextSchedule <= b.nextSchedule
    requires forall name :: SameRow(a, b, skill, name)
    ensures EntryDone(a, c, skill, e, nextFire, at)
  {
    forall i | 0 <= i < |e.schedules| ensures Upserted(a, c, skill, e.schedules[i], nextFire, at) {
      assert Upserted(b, c, skill, e.schedules[i], nextFire, at);
      assert SameRow(a, b, skill, e.schedules[i].name);
    }
    forall name | name !in Names(e) ensures DisabledRow(a, c, skill, name, at) {
      assert DisabledRow(b, c, skill, name, at) && SameRow(a, b, skill, name);
    }
  }

  lemma NewIdIsNew(a: Tables, repo: RepoId, m: Manifest, n: nat)
    requires n < |m.skills| && HasPaths(a, repo, m) && SkillIdsOk(a) && ValidManifest(m)
    ensures IdAt(a, repo, m, n) !in IdsUpTo(a, repo, m, n)
    ensures IdsUpTo(a, repo, m, n + 1) == IdsUpTo(a, repo, m, n) + {IdAt(a, repo, m, n)}
  {
    assert forall i :: 0 <= i < n ==> m.skills[i].path != m.skills[n].path;
  }

  lemma OneMoreSkill(a: Tables, b: Tables, c: Tables, repo: RepoId, m: Manifest, n: nat, nextFire: Clockwork, at: Time)
    requires n < |m.skills| && HasPaths(a, repo, m) && SkillIdsOk(a) && ValidManifest(m)
    requires DoneUpTo(a, b, repo, m, n, nextFire, at)
    requires SkillDone(b, c, IdAt(a, repo, m, n), m.skills[n], nextFire, at)
    ensures DoneUpTo(a, c, repo, m, n + 1, nextFire, at)
  {
    var skill := IdAt(a, repo, m, n);
    NewIdIsNew(a, repo, m, n);
    EntryFrom(a, b, c, skill, m.skills[n], nextFire, at);
    forall i | 0 <= i < n ensures EntryDone(a, c, IdAt(a, repo, m, i), m.skills[i], nextFire, at) {
      assert IdAt(a, repo, m, i) in IdsUpTo(a, repo, m, n);
      EntryMoves(a, b, c, IdAt(a, repo, m, i), m.skills[i], nextFire, at);
    }
    forall k, name | k !in IdsUpTo(a, repo, m, n + 1) ensures SameRow(a, c, k, name) {
      assert SameRow(a, b, k, name) && SameRow(b, c, k, name);
    }
  }

  method SyncSchedules(a: Tables, repo: RepoId, m: Manifest, skills: map<string, Skill>, nextFire: Clockwork, at: Time,
                       fails: Faults)
    returns (ok: bool, b: Tables)
    requires TablesOk(a) && ValidManifest(m) && HasPaths(a, repo, m)
    requires forall i :: 0 <= i < |m.skills| ==> m.skills[i].path in skills
    ensures ok ==> DoneUpTo(a, b, repo, m, |m.skills|, nextFire, at) && SchedulesOk(b)
    ensures ok <==> forall i :: 0 <= i < |m.skills| ==> Goes(m.skills[i], skills, nextFire, at, fails)
  {
    b, ok := a, false;
    for i := 0 to |m.skills|
      invariant DoneUpTo(a, b, repo, m, i, nextFire, at) && SchedulesOk(b)
      invariant forall k :: 0 <= k < i ==> Goes(m.skills[k], skills, nextFire, at, fails)
    {
      var e := m.skills[i];
      var skill := a.skills[(repo, e.path)].id;
      assert LiveSkill(b, skill) by { assert (repo, e.path) in b.skills; }
      var fine, c;
      fine, c := SyncSkill(b, skill, e, skills[e.path], nextFire, at, fails);
      assert fine <==> Goes(e, skills, nextFire, at, fails);
      if !fine { return; }
      OneMoreSkill(a, b, c, repo, m, i, nextFire, at);
      b := c;
    }
    ok := true;
  }

  /** The first `n` skills were read. */
  predicate ReadUpTo(m: Manifest, n: nat, skills: map<string, Skill>)
    requires n <= |m.skills|
  {
    forall i :: 0 <= i < n ==> m.skills[i].path in skills
  }

  /** The tables after the first `n` upserts. */
  function UpsertedTo(a: Tables, repo: RepoId, m: Manifest, n: nat, skills: map<string, Skill>, sha: string,
                      at: Time): Tables
    requires n <= |m.skills| && ReadUpTo(m, n, skills)
  {
    if n == 0 then a
    else
      var path := m.skills[n - 1].path;
      UpsertSkill(UpsertedTo(a, repo, m, n - 1, skills, sha, at), repo, path, skills[path], sha, at)
  }

  lemma NothingUpserted(a: Tables, repo: RepoId, m: Manifest, skills: map<string, Skill>, sha: string, at: Time)
    ensures SkillsUpTo(a, a, repo, m, 0, skills, sha, at)
  {
  }

  lemma UpsertedNext(a: Tables, b: Tables, c: Tables, repo: RepoId, m: Manifest, n: nat, skills: map<string, Skill>,
                     sha: string, at: Time)
    requires ValidManifest(m) && 0 < n <= |m.skills| && m.skills[n - 1].path in skills
    requires SkillsUpTo(a, b, repo, m, n - 1, skills, sha, at)
    requires c == UpsertSkill(b, repo, m.skills[n - 1].path, skills[m.skills[n - 1].path], sha, at)
    ensures SkillsUpTo(a, c, repo, m, n, skills, sha, at)
  {
    UpsertOneSkill(a, b, repo, m, n - 1, skills, sha, at);
  }

  lemma {:induction false} UpsertedIs(a: Tables, repo: RepoId, m: Manifest, n: nat, skills: map<string, Skill>,
                                      sha: string, at: Time)
    requires ValidManifest(m) && n <= |m.skills| && ReadUpTo(m, n, skills)
    ensures SkillsUpTo(a, UpsertedTo(a, repo, m, n, skills, sha, at), repo, m, n, skills, sha, at)
  {
    if n == 0 {
      NothingUpserted(a, repo, m, skills, sha, at);
    } else {
      UpsertedIs(a, repo, m, n - 1, skills, sha, at);
      UpsertedNext(a, UpsertedTo(a, repo, m, n - 1, skills, sha, at), UpsertedTo(a, repo, m, n, skills, sha, at),
                   repo, m, n, skills, sha, at);
    }
  }

  lemma {:induction false} UpsertedIsOk(a: Tables, repo: RepoId, m: Manifest, n: nat, skills: map<string, Skill>,
                                        sha: string, at: Time)
    requires TablesOk(a) && n <= |m.skills| && ReadUpTo(m, n, skills)
    ensures TablesOk(UpsertedTo(a, repo, m, n, skills, sha, at))
  {
    if n > 0 {
      UpsertedIsOk(a, repo, m, n - 1, skills, sha, at);
      var path := m.skills[n - 1].path;
      UpsertSkillIds(UpsertedTo(a, repo, m, n - 1, skills, sha, at), repo, path, skills[path], sha, at);
    }
  }

  /** Step 1's loop. */
  method UpsertEach(a: Tables, repo: RepoId, m: Manifest, skills: map<string, Skill>, sha: string, at: Time,
                    fails: Faults)
    returns (ok: bool, b: Tables)
    ensures ok <==>
              && ReadUpTo(m, |m.skills|, skills)
              && forall i :: 0 <= i < |m.skills| ==> !fails(UpsertOf(m.skills[i].path))
    ensures ok ==> b == UpsertedTo(a, repo, m, |m.skills|, skills, sha, at)
  {
    b, ok := a, false;
    for i := 0 to |m.skills|
      invariant ReadUpTo(m, i, skills) && b == UpsertedTo(a, repo, m, i, skills, sha, at)
      invariant forall k :: 0 <= k < i ==> !fails(UpsertOf(m.skills[k].path))
    {
      var path := m.skills[i].path;
      if path !in skills { return; }
      if fails(UpsertOf(path)) { return; }
      b := UpsertSkill(b, repo, path, skills[path], sha, at);
    }
    ok := true;
  }

  method UpsertSkills(a: Tables, repo: RepoId, m: Manifest, skills: map<string, Skill>, sha: string, at: Time,
                      fails: Faults)
    returns (ok: bool, b: Tables)
    requires TablesOk(a) && ValidManifest(m)
    ensures ok ==> SkillsUpTo(a, b, repo, m, |m.skills|, skills, sha, at) && TablesOk(b)
    ensures ok <==>
              && ReadUpTo(m, |m.skills|, skills)
              && forall i :: 0 <= i < |m.skills| ==> !fails(UpsertOf(m.skills[i].path))
  {
    ok, b := UpsertEach(a, repo, m, skills, sha, at, fails);
    if ok {
      UpsertedIs(a, repo, m, |m.skills|, skills, sha, at);
      UpsertedIsOk(a, repo, m, |m.skills|, skills, sha, at);
    }
  }

  // ----- the whole sync -----

  /** What a successful sync leaves behind, relative to the tables before. */
  ghost predicate Synced(a: Tables, b: Tables, repo: RepoId, m: Manifest, skills: map<string, Skill>, sha: string,
                         nextFire: Clockwork, at: Time)
  {
    && a.nextSkill <= b.nextSkill && a.nextSchedule <= b.nextSchedule
    && (forall i :: 0 <= i < |m.skills| ==>
          && m.skills[i].path in skills
          && SkillUpserted(a, b, (repo, m.skills[i].path), skills[m.skills[i].path], sha, at)
          && EntryDone(a, b, IdAt(b, repo, m, i), m.skills[i], nextFire, at))
    && (forall path :: path !in Paths(m) ==> (repo, path) !in b.skills)
    && (forall other: RepoId, path: string :: other != repo ==> SameSkill(a, b, (other, path)))
    && (forall other: RepoId, path: string, name: string :: other != repo && (other, path) in b.skills ==>
          SameRow(a, b, b.skills[(other, path)].id, name))
  }

  /** Putting steps 1 to 3 together. */
  lemma StepsMakeSync(a: Tables, t1: Tables, t2: Tables, b: Tables, repo: RepoId, m: Manifest,
                      skills: map<string, Skill>, sha: string, nextFire: Clockwork, at: Time)
    requires ValidManifest(m) && TablesOk(t1)
    requires SkillsUpTo(a, t1, repo, m, |m.skills|, skills, sha, at)
    requires t2 == DeleteMissingSkills(t1, repo, Paths(m)) && TablesOk(t2) && HasPaths(t2, repo, m)
    requires DoneUpTo(t2, b, repo, m, |m.skills|, nextFire, at)
    ensures Synced(a, b, repo, m, skills, sha, nextFire, at)
  {
    DeleteMissing(t1, repo, Paths(m));
    forall i | 0 <= i < |m.skills|
      ensures SkillUpserted(a, b, (repo, m.skills[i].path), skills[m.skills[i].path], sha, at)
      ensures EntryDone(a, b, IdAt(b, repo, m, i), m.skills[i], nextFire, at)
    {
      assert SkillUpserted(a, t1, (repo, m.skills[i].path), skills[m.skills[i].path], sha, at);
      var k := IdAt(b, repo, m, i);
      assert LiveSkill(t2, k) by { assert (repo, m.skills[i].path) in t2.skills; }
      forall name ensures SameRow(a, t2, k, name) { assert SameRow(t1, t2, k, name); }
      EntryFrom(a, t2, b, k, m.skills[i], nextFire, at);
    }
    forall other: RepoId, path: string | other != repo
      ensures SameSkill(a, b, (other, path))
      ensures (other, path) in b.skills ==> forall name :: SameRow(a, b, b.skills[(other, path)].id, name)
    {
      assert SameSkill(a, t1, (other, path));
      if (other, path) in b.skills { OtherRepoSame(a, t1, t2, b, repo, m, other, path, nextFire, at); }
    }
  }

  lemma OtherRepoSame(a: Tables, t1: Tables, t2: Tables, b: Tables, repo: RepoId, m: Manifest,
                      other: RepoId, path: string, nextFire: Clockwork, at: Time)
    requires TablesOk(t1) && t1.schedules == a.schedules
    requires t2 == DeleteMissingSkills(t1, repo, Paths(m)) && TablesOk(t2) && HasPaths(t2, repo, m)
    requires DoneUpTo(t2, b, repo, m, |m.skills|, nextFire, at)
    requires other != repo && (other, path) in b.skills
    ensures forall name :: SameRow(a, b, b.skills[(other, path)].id, name)
  {
    DeleteMissing(t1, repo, Paths(m));
    var k := b.skills[(other, path)].id;
    assert LiveSkill(t2, k) by { assert (other, path) in t2.skills; }
    assert k !in IdsUpTo(t2, repo, m, |m.skills|);
    forall name ensures SameRow(a, b, k, name) {
      assert SameRow(t1, t2, k, name) && SameRow(t2, b, k, name);
    }
  }

  class Database {
    var tables: Tables

    /**
     * One sync, in one transaction. It succeeds exactly when every check passes and no
     * statement fails; a sync that fails changes nothing.
     */
    method UpsertSkillsAndSchedules(repo: RepoId, m: Manifest, skills: map<string, Skill>, sha: string,
                                    nextFire: Clockwork, at: Time, fails: Faults)
      returns (ok: bool)
      requires TablesOk(tables) && ValidManifest(m)
      modifies this
      ensures TablesOk(tables)
      ensures ok ==> Synced(old(tables), tables, repo, m, skills, sha, nextFire, at)
      ensures !ok ==> tables == old(tables)
      ensures ok <==> Unhindered(m, skills, nextFire, at, fails)
    {
      var t1;
      ok, t1 := UpsertSkills(tables, repo, m, skills, sha, at, fails);
      if !ok { return; }
      if fails(DeleteMissingOf) { return false; }
      DeleteMissing(t1, repo, Paths(m));
      var t2 := DeleteMissingSkills(t1, repo, Paths(m));
      assert HasPaths(t2, repo, m) by { PathsStay(tables, t1, repo, m, skills, sha, at); }
      var b;
      ok, b := SyncSchedules(t2, repo, m, skills, nextFire, at, fails);
      if !ok { return; }
      if fails(CommitOf) { return false; }
      StepsMakeSync(tables, t1, t2, b, repo, m, skills, sha, nextFire, at);
      assert SkillIdsOk(b);
      tables := b;
    }
  }

  lemma PathsStay(a: Tables, t1: Tables, repo: RepoId, m: Manifest, skills: map<string, Skill>, sha: string, at: Time)
    requires SkillsUpTo(a, t1, repo, m, |m.skills|, skills, sha, at)
    ensures HasPaths(DeleteMissingSkills(t1, repo, Paths(m)), repo, m)
  {
    forall i | 0 <= i < |m.skills|
      ensures (repo, m.skills[i].path) in DeleteMissingSkills(t1, repo, Paths(m)).skills
    {
      assert m.skills[i].path in Paths(m);
      assert SkillUpserted(a, t1, (repo, m.skills[i].path), skills[m.skills[i].path], sha, at);
    }
  }
}
