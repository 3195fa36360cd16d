/** What a successful sync means, and that it is one of the scheduler's allowed steps. */
module SyncLaws {
  import opened Options
  import opened Schema
  import opened Cron
  import opened Machine
  import opened Sync

  /** The manifest lists this schedule under this skill path. */
  ghost predicate Lists(m: Manifest, path: string, name: string) {
    exists i, j :: 0 <= i < |m.skills| && m.skills[i].path == path
      && 0 <= j < |m.skills[i].schedules| && m.skills[i].schedules[j].name == name
  }

  /** After a sync the repo's skills are exactly those of the manifest. */
  lemma SkillsAreTheManifests(a: Tables, b: Tables, repo: RepoId, m: Manifest, skills: map<string, Skill>, sha: string,
                              nextFire: Clockwork, at: Time, path: string)
    requires Synced(a, b, repo, m, skills, sha, nextFire, at)
    ensures (repo, path) in b.skills <==> path in Paths(m)
    ensures path in Paths(m) ==> path in skills && b.skills[(repo, path)].sha == sha
                                 && b.skills[(repo, path)].name == skills[path].name
  {
    if path in Paths(m) {
      var i :| 0 <= i < |m.skills| && m.skills[i].path == path;
      assert SkillUpserted(a, b, (repo, m.skills[i].path), skills[m.skills[i].path], sha, at);
    }
  }

  /**
   * After a sync a schedule of the repo is enabled exactly when the manifest lists it,
   * every listed one has a row, and each of those is armed.
   */
  lemma EnabledAreTheManifests(a: Tables, b: Tables, repo: RepoId, m: Manifest, skills: map<string, Skill>, sha: string,
                               nextFire: Clockwork, at: Time, path: string, name: string)
    requires ValidManifest(m) && Synced(a, b, repo, m, skills, sha, nextFire, at)
    requires (repo, path) in b.skills
    ensures var key := (b.skills[(repo, path)].id, name);
            && (Lists(m, path, name) <==> key in b.schedules && b.schedules[key].sch.enabled)
            && (Lists(m, path, name) ==> b.schedules[key].sch.nextFireAt.Some?)
  {
    SkillsAreTheManifests(a, b, repo, m, skills, sha, nextFire, at, path);
    var i :| 0 <= i < |m.skills| && m.skills[i].path == path;
    assert EntryDone(a, b, IdAt(b, repo, m, i), m.skills[i], nextFire, at);
    EnabledInEntry(a, b, b.skills[(repo, path)].id, m.skills[i], nextFire, at, name);
    ListedInEntry(m, i, name);
  }

  /** Under one skill the enabled schedules are those of its entry. */
  lemma EnabledInEntry(a: Tables, b: Tables, id: SkillId, e: SkillEntry, nextFire: Clockwork, at: Time, name: string)
    requires EntryDone(a, b, id, e, nextFire, at)
    ensures name in Names(e) <==> (id, name) in b.schedules && b.schedules[(id, name)].sch.enabled
    ensures name in Names(e) ==> b.schedules[(id, name)].sch.nextFireAt.Some?
  {
    if name in Names(e) {
      var j :| 0 <= j < |e.schedules| && e.schedules[j].name == name;
      assert Upserted(a, b, id, e.schedules[j], nextFire, at);
    } else {
      assert DisabledRow(a, b, id, name, at);
    }
  }

  lemma ListedInEntry(m: Manifest, i: nat, name: string)
    requires ValidManifest(m) && i < |m.skills|
    ensures Lists(m, m.skills[i].path, name) <==> name in Names(m.skills[i])
  {
    assert forall k :: 0 <= k < |m.skills| && m.skills[k].path == m.skills[i].path ==> k == i;
  }

  /** An armed schedule whose cron and timezone stay keeps its fire time; any other gets a later one. */
  lemma FireTimesAfterSync(a: Tables, b: Tables, repo: RepoId, m: Manifest, skills: map<string, Skill>, sha: string,
                           nextFire: Clockwork, at: Time, i: nat, j: nat)
    requires StrictlyLater(nextFire) && Synced(a, b, repo, m, skills, sha, nextFire, at)
    requires i < |m.skills| && j < |m.skills[i].schedules|
    ensures (repo, m.skills[i].path) in b.skills
    ensures var s := m.skills[i].schedules[j];
            var key := (IdAt(b, repo, m, i), s.name);
            && key in b.schedules && b.schedules[key].sch.nextFireAt.Some?
            && if key in a.schedules && a.schedules[key].sch.enabled && a.schedules[key].sch.nextFireAt.Some?
                  && a.schedules[key].sch.cron == s.cron && a.schedules[key].sch.timezone == ZoneOf(s)
               then b.schedules[key].sch.nextFireAt == a.schedules[key].sch.nextFireAt
               else b.schedules[key].sch.nextFireAt.value > at
                    && b.schedules[key].sch.nextFireAt
                       == nextFire(s.cron, if s.timezone == "" then "UTC" else s.timezone, at)
  {
    assert EntryDone(a, b, IdAt(b, repo, m, i), m.skills[i], nextFire, at);
    assert Upserted(a, b, IdAt(b, repo, m, i), m.skills[i].schedules[j], nextFire, at);
  }

  // ----- the columns -----

  /** The row says what the manifest says of the schedule, with the defaults filled in. */
  ghost predicate Carries(row: Schedule, s: ScheduleSpec) {
    && row.enabled && row.name == s.name && row.cron == s.cron
    && row.timezone == (if s.timezone == "" then "UTC" else s.timezone)
    && (s.overlap == "queue" <==> row.policy == Queue)
    && (s.overlap == "concurrent" <==> row.policy == Concurrent)
    && ((s.overlap == "" || s.overlap == "skip") <==> row.policy == Skip)
    && CarriesTimeout(row.timeoutSec, s.timeoutSec)
    && row.autoPauseAfter == s.autoPauseAfter
    && row.settings.provider == s.provider && row.settings.model == s.model
    && (s.maxTurns > 0 ==> row.settings.maxTurns == Some(s.maxTurns))
    && (s.maxTurns <= 0 ==> row.settings.maxTurns == None)
    && row.settings.mcpEnv == s.mcpEnv && row.settings.payload == s.payload
    && (row.settings.copilotPrefix.Some? <==> s.provider == "copilot-enterprise" && s.copilotPrefix != "")
    && (row.settings.copilotPrefix.Some? ==> row.settings.copilotPrefix.value == s.copilotPrefix)
  }

  /** Ten minutes where nothing is said; otherwise what is said, cut to 32 bits. */
  predicate CarriesTimeout(stored: int, said: int) {
    && -0x8000_0000 <= stored <= 0x7fff_ffff
    && (said == 0 ==> stored == 600)
    && (said != 0 ==> (stored - said) % 0x1_0000_0000 == 0)
    && (said != 0 && -0x8000_0000 <= said <= 0x7fff_ffff ==> stored == said)
  }

  /** What pauses and resumes wrote stays; a new row starts its count at the sync. */
  ghost predicate KeepsState(a: Tables, b: Tables, key: (SkillId, string), at: Time)
    requires key in b.schedules
  {
    && b.schedules[key].sch.skill == key.0 && b.schedules[key].sch.updatedAt == at
    && if key in a.schedules
       then b.schedules[key].id == a.schedules[key].id
            && b.schedules[key].sch.autoPausedAt == a.schedules[key].sch.autoPausedAt
            && b.schedules[key].sch.lastEnabledAt == a.schedules[key].sch.lastEnabledAt
       else b.schedules[key].sch.autoPausedAt == None && b.schedules[key].sch.lastEnabledAt == at
  }

  /** After a sync the row of every listed schedule, new or not, carries what the manifest says. */
  lemma ColumnsAreTheManifests(a: Tables, b: Tables, repo: RepoId, m: Manifest, skills: map<string, Skill>, sha: string,
                               nextFire: Clockwork, at: Time, i: nat, j: nat)
    requires ValidManifest(m) && Synced(a, b, repo, m, skills, sha, nextFire, at)
    requires i < |m.skills| && j < |m.skills[i].schedules|
    ensures (repo, m.skills[i].path) in b.skills
    ensures var s := m.skills[i].schedules[j];
            var key := (b.skills[(repo, m.skills[i].path)].id, s.name);
            key in b.schedules && Carries(b.schedules[key].sch, s) && KeepsState(a, b, key, at)
  {
    var e, id := m.skills[i], IdAt(b, repo, m, i);
    assert EntryDone(a, b, id, e, nextFire, at);
    assert Upserted(a, b, id, e.schedules[j], nextFire, at);
    assert ValidEntry(e) && ValidSpec(e.schedules[j]);
    ProposedCarries(id, e.schedules[j], nextFire(e.schedules[j].cron, ZoneOf(e.schedules[j]), at).value, at);
  }

  lemma ProposedCarries(skill: SkillId, s: ScheduleSpec, fire: Time, at: Time)
    requires ValidSpec(s)
    ensures Carries(Proposed(skill, s, fire, at), s)
  {
  }

  /** A schedule of a listed skill that the manifest no longer lists is switched off, and that is all. */
  lemma UnlistedIsSwitchedOff(a: Tables, b: Tables, repo: RepoId, m: Manifest, skills: map<string, Skill>, sha: string,
                              nextFire: Clockwork, at: Time, i: nat, name: string)
    requires ValidManifest(m) && Synced(a, b, repo, m, skills, sha, nextFire, at) && i < |m.skills|
    requires !Lists(m, m.skills[i].path, name)
    ensures (repo, m.skills[i].path) in b.skills
    ensures var key := (b.skills[(repo, m.skills[i].path)].id, name);
            && (key in b.schedules <==> key in a.schedules)
            && (key in a.schedules ==>
                  var before := a.schedules[key];
                  b.schedules[key] == if before.sch.enabled
                                      then Row(before.id, before.sch.(enabled := false, updatedAt := at))
                                      else before)
  {
    assert EntryDone(a, b, IdAt(b, repo, m, i), m.skills[i], nextFire, at);
    ListedInEntry(m, i, name);
    assert DisabledRow(a, b, IdAt(b, repo, m, i), name, at);
  }

  // ----- syncing twice -----

  predicate SameButStampSkill(a: SkillRow, b: SkillRow) {
    b == a.(updatedAt := b.updatedAt)
  }

  predicate SameButStamp(a: Row, b: Row) {
    b == a.(sch := a.sch.(updatedAt := b.sch.updatedAt))
  }

  lemma SecondSyncSkills(t0: Tables, t1: Tables, t2: Tables, repo: RepoId, m: Manifest, skills: map<string, Skill>,
                         sha: string, nextFire: Clockwork, at1: Time, at2: Time, other: RepoId, path: string)
    requires Synced(t0, t1, repo, m, skills, sha, nextFire, at1) && Synced(t1, t2, repo, m, skills, sha, nextFire, at2)
    ensures (other, path) in t2.skills <==> (other, path) in t1.skills
    ensures (other, path) in t1.skills ==> SameButStampSkill(t1.skills[(other, path)], t2.skills[(other, path)])
  {
    if other == repo {
      SkillsAreTheManifests(t0, t1, repo, m, skills, sha, nextFire, at1, path);
      SkillsAreTheManifests(t1, t2, repo, m, skills, sha, nextFire, at2, path);
      if path in Paths(m) {
        var i :| 0 <= i < |m.skills| && m.skills[i].path == path;
        assert SkillUpserted(t0, t1, (repo, m.skills[i].path), skills[m.skills[i].path], sha, at1);
        assert SkillUpserted(t1, t2, (repo, m.skills[i].path), skills[m.skills[i].path], sha, at2);
      }
    } else {
      assert SameSkill(t1, t2, (other, path));
    }
  }

  lemma SecondSyncEntry(t0: Tables, t1: Tables, t2: Tables, skill: SkillId, e: SkillEntry, nextFire: Clockwork,
                        at1: Time, at2: Time, name: string)
    requires EntryDone(t0, t1, skill, e, nextFire, at1) && EntryDone(t1, t2, skill, e, nextFire, at2)
    ensures (skill, name) in t2.schedules <==> (skill, name) in t1.schedules
    ensures (skill, name) in t1.schedules ==> SameButStamp(t1.schedules[(skill, name)], t2.schedules[(skill, name)])
  {
    if name in Names(e) {
      var j :| 0 <= j < |e.schedules| && e.schedules[j].name == name;
      assert Upserted(t0, t1, skill, e.schedules[j], nextFire, at1);
      assert Upserted(t1, t2, skill, e.schedules[j], nextFire, at2);
    } else {
      assert DisabledRow(t0, t1, skill, name, at1) && DisabledRow(t1, t2, skill, name, at2);
    }
  }

  lemma SecondSyncAllSkills(t0: Tables, t1: Tables, t2: Tables, repo: RepoId, m: Manifest, skills: map<string, Skill>,
                            sha: string, nextFire: Clockwork, at1: Time, at2: Time)
    requires Synced(t0, t1, repo, m, skills, sha, nextFire, at1) && Synced(t1, t2, repo, m, skills, sha, nextFire, at2)
    ensures t2.skills.Keys == t1.skills.Keys
    ensures forall k :: k in t1.skills ==> SameButStampSkill(t1.skills[k], t2.skills[k])
  {
    forall k: (RepoId, string)
      ensures k in t2.skills <==> k in t1.skills
      ensures k in t1.skills ==> SameButStampSkill(t1.skills[k], t2.skills[k])
    {
      SecondSyncSkills(t0, t1, t2, repo, m, skills, sha, nextFire, at1, at2, k.0, k.1);
    }
  }

  /** A second, identical sync changes nothing but timestamps, in any row of either table. */
  lemma SecondSyncIsQuiet(t0: Tables, t1: Tables, t2: Tables, repo: RepoId, m: Manifest, skills: map<string, Skill>,
                          sha: string, nextFire: Clockwork, at1: Time, at2: Time)
    requires TablesOk(t1) && TablesOk(t2)
    requires Synced(t0, t1, repo, m, skills, sha, nextFire, at1) && Synced(t1, t2, repo, m, skills, sha, nextFire, at2)
    ensures t2.skills.Keys == t1.skills.Keys && t2.schedules.Keys == t1.schedules.Keys
    ensures forall k :: k in t1.skills ==> SameButStampSkill(t1.skills[k], t2.skills[k])
    ensures forall k :: k in t1.schedules ==> SameButStamp(t1.schedules[k], t2.schedules[k])
  {
    SecondSyncAllSkills(t0, t1, t2, repo, m, skills, sha, nextFire, at1, at2);
    forall k: (SkillId, string)
      ensures k in t2.schedules <==> k in t1.schedules
      ensures k in t1.schedules ==> SameButStamp(t1.schedules[k], t2.schedules[k])
    {
      SecondSyncRow(t0, t1, t2, repo, m, skills, sha, nextFire, at1, at2, k.0, k.1);
    }
  }

  lemma SecondSyncRow(t0: Tables, t1: Tables, t2: Tables, repo: RepoId, m: Manifest, skills: map<string, Skill>,
                      sha: string, nextFire: Clockwork, at1: Time, at2: Time, skill: SkillId, name: string)
    requires TablesOk(t1) && TablesOk(t2)
    requires Synced(t0, t1, repo, m, skills, sha, nextFire, at1) && Synced(t1, t2, repo, m, skills, sha, nextFire, at2)
    ensures (skill, name) in t2.schedules <==> (skill, name) in t1.schedules
    ensures (skill, name) in t1.schedules ==> SameButStamp(t1.schedules[(skill, name)], t2.schedules[(skill, name)])
  {
    if (skill, name) in t1.schedules || (skill, name) in t2.schedules {
      var key: (RepoId, string) :| (key in t1.skills && t1.skills[key].id == skill)
                                || (key in t2.skills && t2.skills[key].id == skill);
      assert key == (key.0, key.1);
      SecondSyncSkills(t0, t1, t2, repo, m, skills, sha, nextFire, at1, at2, key.0, key.1);
      if key.0 == repo {
        SkillsAreTheManifests(t0, t1, repo, m, skills, sha, nextFire, at1, key.1);
        var i :| 0 <= i < |m.skills| && m.skills[i].path == key.1;
        assert IdAt(t1, repo, m, i) == skill && IdAt(t2, repo, m, i) == skill;
        SecondSyncEntry(t0, t1, t2, skill, m.skills[i], nextFire, at1, at2, name);
      } else {
        assert SameRow(t1, t2, t2.skills[(key.0, key.1)].id, name);
      }
    }
  }

  // ----- a sync is a step of the scheduler's transition system -----

  /** The schedule table by primary key, as the scheduler sees it. */
  ghost function ById(t: Tables): Schedules
    requires SchedulesOk(t)
  {
    map k | k in t.schedules :: t.schedules[k].id := t.schedules[k].sch
  }

  /** What a sync makes of one row: merged, disabled, untouched, or new. */
  lemma RowAfterSync(a: Tables, b: Tables, repo: RepoId, m: Manifest, skills: map<string, Skill>, sha: string,
                     nextFire: Clockwork, at: Time, k: (SkillId, string))
    requires TablesOk(a) && TablesOk(b) && StrictlyLater(nextFire)
    requires Synced(a, b, repo, m, skills, sha, nextFire, at) && k in b.schedules
    ensures if k in a.schedules
            then b.schedules[k].id == a.schedules[k].id && SyncedRow(a.schedules[k].sch, b.schedules[k].sch, at)
            else b.schedules[k].id >= a.nextSchedule && InsertedRow(b.schedules[k].sch, at, at)
  {
    var key: (RepoId, string) :| key in b.skills && b.skills[key].id == k.0;
    assert key == (key.0, key.1);
    if key.0 == repo {
      SkillsAreTheManifests(a, b, repo, m, skills, sha, nextFire, at, key.1);
      var i :| 0 <= i < |m.skills| && m.skills[i].path == key.1;
      assert EntryDone(a, b, IdAt(b, repo, m, i), m.skills[i], nextFire, at);
      RowAfterEntry(a, b, m.skills[i], nextFire, at, k.0, k.1);
    } else {
      assert SameRow(a, b, b.skills[(key.0, key.1)].id, k.1);
    }
  }

  lemma RowAfterEntry(a: Tables, b: Tables, e: SkillEntry, nextFire: Clockwork, at: Time, skill: SkillId, name: string)
    requires StrictlyLater(nextFire) && EntryDone(a, b, skill, e, nextFire, at) && (skill, name) in b.schedules
    ensures var k := (skill, name);
            if k in a.schedules
            then b.schedules[k].id == a.schedules[k].id && SyncedRow(a.schedules[k].sch, b.schedules[k].sch, at)
            else b.schedules[k].id >= a.nextSchedule && InsertedRow(b.schedules[k].sch, at, at)
  {
    if name in Names(e) {
      var j :| 0 <= j < |e.schedules| && e.schedules[j].name == name;
      assert Upserted(a, b, skill, e.schedules[j], nextFire, at);
    } else {
      assert DisabledRow(a, b, skill, name, at);
    }
  }

  /**
   * So every successful sync that read the clock at `at` is a Resync step at whatever later
   * instant it commits, with ids never handed out before.
   */
  lemma SyncIsAStep(a: Tables, b: Tables, repo: RepoId, m: Manifest, skills: map<string, Skill>, sha: string,
                    nextFire: Clockwork, at: Time, commit: Time, used: set<ScheduleId>)
    requires TablesOk(a) && TablesOk(b) && StrictlyLater(nextFire) && at <= commit
    requires Synced(a, b, repo, m, skills, sha, nextFire, at)
    requires forall id :: id in used ==> id < a.nextSchedule
    ensures SyncAllows(ById(a), used, ById(b), commit, at)
  {
    forall sid | sid in ById(b)
      ensures if sid in ById(a) then SyncedRow(ById(a)[sid], ById(b)[sid], at)
              else sid !in used && InsertedRow(ById(b)[sid], commit, at)
    {
      var k :| k in b.schedules && b.schedules[k].id == sid;
      RowAfterSync(a, b, repo, m, skills, sha, nextFire, at, k);
    }
  }
}
