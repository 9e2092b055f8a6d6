/** The database seed (prisma/seed.ts): every seed persona and every seed script is upserted at
    id `index + 1` with `update: {}`, so a record already stored there is kept as it is and a
    missing one is created. The create data carries no id: a created record takes the next value of
    the table's autoincrement sequence. The seed data itself is a parameter. */
module Seed {
  import opened Js
  import opened Store

  // ---------------------------------------------------------------------------------------------
  // One table (personas)
  // ---------------------------------------------------------------------------------------------

  /** The table after the first `n` upserts of `data`: the `n`-th looks at id `n`. */
  function UpsertedUpTo<T>(t: Table<T>, data: seq<T>, n: nat): (r: Table<T>)
    requires TableValid(t) && n <= |data|
    ensures TableValid(r)
    decreases n
  {
    if n == 0 then t
    else
      var u := UpsertedUpTo(t, data, n - 1);
      if n in u.rows then u else Insert(u, data[n - 1]).table
  }

  /** Upserting never changes or removes a stored record, and creates records only under ids the
      sequence had not handed out yet. */
  lemma {:induction false} UpsertKeeps<T>(t: Table<T>, data: seq<T>, n: nat)
    requires TableValid(t) && n <= |data|
    ensures forall id | id in t.rows :: id in UpsertedUpTo(t, data, n).rows && UpsertedUpTo(t, data, n).rows[id] == t.rows[id]
    ensures forall id | id in UpsertedUpTo(t, data, n).rows && id !in t.rows :: t.next <= id
    ensures t.next <= UpsertedUpTo(t, data, n).next
    decreases n
  {
    if n > 0 {
      UpsertKeeps(t, data, n - 1);
    }
  }

  /** When ids 1..n are all stored, upserting changes nothing. */
  lemma {:induction false} UpsertIdempotent<T>(t: Table<T>, data: seq<T>, n: nat)
    requires TableValid(t) && n <= |data|
    requires forall id | 1 <= id <= n :: id in t.rows
    ensures UpsertedUpTo(t, data, n) == t
    decreases n
  {
    if n > 0 {
      UpsertIdempotent(t, data, n - 1);
    }
  }

  /** On an empty table whose sequence starts at 1, the `i`-th seed lands at id `i + 1` and nothing
      else is stored. */
  lemma {:induction false} UpsertFresh<T>(data: seq<T>, n: nat)
    requires n <= |data|
    ensures var r := UpsertedUpTo(Table(map[], 1), data, n);
      && r.next == n + 1
      && (forall id :: id in r.rows <==> 1 <= id <= n)
      && forall i | 0 <= i < n :: r.rows[i + 1] == data[i]
    decreases n
  {
    if n > 0 {
      UpsertFresh(data, n - 1);
    }
  }

  /** Seeding a fresh database a second time changes nothing. */
  lemma UpsertRerun<T>(data: seq<T>)
    ensures var once := UpsertedUpTo(Table(map[], 1), data, |data|);
      UpsertedUpTo(once, data, |data|) == once
  {
    UpsertFresh(data, |data|);
    UpsertIdempotent(UpsertedUpTo(Table(map[], 1), data, |data|), data, |data|);
  }

  /** The persona loop (prisma/seed.ts:11-17). */
  method SeedPersonas(db: Db, personas: seq<PersonaRow>)
    requires db.Valid()
    modifies db
    ensures db.Valid()
    ensures db.personas == UpsertedUpTo(old(db.personas), personas, |personas|)
    ensures db.scripts == old(db.scripts) && db.sections == old(db.sections)
    ensures db.sessions == old(db.sessions) && db.users == old(db.users)
  {
    for i := 0 to |personas|
      invariant db.Valid()
      invariant db.personas == UpsertedUpTo(old(db.personas), personas, i)
      invariant db.scripts == old(db.scripts) && db.sections == old(db.sections)
      invariant db.sessions == old(db.sessions) && db.users == old(db.users)
    {
      var existing := Find(db.personas, i + 1);
      if existing.None? {
        db.personas := Insert(db.personas, personas[i]).table;
      }
    }
  }

  // ---------------------------------------------------------------------------------------------
  // Scripts with their sections
  // ---------------------------------------------------------------------------------------------

  /** A seed section: the section columns without the script id, which the nested create sets. */
  datatype SectionSeed = SectionSeed(
    sectionType: Value, title: Value, content: Value, talkingPoints: Value, tips: Value, orderIndex: int)

  /** A seed script: `const { sections, ...scriptData } = script`. */
  datatype ScriptSeed = ScriptSeed(script: ScriptRow, sections: seq<SectionSeed>)

  /** The section rows of a nested create under script `scriptId`. */
  function Owned(scriptId: int, secs: seq<SectionSeed>): (r: seq<SectionRow>)
    ensures |r| == |secs|
    ensures forall k | 0 <= k < |r| :: r[k].scriptId == scriptId
    ensures forall k | 0 <= k < |r| ::
      r[k] == SectionRow(scriptId, secs[k].sectionType, secs[k].title, secs[k].content,
                         secs[k].talkingPoints, secs[k].tips, secs[k].orderIndex)
  {
    seq(|secs|, k requires 0 <= k < |secs| =>
      SectionRow(scriptId, secs[k].sectionType, secs[k].title, secs[k].content,
                 secs[k].talkingPoints, secs[k].tips, secs[k].orderIndex))
  }

  datatype Tables = Tables(scripts: Table<ScriptRow>, sections: Table<SectionRow>)

  /** The script and section tables after the first `n` upserts of `data`: a missing script is
      created together with its sections. */
  function ScriptsUpTo(t: Tables, data: seq<ScriptSeed>, n: nat): (r: Tables)
    requires TableValid(t.scripts) && TableValid(t.sections) && n <= |data|
    ensures TableValid(r.scripts) && TableValid(r.sections)
    decreases n
  {
    if n == 0 then t
    else
      var u := ScriptsUpTo(t, data, n - 1);
      if n in u.scripts.rows then u
      else
        var created := Insert(u.scripts, data[n - 1].script);
        Tables(created.table, InsertAll(u.sections, Owned(created.id, data[n - 1].sections)).table)
  }

  /** Seeding scripts never changes or removes a stored script or section. */
  lemma {:induction false} ScriptsKeep(t: Tables, data: seq<ScriptSeed>, n: nat)
    requires TableValid(t.scripts) && TableValid(t.sections) && n <= |data|
    ensures var r := ScriptsUpTo(t, data, n);
      && (forall id | id in t.scripts.rows :: id in r.scripts.rows && r.scripts.rows[id] == t.scripts.rows[id])
      && (forall id | id in t.sections.rows :: id in r.sections.rows && r.sections.rows[id] == t.sections.rows[id])
    decreases n
  {
    if n > 0 {
      ScriptsKeep(t, data, n - 1);
    }
  }

  /** Seeding scripts keeps every section attached to a stored script. */
  lemma {:induction false} ScriptsOwned(t: Tables, data: seq<ScriptSeed>, n: nat)
    requires TableValid(t.scripts) && TableValid(t.sections) && n <= |data|
    requires SectionsOwned(t.sections, t.scripts)
    ensures SectionsOwned(ScriptsUpTo(t, data, n).sections, ScriptsUpTo(t, data, n).scripts)
    decreases n
  {
    if n > 0 {
      ScriptsOwned(t, data, n - 1);
      var u := ScriptsUpTo(t, data, n - 1);
      if n !in u.scripts.rows {
        ScriptWithSections(u.scripts, u.sections, data[n - 1].script, Owned(Insert(u.scripts, data[n - 1].script).id, data[n - 1].sections));
      }
    }
  }

  /** When scripts 1..n are all stored, seeding scripts changes nothing, sections included. */
  lemma {:induction false} ScriptsIdempotent(t: Tables, data: seq<ScriptSeed>, n: nat)
    requires TableValid(t.scripts) && TableValid(t.sections) && n <= |data|
    requires forall id | 1 <= id <= n :: id in t.scripts.rows
    ensures ScriptsUpTo(t, data, n) == t
    decreases n
  {
    if n > 0 {
      ScriptsIdempotent(t, data, n - 1);
    }
  }

  /** On empty tables whose sequences start at 1, the `i`-th seed script lands at id `i + 1`. */
  lemma {:induction false} ScriptsFresh(data: seq<ScriptSeed>, n: nat)
    requires n <= |data|
    ensures var r := ScriptsUpTo(Tables(Table(map[], 1), Table(map[], 1)), data, n);
      && r.scripts.next == n + 1
      && (forall id :: id in r.scripts.rows <==> 1 <= id <= n)
      && forall i | 0 <= i < n :: r.scripts.rows[i + 1] == data[i].script
    decreases n
  {
    if n > 0 {
      ScriptsFresh(data, n - 1);
    }
  }

  /** The script loop (prisma/seed.ts:21-34). */
  method SeedScripts(db: Db, scripts: seq<ScriptSeed>)
    requires db.Valid()
    modifies db
    ensures db.Valid()
    ensures Tables(db.scripts, db.sections) == ScriptsUpTo(Tables(old(db.scripts), old(db.sections)), scripts, |scripts|)
    ensures db.personas == old(db.personas) && db.sessions == old(db.sessions) && db.users == old(db.users)
  {
    ghost var start := Tables(db.scripts, db.sections);
    for i := 0 to |scripts|
      invariant db.Valid()
      invariant Tables(db.scripts, db.sections) == ScriptsUpTo(start, scripts, i)
      invariant db.personas == old(db.personas) && db.sessions == old(db.sessions) && db.users == old(db.users)
    {
      var existing := Find(db.scripts, i + 1);
      if existing.None? {
        CreateSeedScript(db, scripts[i]);
      }
    }
  }

  /** `create: { ...scriptData, sections: { create: sections } }`: the script takes the next id and
      its sections the next section ids, all pointing at it; nothing else changes. */
  method CreateSeedScript(db: Db, seed: ScriptSeed)
    requires db.Valid()
    modifies db
    ensures db.Valid()
    ensures var created := Insert(old(db.scripts), seed.script);
      && db.scripts == created.table
      && db.sections == InsertAll(old(db.sections), Owned(created.id, seed.sections)).table
    ensures db.personas == old(db.personas) && db.sessions == old(db.sessions) && db.users == old(db.users)
  {
    var _, _ := db.AddScript(seed.script, Owned(Insert(db.scripts, seed.script).id, seed.sections));
  }

  /** `main` (prisma/seed.ts:7-37): personas first, then scripts. */
  method SeedAll(db: Db, personas: seq<PersonaRow>, scripts: seq<ScriptSeed>)
    requires db.Valid()
    modifies db
    ensures db.Valid()
    ensures db.personas == UpsertedUpTo(old(db.personas), personas, |personas|)
    ensures Tables(db.scripts, db.sections) == ScriptsUpTo(Tables(old(db.scripts), old(db.sections)), scripts, |scripts|)
    ensures db.sessions == old(db.sessions) && db.users == old(db.users)
  {
    SeedPersonas(db, personas);
    SeedScripts(db, scripts);
  }
}
