/** The database behind the Prisma client, as in-memory tables. A table maps ids to rows and
    keeps the next value of its autoincrement sequence: a `create` whose data carries no id takes
    that value. Column defaults the database fills in (timestamps, `isActive`) are inputs here. */
module Store {
  import opened Js

  datatype Table<T> = Table(rows: map<int, T>, next: int)

  /** Every stored id is positive and below the next id the sequence hands out. */
  predicate TableValid<T>(t: Table<T>) {
    t.next > 0 && forall id | id in t.rows :: 0 < id < t.next
  }

  /** What a `create` returns: the new table and the id the row got. */
  datatype Created<T> = Created(table: Table<T>, id: int)

  /** `create` without an id: the row is stored under a fresh id, and no other row changes. */
  function Insert<T>(t: Table<T>, row: T): (r: Created<T>)
    requires TableValid(t)
    ensures TableValid(r.table)
    ensures r.id !in t.rows && r.id in r.table.rows && r.table.rows[r.id] == row
    ensures r.table.rows.Keys == t.rows.Keys + {r.id}
    ensures forall id | id in t.rows :: r.table.rows[id] == t.rows[id]
    ensures r.id == t.next && r.table.next == t.next + 1
  {
    Created(Table(t.rows[t.next := row], t.next + 1), t.next)
  }

  /** `findUnique({ where: { id } })` */
  function Find<T>(t: Table<T>, id: int): (r: Option<T>)
    ensures r.Some? <==> id in t.rows
    ensures r.Some? ==> r.value == t.rows[id]
  {
    if id in t.rows then Some(t.rows[id]) else None
  }

  /** The ids of a table in increasing order: the order in which rows were created. */
  function IdsBelow<T>(t: Table<T>, n: int): (r: seq<int>)
    ensures forall k | 0 <= k < |r| :: r[k] in t.rows && 0 < r[k] < n
    ensures forall id | id in t.rows && 0 < id < n :: id in r
    ensures forall i, j | 0 <= i < j < |r| :: r[i] < r[j]
    decreases n
  {
    if n <= 1 then []
    else IdsBelow(t, n - 1) + (if n - 1 in t.rows then [n - 1] else [])
  }

  /** `findMany` without `orderBy`: every row with its id, in increasing id order. */
  function Rows<T(!new)>(t: Table<T>): (r: seq<(int, T)>)
    requires TableValid(t)
    ensures forall x :: x in r <==> x.0 in t.rows && t.rows[x.0] == x.1
    ensures forall i, j | 0 <= i < j < |r| :: r[i].0 < r[j].0
  {
    var ids := IdsBelow(t, t.next);
    var r := seq(|ids|, k requires 0 <= k < |ids| => (ids[k], t.rows[ids[k]]));
    assert forall x: (int, T) | x.0 in t.rows && t.rows[x.0] == x.1 :: x in r by {
      forall x: (int, T) | x.0 in t.rows && t.rows[x.0] == x.1 ensures x in r {
        var k :| 0 <= k < |ids| && ids[k] == x.0;
        assert r[k] == x;
      }
    }
    r
  }

  /** The `where` of a `findMany`: the elements that satisfy `keep`, in their original order. */
  function Filter<T(!new)>(xs: seq<T>, keep: T -> bool): (r: seq<T>)
    ensures forall x :: x in r <==> x in xs && keep(x)
    ensures |r| <= |xs|
    decreases |xs|
  {
    if |xs| == 0 then []
    else
      assert xs == [xs[0]] + xs[1..];
      (if keep(xs[0]) then [xs[0]] else []) + Filter(xs[1..], keep)
  }

  /** Two conditions that agree on every element select the same elements. */
  lemma {:induction false} FilterAgree<T(!new)>(xs: seq<T>, keep: T -> bool, keep': T -> bool)
    requires forall x :: keep(x) == keep'(x)
    ensures Filter(xs, keep) == Filter(xs, keep')
    decreases |xs|
  {
    if |xs| > 0 {
      FilterAgree(xs[1..], keep, keep');
    }
  }

  /** What a nested `create` of several rows returns: the new table and the ids, in order. */
  datatype Inserted<T> = Inserted(table: Table<T>, ids: seq<int>)

  /** The row that a create of `rows` starting at id `first` stores under `id`. */
  function NewRow<T>(rows: seq<T>, first: int, id: int): T
    requires first <= id < first + |rows|
  {
    rows[id - first]
  }

  /** `create` of several rows without ids: the rows take the next ids in order, and no other row
      changes. */
  function InsertAll<T>(t: Table<T>, rows: seq<T>): (r: Inserted<T>)
    requires TableValid(t)
    ensures TableValid(r.table) && r.table.next == t.next + |rows|
    ensures |r.ids| == |rows| && forall k | 0 <= k < |rows| :: r.ids[k] == t.next + k
    ensures forall k | 0 <= k < |rows| ::
      r.ids[k] !in t.rows && r.ids[k] in r.table.rows && r.table.rows[r.ids[k]] == rows[k]
    ensures forall id :: id in r.table.rows <==> id in t.rows || t.next <= id < t.next + |rows|
    ensures forall id | id in t.rows :: r.table.rows[id] == t.rows[id]
    ensures forall id | id in r.table.rows && id !in t.rows :: r.table.rows[id] == rows[id - t.next]
  {
    var added := map id | t.next <= id < t.next + |rows| :: NewRow(rows, t.next, id);
    Inserted(Table(t.rows + added, t.next + |rows|), seq(|rows|, k requires 0 <= k < |rows| => t.next + k))
  }

  // Rows. The schema file is not part of this model: columns whose type is not pinned down by
  // the handlers hold a JavaScript value as written by the creating code.

  datatype PersonaRow = PersonaRow(
    name: Value, roleTitle: Value, personalitySummary: Value, systemPrompt: Value,
    difficulty: Value, avatarEmoji: Value, traits: Value)

  datatype ScriptRow = ScriptRow(
    title: Value, description: Value, industry: Value, companySize: Value,
    targetLocation: Value, productName: Value, targetRole: Value, difficultyLevel: Value,
    createdAt: Instant)

  /** `orderIndex` is an integer column: it is sorted on, and a section without one gets 0. */
  datatype SectionRow = SectionRow(
    scriptId: int, sectionType: Value, title: Value, content: Value, talkingPoints: Value,
    tips: Value, orderIndex: int)

  datatype SessionRow = SessionRow(
    userId: int, scriptId: int, personaId: int, startedAt: Instant, endedAt: Option<Instant>,
    isActive: bool, feedbackSummary: Option<string>)

  datatype UserRow = UserRow(
    email: string, hashedPassword: string, fullName: string, isActive: bool, createdAt: Instant)

  /** Every section belongs to a stored script. */
  predicate SectionsOwned(sections: Table<SectionRow>, scripts: Table<ScriptRow>) {
    forall id | id in sections.rows :: sections.rows[id].scriptId in scripts.rows
  }

  /** Every session belongs to a stored script and a stored persona. */
  predicate SessionsOwned(sessions: Table<SessionRow>, scripts: Table<ScriptRow>, personas: Table<PersonaRow>) {
    forall id | id in sessions.rows ::
      sessions.rows[id].scriptId in scripts.rows && sessions.rows[id].personaId in personas.rows
  }

  /** The unique index on `User.email`. */
  predicate EmailsUnique(users: Table<UserRow>) {
    forall i, j | i in users.rows && j in users.rows && users.rows[i].email == users.rows[j].email :: i == j
  }

  /** The invariant of the database: valid sequences, references that resolve, unique emails. */
  predicate Consistent(personas: Table<PersonaRow>, scripts: Table<ScriptRow>, sections: Table<SectionRow>,
                       sessions: Table<SessionRow>, users: Table<UserRow>) {
    && TableValid(personas) && TableValid(scripts) && TableValid(sections)
    && TableValid(sessions) && TableValid(users)
    && SectionsOwned(sections, scripts) && SessionsOwned(sessions, scripts, personas) && EmailsUnique(users)
  }

  /** Creating a script together with sections that point at it keeps every section owned. */
  lemma ScriptWithSections(scripts: Table<ScriptRow>, sections: Table<SectionRow>, script: ScriptRow, rows: seq<SectionRow>)
    requires TableValid(scripts) && TableValid(sections) && SectionsOwned(sections, scripts)
    requires forall k | 0 <= k < |rows| :: rows[k].scriptId == Insert(scripts, script).id
    ensures SectionsOwned(InsertAll(sections, rows).table, Insert(scripts, script).table)
  {
    var created := Insert(scripts, script);
    var added := InsertAll(sections, rows);
    assert created.id in created.table.rows;
    assert scripts.rows.Keys <= created.table.rows.Keys;
    forall id | id in added.table.rows ensures added.table.rows[id].scriptId in created.table.rows {
      if id in sections.rows {
        assert added.table.rows[id] == sections.rows[id];
        assert sections.rows[id].scriptId in scripts.rows;
      } else {
        var k := id - sections.next;
        assert 0 <= k < |rows|;
        assert added.table.rows[id] == rows[k];
      }
    }
  }

  /** The database stays consistent when a script is created together with sections that point at
      it: stored sessions keep their script, since no script goes away. */
  lemma ConsistentWithScript(personas: Table<PersonaRow>, scripts: Table<ScriptRow>, sections: Table<SectionRow>,
                             sessions: Table<SessionRow>, users: Table<UserRow>, script: ScriptRow, rows: seq<SectionRow>)
    requires Consistent(personas, scripts, sections, sessions, users)
    requires forall k | 0 <= k < |rows| :: rows[k].scriptId == Insert(scripts, script).id
    ensures Consistent(personas, Insert(scripts, script).table, InsertAll(sections, rows).table, sessions, users)
  {
    ScriptWithSections(scripts, sections, script, rows);
    var created := Insert(scripts, script);
    assert SessionsOwned(sessions, created.table, personas);
  }

  /** The Prisma client's tables. */
  class Db {
    var personas: Table<PersonaRow>
    var scripts: Table<ScriptRow>
    var sections: Table<SectionRow>
    var sessions: Table<SessionRow>
    var users: Table<UserRow>

    ghost predicate Valid()
      reads this
    {
      Consistent(personas, scripts, sections, sessions, users)
    }

    /** An empty database: every sequence starts at 1. */
    constructor ()
      ensures Valid()
      ensures personas.rows == map[] && scripts.rows == map[] && sections.rows == map[]
      ensures sessions.rows == map[] && users.rows == map[]
      ensures personas.next == 1 && scripts.next == 1
    {
      personas := Table(map[], 1);
      scripts := Table(map[], 1);
      sections := Table(map[], 1);
      sessions := Table(map[], 1);
      users := Table(map[], 1);
    }

    /** A script create with a nested create of its sections: the script takes the next script id,
        the sections the next section ids in order, all pointing at the new script; no other table
        changes and the database stays consistent. */
    method AddScript(script: ScriptRow, rows: seq<SectionRow>) returns (id: int, ids: seq<int>)
      requires Valid()
      requires forall k | 0 <= k < |rows| :: rows[k].scriptId == Insert(scripts, script).id
      modifies this
      ensures Valid()
      ensures id == Insert(old(scripts), script).id && scripts == Insert(old(scripts), script).table
      ensures ids == InsertAll(old(sections), rows).ids && sections == InsertAll(old(sections), rows).table
      ensures personas == old(personas) && sessions == old(sessions) && users == old(users)
    {
      var created := Insert(scripts, script);
      var added := InsertAll(sections, rows);
      ConsistentWithScript(personas, scripts, sections, sessions, users, script, rows);
      scripts := created.table;
      sections := added.table;
      id := created.id;
      ids := added.ids;
    }
  }

  // The records Prisma returns, as JavaScript objects with the camelCase keys of the schema.

  function SectionRecord(id: int, s: SectionRow): Value {
    Obj(map[
      "id" := Num(id), "scriptId" := Num(s.scriptId), "sectionType" := s.sectionType,
      "title" := s.title, "content" := s.content, "talkingPoints" := s.talkingPoints,
      "tips" := s.tips, "orderIndex" := Num(s.orderIndex)])
  }

  /** A script with its sections included, in the order given. */
  function ScriptRecord(id: int, s: ScriptRow, sections: seq<(int, SectionRow)>): Value {
    Obj(map[
      "id" := Num(id), "title" := s.title, "description" := s.description,
      "industry" := s.industry, "companySize" := s.companySize,
      "targetLocation" := s.targetLocation, "productName" := s.productName,
      "targetRole" := s.targetRole, "difficultyLevel" := s.difficultyLevel,
      "createdAt" := Date(s.createdAt),
      "sections" := Arr(SectionRecords(sections))])
  }

  function SectionRecords(sections: seq<(int, SectionRow)>): (r: seq<Value>)
    ensures |r| == |sections|
    ensures forall k | 0 <= k < |r| :: r[k] == SectionRecord(sections[k].0, sections[k].1)
  {
    seq(|sections|, k requires 0 <= k < |sections| => SectionRecord(sections[k].0, sections[k].1))
  }
}
