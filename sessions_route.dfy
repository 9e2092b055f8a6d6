/** `POST /api/roleplay/sessions` and `GET /api/roleplay/sessions`
    (src/app/api/roleplay/sessions/route.ts): starting a roleplay session for a script and a
    persona, and listing the current user's sessions. */
module SessionsRoute {
  import opened Js
  import opened Ordering
  import opened Store

  /** The 201 response of a new session (src/app/api/roleplay/sessions/route.ts:30-43). */
  function Started(id: int, s: SessionRow, script: ScriptRow, persona: PersonaRow): Value {
    Obj(map[
      "id" := Num(id), "script_id" := Num(s.scriptId), "persona_id" := Num(s.personaId),
      "started_at" := IsoText(s.startedAt), "is_active" := Bool(s.isActive),
      "script_title" := script.title, "persona_name" := persona.name,
      "persona_emoji" := persona.avatarEmoji, "messages" := Arr([])])
  }

  /** `POST /api/roleplay/sessions`. The script is looked up first, then the persona; either missing
      gives a 404 and writes nothing. Otherwise exactly one session is added for the user, the script
      and the persona, and no existing row changes. `now` and `active` are the values the database
      fills in for `startedAt` and `isActive`; `endedAt` and `feedbackSummary` start empty. */
  method CreateSession(db: Db, user: Option<AuthUser>, scriptId: int, personaId: int, now: Instant, active: bool)
    returns (r: Response)
    requires db.Valid()
    modifies db
    ensures db.Valid()
    ensures user.None? ==> r == Unauthorized() && unchanged(db)
    ensures user.Some? && scriptId !in old(db.scripts.rows) ==> r == Detail(404, "Script not found") && unchanged(db)
    ensures user.Some? && scriptId in old(db.scripts.rows) && personaId !in old(db.personas.rows) ==>
      r == Detail(404, "Persona not found") && unchanged(db)
    ensures user.Some? && scriptId in old(db.scripts.rows) && personaId in old(db.personas.rows) ==>
      var row := SessionRow(user.value.id, scriptId, personaId, now, None, active, None);
      var created := Insert(old(db.sessions), row);
      && db.sessions == created.table
      && db.personas == old(db.personas) && db.scripts == old(db.scripts)
      && db.sections == old(db.sections) && db.users == old(db.users)
      && r.status == 201
      && r.body == Started(created.id, row, old(db.scripts.rows[scriptId]), old(db.personas.rows[personaId]))
  {
    if user.None? {
      return Unauthorized();
    }
    var script := Find(db.scripts, scriptId);
    if script.None? {
      return Detail(404, "Script not found");
    }
    var persona := Find(db.personas, personaId);
    if persona.None? {
      return Detail(404, "Persona not found");
    }
    var row := SessionRow(user.value.id, scriptId, personaId, now, None, active, None);
    var created := Insert(db.sessions, row);
    db.sessions := created.table;
    r := Response(201, Started(created.id, row, script.value, persona.value));
  }

  /** A successful creation answers with the new session's ids and an empty message list. */
  lemma StartedShape(id: int, s: SessionRow, script: ScriptRow, persona: PersonaRow)
    ensures Get(Started(id, s, script, persona), "id") == Num(id)
    ensures Get(Started(id, s, script, persona), "script_id") == Num(s.scriptId)
    ensures Get(Started(id, s, script, persona), "persona_id") == Num(s.personaId)
    ensures Get(Started(id, s, script, persona), "messages") == Arr([])
    ensures Get(Started(id, s, script, persona), "script_title") == script.title
    ensures Get(Started(id, s, script, persona), "persona_name") == persona.name
  {
  }

  // ---------------------------------------------------------------------------------------------
  // GET
  // ---------------------------------------------------------------------------------------------

  /** `orderBy: { startedAt: "desc" }` as an ascending key. */
  function LatestFirst(x: (int, SessionRow)): int {
    -x.1.startedAt
  }

  /** The sessions GET lists: the user's own, most recently started first. */
  function UserSessions(t: Table<SessionRow>, userId: int): seq<(int, SessionRow)>
    requires TableValid(t)
  {
    SortBy(Filter(Rows(t), (x: (int, SessionRow)) => x.1.userId == userId), LatestFirst)
  }

  /** Exactly the user's sessions are listed, most recently started first. */
  lemma UserSessionsSpec(t: Table<SessionRow>, userId: int)
    requires TableValid(t)
    ensures forall x :: x in UserSessions(t, userId) <==> x.0 in t.rows && t.rows[x.0] == x.1 && x.1.userId == userId
    ensures forall i, j | 0 <= i < j < |UserSessions(t, userId)| ::
      UserSessions(t, userId)[i].1.startedAt >= UserSessions(t, userId)[j].1.startedAt
  {
    var own := Filter(Rows(t), (x: (int, SessionRow)) => x.1.userId == userId);
    forall x ensures x in UserSessions(t, userId) <==> x in own {
      SortedElements(own, LatestFirst, x);
    }
    assert SortedBy(UserSessions(t, userId), LatestFirst);
  }

  /** `s.endedAt?.toISOString() ?? null` */
  function EndedAt(endedAt: Option<Instant>): (r: Value)
    ensures endedAt.None? ==> r == Null
    ensures endedAt.Some? ==> r == IsoText(endedAt.value)
  {
    Coalesce(if endedAt.Some? then IsoText(endedAt.value) else Undefined, Null)
  }

  /** A nullable text column as JSON. */
  function Nullable(v: Option<string>): (r: Value)
    ensures v.None? ==> r == Null
    ensures v.Some? ==> r == Str(v.value)
  {
    if v.Some? then Str(v.value) else Null
  }

  /** `s.script?.title ?? null`: a missing script, or a nullish title, gives `null`. */
  function TitleOf(script: Option<ScriptRow>): (r: Value)
    ensures script.None? ==> r == Null
    ensures script.Some? ==> r == Coalesce(script.value.title, Null)
  {
    Coalesce(if script.Some? then script.value.title else Undefined, Null)
  }

  /** `s.persona?.name ?? null` */
  function NameOf(persona: Option<PersonaRow>): (r: Value)
    ensures persona.None? ==> r == Null
    ensures persona.Some? ==> r == Coalesce(persona.value.name, Null)
  {
    Coalesce(if persona.Some? then persona.value.name else Undefined, Null)
  }

  /** One listed session (src/app/api/roleplay/sessions/route.ts:57-67), with its script and persona
      included. */
  function SessionSummary(x: (int, SessionRow), scripts: Table<ScriptRow>, personas: Table<PersonaRow>): Value {
    var s := x.1;
    Obj(map[
      "id" := Num(x.0), "script_id" := Num(s.scriptId), "persona_id" := Num(s.personaId),
      "started_at" := IsoText(s.startedAt), "ended_at" := EndedAt(s.endedAt),
      "is_active" := Bool(s.isActive), "feedback_summary" := Nullable(s.feedbackSummary),
      "script_title" := TitleOf(Find(scripts, s.scriptId)), "persona_name" := NameOf(Find(personas, s.personaId))])
  }

  function SessionSummaries(xs: seq<(int, SessionRow)>, scripts: Table<ScriptRow>, personas: Table<PersonaRow>)
    : (r: seq<Value>)
    ensures |r| == |xs| && forall k | 0 <= k < |xs| :: r[k] == SessionSummary(xs[k], scripts, personas)
  {
    seq(|xs|, k requires 0 <= k < |xs| => SessionSummary(xs[k], scripts, personas))
  }

  /** A session that has not ended is listed with `ended_at: null`; one whose script or persona is
      gone, with a `null` title or name. */
  lemma SummaryNulls(x: (int, SessionRow), scripts: Table<ScriptRow>, personas: Table<PersonaRow>)
    ensures x.1.endedAt.None? ==> Get(SessionSummary(x, scripts, personas), "ended_at") == Null
    ensures x.1.scriptId !in scripts.rows ==> Get(SessionSummary(x, scripts, personas), "script_title") == Null
    ensures x.1.personaId !in personas.rows ==> Get(SessionSummary(x, scripts, personas), "persona_name") == Null
    ensures x.1.scriptId in scripts.rows && scripts.rows[x.1.scriptId].title.Str? ==>
      Get(SessionSummary(x, scripts, personas), "script_title") == scripts.rows[x.1.scriptId].title
  {
  }

  /** `GET /api/roleplay/sessions` */
  method ListSessions(db: Db, user: Option<AuthUser>) returns (r: Response)
    requires db.Valid()
    ensures user.None? ==> r == Unauthorized()
    ensures user.Some? ==>
      r == Response(200, Arr(SessionSummaries(UserSessions(db.sessions, user.value.id), db.scripts, db.personas)))
  {
    if user.None? {
      return Unauthorized();
    }
    var sessions := UserSessions(db.sessions, user.value.id);
    r := Response(200, Arr(SessionSummaries(sessions, db.scripts, db.personas)));
  }
}
