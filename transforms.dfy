/** The API projection layer: Prisma records (camelCase) to response objects (snake_case).
    Inputs are arbitrary JavaScript values, as the untyped parameters of the source allow, so a
    record that is `null` or `undefined` makes the first property read throw. */
module Transforms {
  import opened Js

  /** `parseJson(val, fallback)`: an array as it is, a string through `JSON.parse` (the fallback
      when that throws), anything else the fallback. */
  function ParseJson(val: Value, fallback: Value, parse: Parser): (r: Value)
    ensures val.Arr? ==> r == val
    ensures val.Str? && parse(val.s).Parsed? ==> r == parse(val.s).value
    ensures val.Str? && parse(val.s).SyntaxError? ==> r == fallback
    ensures !val.Arr? && !val.Str? ==> r == fallback
  {
    if val.Arr? then val
    else if val.Str? then
      match parse(val.s)
      case Parsed(v) => v
      case SyntaxError(_) => fallback
    else fallback
  }

  /** `v?.toISOString?.() ?? v`: a `Date` becomes its ISO text; a value without the method passes
      through; a value whose `toISOString` is something other than a function makes the call throw. */
  function Stamp(v: Value, callee: string): (r: Result<Value, JsError>)
    ensures v.Date? ==> r == Ok(IsoText(v.t))
    ensures !v.Date? && Nullish(Get(v, "toISOString")) ==> r == Ok(v)
    ensures !v.Date? && !Nullish(Get(v, "toISOString")) ==> r == Err(NotAFunction(callee))
  {
    if v.Date? then Ok(IsoText(v.t))
    else if Nullish(Get(v, "toISOString")) then Ok(v)
    else Err(NotAFunction(callee))
  }

  /** `items.map(f)` with an `f` that may throw: the first throw ends the map. */
  function MapResults(items: seq<Value>, f: Value -> Result<Value, JsError>): (r: Result<seq<Value>, JsError>)
    ensures r.Ok? <==> forall k | 0 <= k < |items| :: f(items[k]).Ok?
    ensures r.Ok? ==> |r.value| == |items| && forall k | 0 <= k < |items| :: r.value[k] == f(items[k]).value
    ensures r.Err? ==> exists k | 0 <= k < |items| :: f(items[k]) == Err(r.error) && forall j | 0 <= j < k :: f(items[j]).Ok?
    decreases |items|
  {
    if |items| == 0 then Ok([])
    else
      match f(items[0])
      case Err(e) => Err(e)
      case Ok(head) =>
        match MapResults(items[1..], f)
        case Err(e) =>
          assert forall k | 1 <= k < |items| :: items[k] == items[1..][k - 1];
          Err(e)
        case Ok(tail) =>
          assert forall k | 1 <= k < |items| :: items[k] == items[1..][k - 1];
          Ok([head] + tail)
  }

  /** `xs?.map(f) ?? none`: nothing to map gives `none`; only an array has a `map` method. */
  function MapOptional(xs: Value, f: Value -> Result<Value, JsError>, none: Value, callee: string): (r: Result<Value, JsError>)
    ensures Nullish(xs) ==> r == Ok(none)
    ensures xs.Arr? ==> (r.Ok? <==> MapResults(xs.items, f).Ok?)
    ensures xs.Arr? && r.Ok? ==> r.value == Arr(MapResults(xs.items, f).value)
    ensures !Nullish(xs) && !xs.Arr? ==> r == Err(NotAFunction(callee))
  {
    if Nullish(xs) then Ok(none)
    else if xs.Arr? then
      match MapResults(xs.items, f)
      case Ok(items) => Ok(Arr(items))
      case Err(e) => Err(e)
    else Err(NotAFunction(callee))
  }

  /** The output object has `snake` set to the input's `camel`, for every pair listed. */
  predicate Copies(out: Value, src: Value, columns: seq<(string, string)>) {
    out.Obj? && forall k | 0 <= k < |columns| :: columns[k].0 in out.fields && out.fields[columns[k].0] == Get(src, columns[k].1)
  }

  /** The output has exactly these keys. */
  predicate HasKeys(out: Value, keys: set<string>) {
    out.Obj? && out.fields.Keys == keys
  }

  const SectionColumns: seq<(string, string)> := [
    ("id", "id"), ("script_id", "scriptId"), ("section_type", "sectionType"), ("title", "title"),
    ("content", "content"), ("tips", "tips"), ("order_index", "orderIndex")]

  /** The keys of a projected section: its columns and `talking_points`. */
  const SectionKeys: set<string> :=
    {"id", "script_id", "section_type", "title", "content", "talking_points", "tips", "order_index"}

  /** The fields of a projected section, once `talking_points` is known. */
  function SectionFields(s: Value, talkingPoints: Value): map<string, Value> {
    map[
      "id" := Get(s, "id"),
      "script_id" := Get(s, "scriptId"),
      "section_type" := Get(s, "sectionType"),
      "title" := Get(s, "title"),
      "content" := Get(s, "content"),
      "talking_points" := talkingPoints,
      "tips" := Get(s, "tips"),
      "order_index" := Get(s, "orderIndex")]
  }

  lemma SectionFieldsCopy(s: Value, talkingPoints: Value)
    ensures Copies(Obj(SectionFields(s, talkingPoints)), s, SectionColumns)
  {
    var out := Obj(SectionFields(s, talkingPoints));
    forall k | 0 <= k < |SectionColumns| ensures SectionColumns[k].0 in out.fields && out.fields[SectionColumns[k].0] == Get(s, SectionColumns[k].1) {
      assert k == 0 || k == 1 || k == 2 || k == 3 || k == 4 || k == 5 || k == 6;
    }
  }

  /** `toSnakeSection(s)` */
  function ToSnakeSection(s: Value, parse: Parser): (r: Result<Value, JsError>)
    ensures r.Err? <==> Nullish(s)
    ensures r.Err? ==> r.error == ReadOfNullish(s, "id")
    ensures r.Ok? ==> Copies(r.value, s, SectionColumns) && HasKeys(r.value, SectionKeys)
    ensures r.Ok? ==> r.value.fields["talking_points"] == ParseJson(Get(s, "talkingPoints"), Arr([]), parse)
  {
    if Nullish(s) then Err(ReadOfNullish(s, "id"))
    else
      var talkingPoints := ParseJson(Get(s, "talkingPoints"), Arr([]), parse);
      SectionFieldsCopy(s, talkingPoints);
      Ok(Obj(SectionFields(s, talkingPoints)))
  }

  const ScriptColumns: seq<(string, string)> := [
    ("id", "id"), ("title", "title"), ("description", "description"), ("industry", "industry"),
    ("company_size", "companySize"), ("target_location", "targetLocation"),
    ("product_name", "productName"), ("target_role", "targetRole"),
    ("difficulty_level", "difficultyLevel")]

  /** The keys of a projected script: its columns, `created_at` and `sections`. */
  const ScriptKeys: set<string> :=
    {"id", "title", "description", "industry", "company_size", "target_location",
     "product_name", "target_role", "difficulty_level", "created_at", "sections"}

  /** The fields of a projected script, once its two computed fields are known. */
  function ScriptFields(s: Value, createdAt: Value, sections: Value): map<string, Value> {
    map[
      "id" := Get(s, "id"),
      "title" := Get(s, "title"),
      "description" := Get(s, "description"),
      "industry" := Get(s, "industry"),
      "company_size" := Get(s, "companySize"),
      "target_location" := Get(s, "targetLocation"),
      "product_name" := Get(s, "productName"),
      "target_role" := Get(s, "targetRole"),
      "difficulty_level" := Get(s, "difficultyLevel"),
      "created_at" := createdAt,
      "sections" := sections]
  }

  lemma ScriptFieldsCopy(s: Value, createdAt: Value, sections: Value)
    ensures Copies(Obj(ScriptFields(s, createdAt, sections)), s, ScriptColumns)
  {
    var out := Obj(ScriptFields(s, createdAt, sections));
    forall k | 0 <= k < |ScriptColumns| ensures ScriptColumns[k].0 in out.fields && out.fields[ScriptColumns[k].0] == Get(s, ScriptColumns[k].1) {
      assert k == 0 || k == 1 || k == 2 || k == 3 || k == 4 || k == 5 || k == 6 || k == 7 || k == 8;
    }
  }

  /** The object `toSnakeScript` returns, once its two computed fields are known. */
  function ScriptObject(s: Value, createdAt: Value, sections: Value): (r: Value)
    ensures Copies(r, s, ScriptColumns) && HasKeys(r, ScriptKeys)
    ensures r.fields["created_at"] == createdAt && r.fields["sections"] == sections
  {
    ScriptFieldsCopy(s, createdAt, sections);
    Obj(ScriptFields(s, createdAt, sections))
  }

  /** `toSnakeScript(s)`: the timestamp is converted before the sections are mapped. */
  function ToSnakeScript(s: Value, parse: Parser): (r: Result<Value, JsError>)
    ensures Nullish(s) ==> r == Err(ReadOfNullish(s, "id"))
    ensures r.Ok? ==> Copies(r.value, s, ScriptColumns) && HasKeys(r.value, ScriptKeys)
    ensures r.Ok? ==> Ok(r.value.fields["created_at"]) == Stamp(Get(s, "createdAt"), "s.createdAt.toISOString")
    ensures r.Ok? ==>
      Ok(r.value.fields["sections"]) == MapOptional(Get(s, "sections"), x => ToSnakeSection(x, parse), Arr([]), "s.sections?.map")
    ensures (!Nullish(s) && Stamp(Get(s, "createdAt"), "s.createdAt.toISOString").Ok?
      && MapOptional(Get(s, "sections"), x => ToSnakeSection(x, parse), Arr([]), "s.sections?.map").Ok?) ==> r.Ok?
  {
    if Nullish(s) then Err(ReadOfNullish(s, "id"))
    else
      match Stamp(Get(s, "createdAt"), "s.createdAt.toISOString")
      case Err(e) => Err(e)
      case Ok(createdAt) =>
        match MapOptional(Get(s, "sections"), x => ToSnakeSection(x, parse), Arr([]), "s.sections?.map")
        case Err(e) => Err(e)
        case Ok(sections) => Ok(ScriptObject(s, createdAt, sections))
  }

  /** A script's sections: `[]` when it has none, otherwise one projected section per input
      section, in the same order. */
  lemma ScriptSections(s: Value, parse: Parser)
    requires ToSnakeScript(s, parse).Ok?
    ensures var out := ToSnakeScript(s, parse).value.fields["sections"];
      && (Nullish(Get(s, "sections")) ==> out == Arr([]))
      && (!Nullish(Get(s, "sections")) ==>
            && Get(s, "sections").Arr? && out.Arr?
            && |out.items| == |Get(s, "sections").items|
            && forall k | 0 <= k < |out.items| ::
                 Ok(out.items[k]) == ToSnakeSection(Get(s, "sections").items[k], parse))
  {
    var secs := Get(s, "sections");
    var f := x => ToSnakeSection(x, parse);
    if !Nullish(secs) {
      assert secs.Arr?;
      var m := MapResults(secs.items, f);
      assert m.Ok?;
      forall k | 0 <= k < |secs.items| ensures Ok(m.value[k]) == ToSnakeSection(secs.items[k], parse) {
        assert f(secs.items[k]).Ok?;
      }
    }
  }

  const PersonaColumns: seq<(string, string)> := [
    ("id", "id"), ("name", "name"), ("role_title", "roleTitle"),
    ("personality_summary", "personalitySummary"), ("system_prompt", "systemPrompt"),
    ("difficulty", "difficulty"), ("avatar_emoji", "avatarEmoji")]

  /** The keys of a projected persona: its columns and `traits`. */
  const PersonaKeys: set<string> :=
    {"id", "name", "role_title", "personality_summary", "system_prompt", "difficulty", "avatar_emoji", "traits"}

  /** The fields of a projected persona, once `traits` is known. */
  function PersonaFields(p: Value, traits: Value): map<string, Value> {
    map[
      "id" := Get(p, "id"),
      "name" := Get(p, "name"),
      "role_title" := Get(p, "roleTitle"),
      "personality_summary" := Get(p, "personalitySummary"),
      "system_prompt" := Get(p, "systemPrompt"),
      "difficulty" := Get(p, "difficulty"),
      "avatar_emoji" := Get(p, "avatarEmoji"),
      "traits" := traits]
  }

  lemma PersonaFieldsCopy(p: Value, traits: Value)
    ensures Copies(Obj(PersonaFields(p, traits)), p, PersonaColumns)
  {
    var out := Obj(PersonaFields(p, traits));
    forall k | 0 <= k < |PersonaColumns| ensures PersonaColumns[k].0 in out.fields && out.fields[PersonaColumns[k].0] == Get(p, PersonaColumns[k].1) {
      assert k == 0 || k == 1 || k == 2 || k == 3 || k == 4 || k == 5 || k == 6;
    }
  }

  /** `toSnakePersona(p)` */
  function ToSnakePersona(p: Value, parse: Parser): (r: Result<Value, JsError>)
    ensures r.Err? <==> Nullish(p)
    ensures r.Err? ==> r.error == ReadOfNullish(p, "id")
    ensures r.Ok? ==> Copies(r.value, p, PersonaColumns) && HasKeys(r.value, PersonaKeys)
    ensures r.Ok? ==> r.value.fields["traits"] == ParseJson(Get(p, "traits"), Arr([]), parse)
  {
    if Nullish(p) then Err(ReadOfNullish(p, "id"))
    else
      var traits := ParseJson(Get(p, "traits"), Arr([]), parse);
      PersonaFieldsCopy(p, traits);
      Ok(Obj(PersonaFields(p, traits)))
  }

  const MessageColumns: seq<(string, string)> := [
    ("id", "id"), ("session_id", "sessionId"), ("role", "role"), ("content", "content")]

  /** The keys of a projected message: its columns and `created_at`. */
  const MessageKeys: set<string> := {"id", "session_id", "role", "content", "created_at"}

  /** `toSnakeMessage(m)` */
  function ToSnakeMessage(m: Value): (r: Result<Value, JsError>)
    ensures Nullish(m) ==> r == Err(ReadOfNullish(m, "id"))
    ensures !Nullish(m) ==> (r.Ok? <==> Stamp(Get(m, "createdAt"), "m.createdAt.toISOString").Ok?)
    ensures r.Ok? ==> Copies(r.value, m, MessageColumns) && HasKeys(r.value, MessageKeys)
    ensures r.Ok? ==> Ok(r.value.fields["created_at"]) == Stamp(Get(m, "createdAt"), "m.createdAt.toISOString")
  {
    if Nullish(m) then Err(ReadOfNullish(m, "id"))
    else
      match Stamp(Get(m, "createdAt"), "m.createdAt.toISOString")
      case Err(e) => Err(e)
      case Ok(createdAt) =>
        var out := Obj(map[
          "id" := Get(m, "id"),
          "session_id" := Get(m, "sessionId"),
          "role" := Get(m, "role"),
          "content" := Get(m, "content"),
          "created_at" := createdAt]);
        assert Copies(out, m, MessageColumns) by {
          forall k | 0 <= k < |MessageColumns| ensures MessageColumns[k].0 in out.fields && out.fields[MessageColumns[k].0] == Get(m, MessageColumns[k].1) {
            assert k == 0 || k == 1 || k == 2 || k == 3;
          }
        }
        Ok(out)
  }

  const SessionColumns: seq<(string, string)> := [
    ("id", "id"), ("user_id", "userId"), ("script_id", "scriptId"), ("persona_id", "personaId"),
    ("is_active", "isActive"), ("feedback_summary", "feedbackSummary")]

  /** The keys of a projected session: its columns, the two timestamps, `persona`, `script` and
      `messages`. */
  const SessionKeys: set<string> :=
    {"id", "user_id", "script_id", "persona_id", "started_at", "ended_at",
     "is_active", "feedback_summary", "persona", "script", "messages"}

  /** `s.script ? { id: s.script.id, title: s.script.title } : undefined` */
  function ScriptSummary(script: Value): (r: Value)
    ensures !Truthy(script) ==> r == Undefined
    ensures Truthy(script) ==> r == Obj(map["id" := Get(script, "id"), "title" := Get(script, "title")])
  {
    if Truthy(script) then Obj(map["id" := Get(script, "id"), "title" := Get(script, "title")]) else Undefined
  }

  function SessionFields(s: Value, startedAt: Value, endedAt: Value, persona: Value, script: Value, messages: Value): map<string, Value> {
    map[
      "id" := Get(s, "id"),
      "user_id" := Get(s, "userId"),
      "script_id" := Get(s, "scriptId"),
      "persona_id" := Get(s, "personaId"),
      "started_at" := startedAt,
      "ended_at" := endedAt,
      "is_active" := Get(s, "isActive"),
      "feedback_summary" := Get(s, "feedbackSummary"),
      "persona" := persona,
      "script" := script,
      "messages" := messages]
  }

  lemma SessionFieldsCopy(s: Value, startedAt: Value, endedAt: Value, persona: Value, script: Value, messages: Value)
    ensures Copies(Obj(SessionFields(s, startedAt, endedAt, persona, script, messages)), s, SessionColumns)
  {
    var out := Obj(SessionFields(s, startedAt, endedAt, persona, script, messages));
    forall k | 0 <= k < |SessionColumns| ensures SessionColumns[k].0 in out.fields && out.fields[SessionColumns[k].0] == Get(s, SessionColumns[k].1) {
      assert k == 0 || k == 1 || k == 2 || k == 3 || k == 4 || k == 5;
    }
  }

  /** The object `toSnakeSession` returns, once its computed fields are known. */
  function SessionObject(s: Value, startedAt: Value, endedAt: Value, persona: Value, script: Value, messages: Value): (r: Value)
    ensures Copies(r, s, SessionColumns)
    ensures HasKeys(r, SessionKeys)
    ensures r.fields["started_at"] == startedAt && r.fields["ended_at"] == endedAt
    ensures r.fields["persona"] == persona && r.fields["messages"] == messages
    ensures r.fields["script"] == script
  {
    SessionFieldsCopy(s, startedAt, endedAt, persona, script, messages);
    Obj(SessionFields(s, startedAt, endedAt, persona, script, messages))
  }

  /** `toSnakeSession(s)`: the two timestamps are converted, then the persona, then the messages. */
  function ToSnakeSession(s: Value, parse: Parser): (r: Result<Value, JsError>)
    ensures Nullish(s) ==> r == Err(ReadOfNullish(s, "id"))
    ensures r.Ok? ==>
      Copies(r.value, s, SessionColumns) && HasKeys(r.value, SessionKeys)
    ensures r.Ok? ==> Ok(r.value.fields["started_at"]) == Stamp(Get(s, "startedAt"), "s.startedAt.toISOString")
    ensures r.Ok? ==> Ok(r.value.fields["ended_at"]) == Stamp(Get(s, "endedAt"), "s.endedAt.toISOString")
    ensures r.Ok? ==>
      r.value.fields["persona"] == (if Truthy(Get(s, "persona")) then ToSnakePersona(Get(s, "persona"), parse).value else Undefined)
    ensures r.Ok? ==> r.value.fields["script"] == ScriptSummary(Get(s, "script"))
    ensures r.Ok? ==> Ok(r.value.fields["messages"]) == MapOptional(Get(s, "messages"), ToSnakeMessage, Undefined, "s.messages?.map")
    ensures r.Ok? <==>
      && !Nullish(s)
      && Stamp(Get(s, "startedAt"), "s.startedAt.toISOString").Ok?
      && Stamp(Get(s, "endedAt"), "s.endedAt.toISOString").Ok?
      && MapOptional(Get(s, "messages"), ToSnakeMessage, Undefined, "s.messages?.map").Ok?
  {
    if Nullish(s) then Err(ReadOfNullish(s, "id"))
    else
      match Stamp(Get(s, "startedAt"), "s.startedAt.toISOString")
      case Err(e) => Err(e)
      case Ok(startedAt) =>
        match Stamp(Get(s, "endedAt"), "s.endedAt.toISOString")
        case Err(e) => Err(e)
        case Ok(endedAt) =>
          var persona := if Truthy(Get(s, "persona")) then ToSnakePersona(Get(s, "persona"), parse).value else Undefined;
          match MapOptional(Get(s, "messages"), ToSnakeMessage, Undefined, "s.messages?.map")
          case Err(e) => Err(e)
          case Ok(messages) => Ok(SessionObject(s, startedAt, endedAt, persona, ScriptSummary(Get(s, "script")), messages))
  }

  /** A session record without a persona or messages keeps them `undefined` (not `[]`), and its
      script, when present, is cut down to its id and title. */
  lemma SessionOptionalParts(s: Value, parse: Parser)
    requires ToSnakeSession(s, parse).Ok?
    ensures var out := ToSnakeSession(s, parse).value.fields;
      && (!Truthy(Get(s, "persona")) ==> out["persona"] == Undefined)
      && (Nullish(Get(s, "messages")) ==> out["messages"] == Undefined)
      && (Truthy(Get(s, "script")) ==> out["script"].Obj? && out["script"].fields.Keys == {"id", "title"})
  {
  }

  /** Timestamps: a `Date` becomes its ISO text, a string or a missing value passes through. */
  lemma StampCases(v: Value, callee: string)
    ensures v.Date? ==> Stamp(v, callee) == Ok(IsoText(v.t))
    ensures v.Str? || v.IsoText? || Nullish(v) ==> Stamp(v, callee) == Ok(v)
  {
  }

  /** A `talkingPoints` or `traits` column written with the serializer comes back as the array
      that was written, whenever the parser reads the serializer's output back. */
  lemma ParseJsonOfSerialized(v: Value, parse: Parser, stringify: Stringifier)
    requires v.Arr? && parse(stringify(v)) == Parsed(v)
    ensures ParseJson(Str(stringify(v)), Arr([]), parse) == v
    ensures ParseJson(v, Arr([]), parse) == v
  {
  }
}
