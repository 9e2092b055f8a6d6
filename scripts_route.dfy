/** `GET /api/scripts` and `POST /api/scripts` (src/app/api/scripts/route.ts). GET lists the
    scripts matching the query parameters, newest first. POST generates a script from a prospect
    description and stores it with its sections, filling in defaults for missing fields. */
module ScriptsRoute {
  import opened Js
  import opened Text
  import opened Ordering
  import opened Store
  import opened Transforms
  import opened RoleplayService
  import opened ScriptGenerator

  // ---------------------------------------------------------------------------------------------
  // GET: the `where` builder
  // ---------------------------------------------------------------------------------------------

  /** The query parameters GET reads; `searchParams.get` gives `null` (None) for a missing one. */
  datatype Query = Query(
    industry: Option<string>, companySize: Option<string>, location: Option<string>, search: Option<string>)

  /** A condition of a Prisma `where` object on one column. */
  datatype Constraint =
      /** `column: text` */
    | Equals(text: string)
      /** `column: { contains: text }` */
    | Includes(text: string)
      /** `OR: [{ column: constraint }, ...]` */
    | AnyOf(alternatives: seq<(string, Constraint)>)

  /** The `where` object: constraints by column name (`OR` for a disjunction). */
  type Where = map<string, Constraint>

  /** The column named `name` of a script row (`undefined` for an unknown column). */
  function Column(row: ScriptRow, name: string): Value {
    match name
    case "title" => row.title
    case "description" => row.description
    case "industry" => row.industry
    case "companySize" => row.companySize
    case "targetLocation" => row.targetLocation
    case "productName" => row.productName
    case "targetRole" => row.targetRole
    case "difficultyLevel" => row.difficultyLevel
    case _ => Undefined
  }

  /** `contains` on a string column: a plain substring test; a null column never contains anything. */
  predicate HasText(v: Value, text: string) {
    v.Str? && Contains(v.s, text)
  }

  /** How the database reads one constraint on a row. */
  predicate Holds(row: ScriptRow, name: string, c: Constraint)
    decreases c
  {
    match c
    case Equals(text) => Column(row, name) == Str(text)
    case Includes(text) => HasText(Column(row, name), text)
    case AnyOf(alternatives) =>
      exists i | 0 <= i < |alternatives| ::
        assert alternatives[i] in alternatives;
        Holds(row, alternatives[i].0, alternatives[i].1)
  }

  /** A row matches a `where` object when every constraint in it holds. */
  predicate Matches(where: Where, row: ScriptRow) {
    forall name | name in where :: Holds(row, name, where[name])
  }

  /** The scripts a query asks for, stated directly on the query: equal industry and company size,
      a location contained in the target location, a search text contained in the title or the
      description; a parameter that is not given asks for nothing. */
  predicate Selected(q: Query, row: ScriptRow) {
    && (Given(q.industry) ==> row.industry == Str(q.industry.value))
    && (Given(q.companySize) ==> row.companySize == Str(q.companySize.value))
    && (Given(q.location) ==> HasText(row.targetLocation, q.location.value))
    && (Given(q.search) ==> HasText(row.title, q.search.value) || HasText(row.description, q.search.value))
  }

  /** Builds the `where` object one parameter at a time (src/app/api/scripts/route.ts:17-26). */
  method BuildWhere(q: Query) returns (where: Where)
    ensures forall row :: Matches(where, row) <==> Selected(q, row)
    ensures ("industry" in where <==> Given(q.industry)) && ("companySize" in where <==> Given(q.companySize))
    ensures ("targetLocation" in where <==> Given(q.location)) && ("OR" in where <==> Given(q.search))
    ensures where.Keys <= {"industry", "companySize", "targetLocation", "OR"}
    ensures !Given(q.industry) && !Given(q.companySize) && !Given(q.location) && !Given(q.search) ==> where == map[]
  {
    where := map[];
    if Given(q.industry) {
      where := where["industry" := Equals(q.industry.value)];
    }
    if Given(q.companySize) {
      where := where["companySize" := Equals(q.companySize.value)];
    }
    if Given(q.location) {
      where := where["targetLocation" := Includes(q.location.value)];
    }
    if Given(q.search) {
      where := where["OR" := AnyOf([("title", Includes(q.search.value)), ("description", Includes(q.search.value))])];
    }
    forall row ensures Matches(where, row) <==> Selected(q, row) {
      MatchesByKey(where, row);
      if Given(q.search) {
        SearchHolds(row, q.search.value);
      }
    }
  }

  /** A `where` object over the four query keys matches when each constraint present holds. */
  lemma MatchesByKey(where: Where, row: ScriptRow)
    requires where.Keys <= {"industry", "companySize", "targetLocation", "OR"}
    ensures Matches(where, row) <==>
      && ("industry" in where ==> Holds(row, "industry", where["industry"]))
      && ("companySize" in where ==> Holds(row, "companySize", where["companySize"]))
      && ("targetLocation" in where ==> Holds(row, "targetLocation", where["targetLocation"]))
      && ("OR" in where ==> Holds(row, "OR", where["OR"]))
  {
  }

  /** The search constraint holds when the title or the description contains the text. */
  lemma SearchHolds(row: ScriptRow, text: string)
    ensures Holds(row, "OR", AnyOf([("title", Includes(text)), ("description", Includes(text))]))
      <==> HasText(row.title, text) || HasText(row.description, text)
  {
    var alternatives := [("title", Includes(text)), ("description", Includes(text))];
    assert Holds(row, alternatives[0].0, alternatives[0].1) == HasText(row.title, text);
    assert Holds(row, alternatives[1].0, alternatives[1].1) == HasText(row.description, text);
  }

  // ---------------------------------------------------------------------------------------------
  // GET: the listing
  // ---------------------------------------------------------------------------------------------

  /** `orderBy: { createdAt: "desc" }` as an ascending key. */
  function NewestFirst(x: (int, ScriptRow)): int {
    -x.1.createdAt
  }

  /** The rows GET lists: the selected scripts, newest first. */
  function Listing(t: Table<ScriptRow>, q: Query): seq<(int, ScriptRow)>
    requires TableValid(t)
  {
    SortBy(Filter(Rows(t), (x: (int, ScriptRow)) => Selected(q, x.1)), NewestFirst)
  }

  /** The listing holds exactly the stored scripts the query selects, newest first. */
  lemma ListingSpec(t: Table<ScriptRow>, q: Query)
    requires TableValid(t)
    ensures forall x :: x in Listing(t, q) <==> x.0 in t.rows && t.rows[x.0] == x.1 && Selected(q, x.1)
    ensures forall i, j | 0 <= i < j < |Listing(t, q)| :: Listing(t, q)[i].1.createdAt >= Listing(t, q)[j].1.createdAt
  {
    var found := Filter(Rows(t), (x: (int, ScriptRow)) => Selected(q, x.1));
    forall x ensures x in Listing(t, q) <==> x in found {
      SortedElements(found, NewestFirst, x);
    }
    assert SortedBy(Listing(t, q), NewestFirst);
  }

  /** With no parameters given, every stored script is listed. */
  lemma ListingUnfiltered(t: Table<ScriptRow>)
    requires TableValid(t)
    ensures forall id | id in t.rows :: (id, t.rows[id]) in Listing(t, Query(None, None, None, None))
  {
    ListingSpec(t, Query(None, None, None, None));
  }

  /** One element of the GET response (src/app/api/scripts/route.ts:34-45). */
  function Summary(x: (int, ScriptRow)): Value {
    var s := x.1;
    Obj(map[
      "id" := Num(x.0), "title" := s.title, "description" := s.description, "industry" := s.industry,
      "company_size" := s.companySize, "target_location" := s.targetLocation,
      "product_name" := s.productName, "target_role" := s.targetRole,
      "difficulty_level" := s.difficultyLevel, "created_at" := IsoText(s.createdAt)])
  }

  function Summaries(xs: seq<(int, ScriptRow)>): (r: seq<Value>)
    ensures |r| == |xs| && forall k | 0 <= k < |xs| :: r[k] == Summary(xs[k])
  {
    seq(|xs|, k requires 0 <= k < |xs| => Summary(xs[k]))
  }

  /** `GET /api/scripts` */
  method ListScripts(db: Db, user: Option<AuthUser>, q: Query) returns (r: Response)
    requires db.Valid()
    ensures user.None? ==> r == Unauthorized()
    ensures user.Some? ==> r == Response(200, Arr(Summaries(Listing(db.scripts, q))))
  {
    if user.None? {
      return Unauthorized();
    }
    var where := BuildWhere(q);
    var found := Filter(Rows(db.scripts), (x: (int, ScriptRow)) => Matches(where, x.1));
    FilterAgree(Rows(db.scripts), (x: (int, ScriptRow)) => Matches(where, x.1), (x: (int, ScriptRow)) => Selected(q, x.1));
    var scripts := SortBy(found, NewestFirst);
    r := Response(200, Arr(Summaries(scripts)));
  }

  // ---------------------------------------------------------------------------------------------
  // POST: defaults for the generated script
  // ---------------------------------------------------------------------------------------------

  /** `r` is `v || fallback`: `v` when it is truthy, `fallback` otherwise. */
  predicate FallsBack(r: Value, v: Value, fallback: Value) {
    (Truthy(v) ==> r == v) && (!Truthy(v) ==> r == fallback)
  }

  /** `r` is `first || second || last`. */
  predicate FallsBackTwice(r: Value, first: Value, second: Value, last: Value) {
    && (Truthy(first) ==> r == first)
    && (!Truthy(first) && Truthy(second) ==> r == second)
    && (!Truthy(first) && !Truthy(second) ==> r == last)
  }

  /** The script columns of the create (src/app/api/scripts/route.ts:71-78): title and description
      as generated; industry, company size and location from the generated script, else the request,
      else a constant; product name and difficulty from the generated script, else a constant; the
      target role from the generated script, else the prospect title, with no constant behind it. */
  function ScriptData(result: Value, body: Params, createdAt: Instant): (r: ScriptRow)
    ensures r.title == Get(result, "title") && r.description == Get(result, "description")
    ensures FallsBackTwice(r.industry, Get(result, "industry"), Field(body.industry), Str("general"))
    ensures FallsBackTwice(r.companySize, Get(result, "company_size"), Field(body.companySize), Str("mid_market"))
    ensures FallsBackTwice(r.targetLocation, Get(result, "target_location"), Field(body.location), Str("US"))
    ensures FallsBack(r.productName, Get(result, "product_name"), Str("Nvelop"))
    ensures FallsBack(r.targetRole, Get(result, "target_role"), Field(body.prospectTitle))
    ensures FallsBack(r.difficultyLevel, Get(result, "difficulty_level"), Str("intermediate"))
    ensures r.createdAt == createdAt
  {
    ScriptRow(
      title := Get(result, "title"),
      description := Get(result, "description"),
      industry := Or(Or(Get(result, "industry"), Field(body.industry)), Str("general")),
      companySize := Or(Or(Get(result, "company_size"), Field(body.companySize)), Str("mid_market")),
      targetLocation := Or(Or(Get(result, "target_location"), Field(body.location)), Str("US")),
      productName := Or(Get(result, "product_name"), Str("Nvelop")),
      targetRole := Or(Get(result, "target_role"), Field(body.prospectTitle)),
      difficultyLevel := Or(Get(result, "difficulty_level"), Str("intermediate")),
      createdAt := createdAt)
  }

  /** `(result.sections || []).map`: a missing or falsy list is no sections; a truthy value that is
      not an array has no `map` method; reading `sections` of `null` throws. */
  function SectionList(result: Value): (r: Result<seq<Value>, JsError>)
    ensures Nullish(result) ==> r == Err(ReadOfNullish(result, "sections"))
    ensures !Nullish(result) && !Truthy(Get(result, "sections")) ==> r == Ok([])
    ensures !Nullish(result) && Get(result, "sections").Arr? ==> r == Ok(Get(result, "sections").items)
    ensures !Nullish(result) && Truthy(Get(result, "sections")) && !Get(result, "sections").Arr? ==>
      r == Err(NotAFunction("sections.map"))
  {
    match Read(result, "sections")
    case Err(e) => Err(e)
    case Ok(sections) =>
      var list := Or(sections, Arr([]));
      if list.Arr? then Ok(list.items) else Err(NotAFunction("sections.map"))
  }

  /** The columns of one section as the handler writes them; `orderIndex` is still a JavaScript value. */
  datatype SectionInput = SectionInput(
    sectionType: Value, title: Value, content: Value, talkingPoints: Value, tips: Value, orderIndex: Value)

  /** `talking_points`: an array is serialized, a truthy value is kept, anything else becomes `null`
      (src/app/api/scripts/route.ts:84-86). */
  function TalkingPoints(v: Value, stringify: Stringifier): (r: Value)
    ensures v.Arr? ==> r == Str(stringify(v))
    ensures !v.Arr? && Truthy(v) ==> r == v
    ensures !v.Arr? && !Truthy(v) ==> r == Null
    ensures v.Str? && v.s != "" ==> r == v
  {
    if v.Arr? then Str(stringify(v)) else Or(v, Null)
  }

  /** One generated section (src/app/api/scripts/route.ts:81-88): the section type defaults to
      "intro", title, content and tips to "", the order index to 0 (also when it is 0). */
  function SectionOf(sec: Value, stringify: Stringifier): (r: Result<SectionInput, JsError>)
    ensures Nullish(sec) ==> r == Err(ReadOfNullish(sec, "section_type"))
    ensures !Nullish(sec) ==> r.Ok?
    ensures r.Ok? ==> FallsBack(r.value.sectionType, Get(sec, "section_type"), Str("intro"))
    ensures r.Ok? ==> FallsBack(r.value.title, Get(sec, "title"), Str(""))
    ensures r.Ok? ==> FallsBack(r.value.content, Get(sec, "content"), Str(""))
    ensures r.Ok? ==> r.value.talkingPoints == TalkingPoints(Get(sec, "talking_points"), stringify)
    ensures r.Ok? ==> FallsBack(r.value.tips, Get(sec, "tips"), Str(""))
    ensures r.Ok? ==> FallsBack(r.value.orderIndex, Get(sec, "order_index"), Num(0))
  {
    if Nullish(sec) then Err(ReadOfNullish(sec, "section_type"))
    else
      Ok(SectionInput(
        sectionType := Or(Get(sec, "section_type"), Str("intro")),
        title := Or(Get(sec, "title"), Str("")),
        content := Or(Get(sec, "content"), Str("")),
        talkingPoints := TalkingPoints(Get(sec, "talking_points"), stringify),
        tips := Or(Get(sec, "tips"), Str("")),
        orderIndex := Or(Get(sec, "order_index"), Num(0))))
  }

  /** `sections.map(...)`: every section in order, or the error of the first `null` one. */
  function SectionInputs(secs: seq<Value>, stringify: Stringifier): (r: Result<seq<SectionInput>, JsError>)
    ensures r.Ok? <==> forall k | 0 <= k < |secs| :: !Nullish(secs[k])
    ensures r.Ok? ==> |r.value| == |secs| && forall k | 0 <= k < |secs| :: Ok(r.value[k]) == SectionOf(secs[k], stringify)
    ensures r.Err? ==> exists k | 0 <= k < |secs| ::
      Nullish(secs[k]) && r.error == ReadOfNullish(secs[k], "section_type") && forall j | 0 <= j < k :: !Nullish(secs[j])
    decreases |secs|
  {
    if |secs| == 0 then Ok([])
    else
      match SectionOf(secs[0], stringify)
      case Err(e) => Err(e)
      case Ok(first) =>
        match SectionInputs(secs[1..], stringify)
        case Err(e) =>
          assert forall k | 1 <= k < |secs| :: secs[k] == secs[1..][k - 1];
          Err(e)
        case Ok(rest) =>
          assert forall k | 1 <= k < |secs| :: secs[k] == secs[1..][k - 1];
          Ok([first] + rest)
  }

  /** The database accepts the sections only when every order index is a number (an `Int` column). */
  predicate Storable(inputs: seq<SectionInput>) {
    forall k | 0 <= k < |inputs| :: inputs[k].orderIndex.Num?
  }

  /** The section rows of the nested create, all belonging to the new script. */
  function SectionRows(scriptId: int, inputs: seq<SectionInput>): (r: seq<SectionRow>)
    requires Storable(inputs)
    ensures |r| == |inputs|
    ensures forall k | 0 <= k < |r| :: r[k].scriptId == scriptId && r[k].orderIndex == inputs[k].orderIndex.n
    ensures forall k | 0 <= k < |r| ::
      && r[k].sectionType == inputs[k].sectionType && r[k].title == inputs[k].title
      && r[k].content == inputs[k].content && r[k].talkingPoints == inputs[k].talkingPoints
      && r[k].tips == inputs[k].tips
  {
    seq(|inputs|, k requires 0 <= k < |inputs| =>
      var s := inputs[k];
      SectionRow(scriptId, s.sectionType, s.title, s.content, s.talkingPoints, s.tips, s.orderIndex.n))
  }

  /** What the create writes: the script row and its sections, or the error that stops it. */
  datatype Plan = Plan(script: ScriptRow, sections: seq<SectionInput>)

  function Prepare(generated: Result<Value, JsError>, body: Params, stringify: Stringifier, now: Instant, rejection: string)
    : Result<Plan, JsError>
  {
    match generated
    case Err(e) => Err(e)
    case Ok(result) =>
      match SectionList(result)
      case Err(e) => Err(e)
      case Ok(secs) =>
        match SectionInputs(secs, stringify)
        case Err(e) => Err(e)
        case Ok(inputs) =>
          if Storable(inputs) then Ok(Plan(ScriptData(result, body, now), inputs)) else Err(Thrown(rejection))
  }

  /** The 500 response of the `catch` (src/app/api/scripts/route.ts:96-101). */
  function Failed(e: JsError): (r: Response)
    ensures r.status == 500 && Get(r.body, "detail") == Str("AI generation failed: " + e.Message())
  {
    Detail(500, "AI generation failed: " + e.Message())
  }

  // ---------------------------------------------------------------------------------------------
  // POST: the create and its response
  // ---------------------------------------------------------------------------------------------

  /** `include: { sections: { orderBy: { orderIndex: "asc" } } }` */
  function ByOrderIndex(x: (int, SectionRow)): int {
    x.1.orderIndex
  }

  function Zip<T>(ids: seq<int>, rows: seq<T>): (r: seq<(int, T)>)
    requires |ids| == |rows|
    ensures |r| == |rows| && forall k | 0 <= k < |r| :: r[k] == (ids[k], rows[k])
  {
    seq(|rows|, k requires 0 <= k < |rows| => (ids[k], rows[k]))
  }

  lemma RecordParts(id: int, s: ScriptRow, sections: seq<(int, SectionRow)>)
    ensures !Nullish(ScriptRecord(id, s, sections))
    ensures Get(ScriptRecord(id, s, sections), "createdAt") == Date(s.createdAt)
    ensures Get(ScriptRecord(id, s, sections), "sections") == Arr(SectionRecords(sections))
  {
  }

  /** A stored section projects to an object with its id and order index. */
  lemma SectionProjection(id: int, row: SectionRow, parse: Parser)
    ensures ToSnakeSection(SectionRecord(id, row), parse).Ok?
    ensures Get(ToSnakeSection(SectionRecord(id, row), parse).value, "id") == Num(id)
    ensures Get(ToSnakeSection(SectionRecord(id, row), parse).value, "order_index") == Num(row.orderIndex)
  {
    var sec := SectionRecord(id, row);
    var projected := ToSnakeSection(sec, parse);
    assert Copies(projected.value, sec, SectionColumns);
    assert SectionColumns[0] == ("id", "id");
    assert SectionColumns[6] == ("order_index", "orderIndex");
  }

  /** The created record, projected: its sections come out in the order they were included, each
      with its id and its order index, so sorted sections give a response sorted by `order_index`. */
  lemma IncludedSections(id: int, s: ScriptRow, sections: seq<(int, SectionRow)>, parse: Parser)
    ensures ToSnakeScript(ScriptRecord(id, s, sections), parse).Ok?
    ensures var out := ToSnakeScript(ScriptRecord(id, s, sections), parse).value.fields["sections"];
      && out.Arr? && |out.items| == |sections|
      && forall k | 0 <= k < |sections| ::
        Get(out.items[k], "id") == Num(sections[k].0) && Get(out.items[k], "order_index") == Num(sections[k].1.orderIndex)
  {
    var record := ScriptRecord(id, s, sections);
    var items := SectionRecords(sections);
    RecordParts(id, s, sections);
    forall k | 0 <= k < |items| ensures ToSnakeSection(items[k], parse).Ok? {
      SectionProjection(sections[k].0, sections[k].1, parse);
    }
    var mapped := MapResults(items, x => ToSnakeSection(x, parse));
    assert mapped.Ok?;
    var out := ToSnakeScript(record, parse).value.fields["sections"];
    assert out == Arr(mapped.value);
    forall k | 0 <= k < |sections|
      ensures Get(out.items[k], "id") == Num(sections[k].0)
      ensures Get(out.items[k], "order_index") == Num(sections[k].1.orderIndex)
    {
      SectionProjection(sections[k].0, sections[k].1, parse);
      assert Ok(out.items[k]) == ToSnakeSection(items[k], parse);
    }
  }

  /** The sections of the POST response are sorted by `order_index`, ascending. */
  lemma ResponseSectionsSorted(id: int, s: ScriptRow, sections: seq<(int, SectionRow)>, parse: Parser)
    ensures ToSnakeScript(ScriptRecord(id, s, SortBy(sections, ByOrderIndex)), parse).Ok?
    ensures var out := ToSnakeScript(ScriptRecord(id, s, SortBy(sections, ByOrderIndex)), parse).value.fields["sections"];
      && out.Arr? && |out.items| == |sections|
      && forall i, j | 0 <= i < j < |out.items| ::
        && Get(out.items[i], "order_index").Num? && Get(out.items[j], "order_index").Num?
        && Get(out.items[i], "order_index").n <= Get(out.items[j], "order_index").n
  {
    IncludedSections(id, s, SortBy(sections, ByOrderIndex), parse);
  }

  /** `prisma.script.create` with the nested section create and the included sections, then
      `toSnakeScript` (src/app/api/scripts/route.ts:69-95): one new script row, one new section row
      per input in order, all pointing at the new script; nothing else changes. */
  method SaveScript(db: Db, script: ScriptRow, inputs: seq<SectionInput>, parse: Parser) returns (r: Response)
    requires db.Valid() && Storable(inputs)
    modifies db
    ensures db.Valid()
    ensures
      var created := Insert(old(db.scripts), script);
      var rows := SectionRows(created.id, inputs);
      var added := InsertAll(old(db.sections), rows);
      && db.scripts == created.table && db.sections == added.table
      && db.personas == old(db.personas) && db.sessions == old(db.sessions) && db.users == old(db.users)
      && r.status == 200
      && Ok(r.body) == ToSnakeScript(ScriptRecord(created.id, script, SortBy(Zip(added.ids, rows), ByOrderIndex)), parse)
  {
    var rows := SectionRows(Insert(db.scripts, script).id, inputs);
    var id, ids := db.AddScript(script, rows);
    r := Saved(id, script, SortBy(Zip(ids, rows), ByOrderIndex), parse);
  }

  /** The 200 response of a created script: `toSnakeScript` of the record with its included
      sections, which cannot fail on a stored script. */
  method Saved(id: int, script: ScriptRow, included: seq<(int, SectionRow)>, parse: Parser) returns (r: Response)
    ensures r.status == 200 && Ok(r.body) == ToSnakeScript(ScriptRecord(id, script, included), parse)
  {
    IncludedSections(id, script, included, parse);
    r := Response(200, ToSnakeScript(ScriptRecord(id, script, included), parse).value);
  }

  /** `POST /api/scripts`. After authentication the script is generated; a generation failure, a
      malformed section list, a `null` section or an order index the database rejects (with message
      `rejection`) gives a 500 and writes nothing. Otherwise one script row is created at `now`
      together with one section row per generated section, in order, and the response is the new
      script with its sections sorted by order index. */
  method CreateScript(db: Db, user: Option<AuthUser>, body: Params, api: CompletionApi, parse: Parser,
                      stringify: Stringifier, now: Instant, rejection: string) returns (r: Response)
    requires db.Valid()
    modifies db
    ensures db.Valid()
    ensures user.None? ==> r == Unauthorized() && unchanged(db)
    ensures user.Some? && Prepare(Generation(body, api, parse), body, stringify, now, rejection).Err? ==>
      && r == Failed(Prepare(Generation(body, api, parse), body, stringify, now, rejection).error)
      && unchanged(db)
    ensures user.Some? && Prepare(Generation(body, api, parse), body, stringify, now, rejection).Ok? ==>
      var plan := Prepare(Generation(body, api, parse), body, stringify, now, rejection).value;
      var created := Insert(old(db.scripts), plan.script);
      var rows := SectionRows(created.id, plan.sections);
      var added := InsertAll(old(db.sections), rows);
      && db.scripts == created.table && db.sections == added.table
      && db.personas == old(db.personas) && db.sessions == old(db.sessions) && db.users == old(db.users)
      && r.status == 200
      && Ok(r.body) == ToSnakeScript(ScriptRecord(created.id, plan.script, SortBy(Zip(added.ids, rows), ByOrderIndex)), parse)
  {
    if user.None? {
      return Unauthorized();
    }
    var generated := GenerateScript(body, api, parse);
    ghost var plan := Prepare(generated, body, stringify, now, rejection);
    if generated.Err? {
      assert plan == Err(generated.error);
      return Failed(generated.error);
    }
    var result := generated.value;
    var secs := SectionList(result);
    if secs.Err? {
      assert plan == Err(secs.error);
      return Failed(secs.error);
    }
    var inputs := SectionInputs(secs.value, stringify);
    if inputs.Err? {
      assert plan == Err(inputs.error);
      return Failed(inputs.error);
    }
    if !Storable(inputs.value) {
      assert plan == Err(Thrown(rejection));
      return Failed(Thrown(rejection));
    }
    assert plan == Ok(Plan(ScriptData(result, body, now), inputs.value));
    r := SaveScript(db, ScriptData(result, body, now), inputs.value, parse);
  }
}
