# SDR Trainer core, modelled in Dafny

SDR Trainer is a web application for sales development representatives (SDRs). It generates
cold-call scripts with a language model and lets the user rehearse calls against AI personas in
roleplay sessions. This project models the application's deterministic core and proves properties
of that model:

- **Roleplay prompt engine** (`RoleplayService`).
  - The persona's system prompt, a template literal over the persona and the script.
  - The message list of one turn: one system message, a sliding window of at most 40 history
    messages, then the new user message.
  - The coaching transcript: `SDR:` / `Prospect:` lines joined by newlines.
  - Reading the model's reply, where a `null` or empty content becomes `""`.
- **Script generation** (`ScriptGenerator`).
  - The `{key}` placeholder chain of `replace` and `replaceAll` calls over the prompt template.
    `{prospect_title}` is filled with `replace`, so its second occurrence, in the JSON skeleton,
    stays in the prompt as literal text. This is proved for any template prose in which no `{` starts
    a placeholder; that the literal prose has this property is a hypothesis (listed below under what is left out).
  - The stripping of a Markdown code fence around the JSON reply, including the path where a
    fenced reply without a newline throws.
- **API projection layer** (`Transforms`): camelCase database records become snake_case response
  objects, with the fallback rules of `parseJson` and the optional `toISOString` calls.
- **Route handlers** over an in-memory database (`Store`):
  - listing scripts with the `where` builder, and creating a generated script with its sections
    and defaults (`ScriptsRoute`);
  - the de-duplicated filter lists (`FiltersRoute`);
  - creating and listing roleplay sessions (`SessionsRoute`);
  - registration (`RegisterRoute`);
  - the idempotent upsert seed (`Seed`).
- **Side-bar active-link rule** (`Sidebar`).

Supporting modules:

- `Js`: JavaScript values, truthiness, `||` and `??`, property reads that throw on `null` and
  `undefined`, and route responses.
- `Text`: the `String.prototype` operations the core uses, with ECMAScript semantics, including the
  `$` patterns of a replacement string.
- `Ordering`: Prisma `orderBy` as a sort that is sorted and a permutation.
- `Store`: Prisma tables as maps from ids to rows, each with an autoincrement sequence. The class
  `Store.Db` holds the five tables and keeps their referential invariant.

Foreign calls are parameters of the operations that use them, and every property is proved for all
of them:

- the chat-completion service is a function from request to completion;
- `JSON.parse` and `JSON.stringify` are `Parser` and `Stringifier` functions;
- `bcrypt.hash` is a `Hasher` function;
- the timestamps and flags the database fills in are inputs.

The model follows the code as written:

- `talking_points` keeps any truthy value that is not an array, not only strings (`|| null`
  applies to any type).
- A seeded record that is created takes the table's next autoincrement id, since the create data
  carries no id. That id is `i + 1` only on a table whose sequence is at `i + 1`. `Seed.UpsertFresh`
  and `Seed.ScriptsFresh` prove this for a fresh database.

## Model

| member | source | states |
|---|---|---|
| RoleplayService.SystemPromptMentions | src/lib/openai/roleplay-service.ts:23-45 | the system prompt contains the persona name, the role title twice without overlap (identity line and rule 9), the personality prompt verbatim, and the script's product, industry, company size and location |
| RoleplayService.SystemPromptOrder | src/lib/openai/roleplay-service.ts:23-45 | each interpolated value occurs at its offset, and a later value starts after the end of an earlier one |
| RoleplayService.HistoryWindow | src/lib/openai/roleplay-service.ts:59-62 | the window holds min(\|history\|, 40) messages and is exactly that suffix of the history |
| RoleplayService.HistoryWindowCases | src/lib/openai/roleplay-service.ts:59-62 | a history of at most 40 messages is kept whole; a longer one is cut to its last 40, and the dropped prefix plus the window is the history |
| RoleplayService.AssembleMessages | src/lib/openai/roleplay-service.ts:55-71 | the `push` loop builds the list: length 2 + min(\|history\|, 40), first the system message with the built prompt, last the user message verbatim, in between the last history entries in order with role and content unchanged |
| RoleplayService.ChatMessagesUnique | src/lib/openai/roleplay-service.ts:47-71 | any list with those four properties is the assembled list, so assembly depends on its four inputs alone |
| RoleplayService.ReplyText | src/lib/openai/roleplay-service.ts:81 | a rejected call rethrows its error; no choices makes the read of `message` throw; otherwise the reply is `""` exactly when the content is `null` or empty, and any other reply is the content itself |
| RoleplayService.GetAiResponse | src/lib/openai/roleplay-service.ts:47-82 | the reply is `ReplyText` of the service's answer to a `gpt-4o` request with the assembled messages and a 300-token cap |
| RoleplayService.TranscriptLines | src/lib/openai/roleplay-service.ts:89-90 | one line per message, in input order |
| RoleplayService.TranscriptAppend | src/lib/openai/roleplay-service.ts:89-91 | one more message adds a newline and its line at the end of the transcript |
| RoleplayService.TranscriptLineSpeaker | src/lib/openai/roleplay-service.ts:90 | a line starts with `SDR: ` exactly when the role is `"user"`; it is `SDR: <content>` for the user and `Prospect: <content>` for any other role |
| RoleplayService.TranscriptSplits | src/lib/openai/roleplay-service.ts:89-91 | when no content holds a newline, splitting the transcript on newlines gives back its lines |
| RoleplayService.TranscriptDecodes | src/lib/openai/roleplay-service.ts:89-91 | the k-th newline-separated segment of the transcript tells who spoke the k-th message and gives its content |
| RoleplayService.GetSessionFeedback | src/lib/openai/roleplay-service.ts:84-111 | a rejected call rethrows; no choices makes the read of `message` throw; otherwise the feedback is the first choice's content, or `""` when that is `null` or empty |
| Transforms.ParseJson | src/lib/transforms.ts:3-9 | an array comes back unchanged; a string comes back as parsed, array or not; a string that fails to parse, or any other value, gives the fallback |
| Transforms.ParseJsonOfSerialized | src/lib/transforms.ts:3-9 | an array column written with the serializer is read back as that array whenever the parser inverts the serializer on it |
| Transforms.Stamp | src/lib/transforms.ts:35-75 | a `Date` becomes its ISO text; a value without `toISOString` passes through; a `toISOString` that is not a function throws |
| Transforms.StampCases | src/lib/transforms.ts:35-75 | strings, ISO texts and missing timestamps pass through unchanged |
| Transforms.MapResults | src/lib/transforms.ts:36-65 | `map` with a throwing callback succeeds exactly when every element does, then gives one result per element in order; otherwise it gives the error of the first failing element |
| Transforms.MapOptional | src/lib/transforms.ts:36-65 | `?.map(...) ?? none`: nothing to map gives `none`; an array is mapped; any other value has no `map` method and throws |
| Transforms.ToSnakeSection | src/lib/transforms.ts:11-22 | exactly the eight snake_case keys; each column copied from its camelCase field; `talking_points` through `parseJson` with `[]`; throws only on a `null` or `undefined` record |
| Transforms.ToSnakeScript | src/lib/transforms.ts:24-38 | the eleven snake_case keys, columns copied, `created_at` through the timestamp rule, `sections` through the optional map; succeeds whenever the record is not nullish and the timestamp and the sections do |
| Transforms.ScriptObject | src/lib/transforms.ts:24-38 | the projected script has exactly the eleven keys and copies every column |
| Transforms.ScriptSections | src/lib/transforms.ts:36 | no sections give `[]`; otherwise one `toSnakeSection` result per input section, in the same order |
| Transforms.ToSnakePersona | src/lib/transforms.ts:40-51 | exactly the eight keys, columns copied, `traits` through `parseJson` with `[]`; throws only on a `null` or `undefined` record |
| Transforms.ToSnakeMessage | src/lib/transforms.ts:69-77 | exactly the five keys, columns copied, `created_at` through the timestamp rule; fails only when the record is `null` or `undefined` or the timestamp throws |
| Transforms.ScriptSummary | src/lib/transforms.ts:64 | a falsy script gives `undefined`; a truthy one only its id and title |
| Transforms.SessionObject | src/lib/transforms.ts:53-67 | the projected session has exactly the eleven keys, copies every column and holds the computed parts |
| Transforms.ToSnakeSession | src/lib/transforms.ts:53-67 | the eleven keys, columns copied, both timestamps converted, `persona` projected only when truthy, `script` summarised, `messages` through the optional map; succeeds exactly when the record is not nullish and both timestamps and the message map succeed |
| Transforms.SessionOptionalParts | src/lib/transforms.ts:63-65 | an absent persona or message list stays `undefined` (not `[]`); a present script keeps only the keys `id` and `title` |
| ScriptGenerator.Defaults | src/lib/openai/script-generator.ts:99-106 | a missing or empty parameter is replaced by its fixed default ("Unknown", "Procurement Leader", "Unknown", "general", "mid_market", "US", "Not provided", "None"), any other by itself; the defaults are plain text |
| ScriptGenerator.DefaultedPlain | src/lib/openai/script-generator.ts:99-106 | defaulting keeps every value plain (no `{`, no `$`) when the given parameters are plain |
| ScriptGenerator.TokenPrefix | src/lib/openai/script-generator.ts:99-106 | no placeholder token is a prefix of another |
| ScriptGenerator.TokenInert | src/lib/openai/script-generator.ts:99-106 | no occurrence of one token can start inside another |
| ScriptGenerator.ReplaceFillsFirst | src/lib/openai/script-generator.ts:99-106 | on a rendered template with clean prose and plain values, `replace(token, v)` fills exactly the first slot still open for that placeholder |
| ScriptGenerator.ReplaceAllFillsAll | src/lib/openai/script-generator.ts:102-104 | on such a template, `replaceAll(token, v)` fills every slot open for that placeholder |
| ScriptGenerator.FillFirst | src/lib/openai/script-generator.ts:99-106 | the slot-level `replace`: without an open slot nothing changes; otherwise only the first open slot is filled |
| ScriptGenerator.FillAll | src/lib/openai/script-generator.ts:102-104 | the slot-level `replaceAll`: every open slot for the placeholder is filled and every other slot is kept |
| ScriptGenerator.FillTextRenders | src/lib/openai/script-generator.ts:99-106 | running the first n calls of the chain on the rendered text is rendering the slots after the same n calls |
| ScriptGenerator.PromptStages | src/lib/openai/script-generator.ts:99-106 | after n calls the prompt's slots are filled exactly at the places those calls reach |
| ScriptGenerator.FillPromptTemplate | src/lib/openai/script-generator.ts:3-106 | for any prose around the prompt's twelve placeholder places, the filled prompt is the prose with the values interpolated and the second `{prospect_title}` left as literal text |
| ScriptGenerator.FilledPromptPlaces | src/lib/openai/script-generator.ts:9-104 | the filled prompt still contains `{prospect_title}`, and industry, company size and location each occur twice without overlap |
| ScriptGenerator.FillPromptResult | src/lib/openai/script-generator.ts:3-106 | for parameters without `{` or `$`, the prompt sent is the template prose with the defaulted values interpolated, and it still contains `{prospect_title}` |
| ScriptGenerator.ScriptRequest | src/lib/openai/script-generator.ts:108-119 | a `gpt-4o` request with the JSON-generator instruction, the filled prompt and a 4000-token cap |
| ScriptGenerator.FenceStripped | src/lib/openai/script-generator.ts:122-127 | an unfenced reply is kept; a fenced reply fails exactly when it has no newline (reading `endsWith` of `undefined`), otherwise it keeps the text between the first and second newline, without a trailing fence |
| ScriptGenerator.StripFences | src/lib/openai/script-generator.ts:121-127 | the step-by-step reassignment of `raw` computes `FenceStripped` of the trimmed reply |
| ScriptGenerator.FencedKeepsSecondLine | src/lib/openai/script-generator.ts:123-126 | a fenced reply of several lines keeps only its second line, so the JSON survives only on one line |
| ScriptGenerator.FencedLastLine | src/lib/openai/script-generator.ts:123-126 | a fenced reply whose second line is its last keeps that line, without a trailing fence |
| ScriptGenerator.FencedOneLineJson | src/lib/openai/script-generator.ts:121-127 | a reply fenced the usual Markdown way around one line of JSON comes back as that line |
| ScriptGenerator.ParseReply | src/lib/openai/script-generator.ts:129 | the parsed value, or the parser's `SyntaxError` as a thrown error |
| ScriptGenerator.GenerateScript | src/lib/openai/script-generator.ts:94-130 | ask the model, strip the fence, parse; the first step that throws decides the error |
| ScriptsRoute.BuildWhere | src/app/api/scripts/route.ts:17-26 | the built `where` has a key exactly for each non-empty parameter; a row matches it exactly when it has equal industry and company size, a target location containing the location, and a title or description containing the search text; no parameters give `{}` |
| ScriptsRoute.SearchHolds | src/app/api/scripts/route.ts:21-26 | the `OR` constraint holds exactly when the title or the description contains the text |
| ScriptsRoute.ListingSpec | src/app/api/scripts/route.ts:28-31 | the listing holds exactly the stored scripts the query selects, newest first |
| ScriptsRoute.ListingUnfiltered | src/app/api/scripts/route.ts:17-31 | with no parameters every stored script is listed |
| ScriptsRoute.Summaries | src/app/api/scripts/route.ts:33-46 | one summary per listed script, in order |
| ScriptsRoute.ListScripts | src/app/api/scripts/route.ts:7-47 | 401 without a user; otherwise 200 with the summaries of the listing, through the built `where` |
| ScriptsRoute.ScriptData | src/app/api/scripts/route.ts:70-78 | title and description as generated; industry, company size and location from the generated script, else the request, else "general", "mid_market", "US"; product name and difficulty else "Nvelop" and "intermediate"; the target role else the prospect title, with no constant |
| ScriptsRoute.SectionList | src/app/api/scripts/route.ts:67-80 | a falsy section list is no sections; an array is its elements; another truthy value has no `map` and throws; a `null` result throws |
| ScriptsRoute.TalkingPoints | src/app/api/scripts/route.ts:84-86 | an array is serialized; a truthy value is kept (so a non-empty string is); anything else becomes `null` |
| ScriptsRoute.SectionOf | src/app/api/scripts/route.ts:81-88 | the section type defaults to "intro", title, content and tips to "", the order index to 0, each when the given value is falsy; the talking points by their own rule; a `null` or `undefined` section throws |
| ScriptsRoute.SectionInputs | src/app/api/scripts/route.ts:80-89 | every section in order, or the error of the first `null` section |
| ScriptsRoute.SectionRows | src/app/api/scripts/route.ts:79-90 | one section row per input, in order, carrying its columns and owned by the new script |
| ScriptsRoute.Failed | src/app/api/scripts/route.ts:96-101 | status 500 with detail `AI generation failed: <message>` |
| ScriptsRoute.IncludedSections | src/app/api/scripts/route.ts:92-95 | the projected record has one section per included section, in order, each with its id and order index |
| ScriptsRoute.ResponseSectionsSorted | src/app/api/scripts/route.ts:92-95 | the sections of the response are sorted by `order_index`, ascending |
| ScriptsRoute.SaveScript | src/app/api/scripts/route.ts:69-95 | one new script row and one new section row per input, in order, all owned by the new script; nothing else changes; the response is the projected record with its sections sorted by order index |
| ScriptsRoute.Saved | src/app/api/scripts/route.ts:95 | status 200 with `toSnakeScript` of the created record, which cannot fail |
| ScriptsRoute.CreateScript | src/app/api/scripts/route.ts:49-103 | 401 without a user and no write; any generation, section or storage failure gives the 500 response and no write; otherwise the script and its sections are stored and returned |
| FiltersRoute.Dedup | src/app/api/scripts/filters/route.ts:13-15 | `[...new Set(xs)]` is duplicate-free, holds exactly the values of `xs`, and is no longer than `xs` |
| FiltersRoute.DedupOrder | src/app/api/scripts/filters/route.ts:13-15 | values come out in the order of their first occurrence |
| FiltersRoute.FilterList | src/app/api/scripts/filters/route.ts:13-21 | each list is duplicate-free, no longer than the script list, holds a value exactly when some script has it in that column, in order of first occurrence |
| FiltersRoute.ListFilters | src/app/api/scripts/filters/route.ts:5-22 | 401 without a user; otherwise 200 with the three lists over all scripts |
| SessionsRoute.CreateSession | src/app/api/roleplay/sessions/route.ts:5-44 | 401 without a user; the script is checked before the persona and a missing one gives its 404; none of these writes anything; otherwise exactly one session is added for the user, script and persona, no other row changes, and the response is 201 |
| SessionsRoute.StartedShape | src/app/api/roleplay/sessions/route.ts:30-43 | the response carries the new session's id, both ids, the script title, the persona name and `messages: []` |
| SessionsRoute.UserSessionsSpec | src/app/api/roleplay/sessions/route.ts:50-54 | exactly the user's stored sessions, most recently started first |
| SessionsRoute.EndedAt | src/app/api/roleplay/sessions/route.ts:62 | a session that has not ended gives `null`, an ended one its ISO text |
| SessionsRoute.TitleOf | src/app/api/roleplay/sessions/route.ts:65 | a missing script gives `null`; a present one its title, or `null` for a nullish title |
| SessionsRoute.NameOf | src/app/api/roleplay/sessions/route.ts:66 | a missing persona gives `null`; a present one its name, or `null` for a nullish name |
| SessionsRoute.SummaryNulls | src/app/api/roleplay/sessions/route.ts:56-67 | a listed session with no end, script or persona shows `null` there; a present script with a string title shows that title |
| SessionsRoute.ListSessions | src/app/api/roleplay/sessions/route.ts:46-69 | 401 without a user; otherwise 200 with one summary per session of the user, most recent first |
| RegisterRoute.Register | src/app/api/auth/register/route.ts:5-39 | a missing or empty field gives 400 before any lookup; a registered email gives 400 "Email already registered"; neither writes; otherwise exactly one user is added with `hash(password)` as credential, the response is 201, and emails stay unique |
| RegisterRoute.AccountShape | src/app/api/auth/register/route.ts:29-38 | the response echoes email and full name and has exactly the keys id, email, full_name, is_active and created_at, so no credential |
| RegisterRoute.RegisteredAfterInsert | src/app/api/auth/register/route.ts:16-27 | after a registration the email is taken, so a second registration with it is refused |
| Seed.UpsertKeeps | prisma/seed.ts:11-17 | the persona upserts never change or remove a stored record, and create only under ids the sequence had not handed out |
| Seed.UpsertIdempotent | prisma/seed.ts:12-15 | when ids 1..n are all stored, upserting changes nothing |
| Seed.UpsertFresh | prisma/seed.ts:11-17 | on a fresh table the i-th seed lands at id i+1 and nothing else is stored |
| Seed.UpsertRerun | prisma/seed.ts:11-17 | seeding a fresh database a second time changes nothing |
| Seed.SeedPersonas | prisma/seed.ts:11-17 | the loop leaves the persona table as the n upserts define it and touches no other table |
| Seed.Owned | prisma/seed.ts:22-30 | the nested section create gives one row per seed section, owned by the new script |
| Seed.ScriptsKeep | prisma/seed.ts:21-34 | seeding scripts never changes or removes a stored script or section |
| Seed.ScriptsOwned | prisma/seed.ts:21-34 | seeding scripts keeps every section attached to a stored script |
| Seed.ScriptsIdempotent | prisma/seed.ts:23-26 | when scripts 1..n are all stored, seeding changes nothing, sections included |
| Seed.ScriptsFresh | prisma/seed.ts:21-34 | on fresh tables the i-th seed script lands at id i+1 |
| Seed.SeedScripts | prisma/seed.ts:21-34 | the loop leaves the script and section tables as the n upserts define them |
| Seed.CreateSeedScript | prisma/seed.ts:26-31 | the script takes the next id and its sections the next section ids, all owned by it; nothing else changes |
| Seed.SeedAll | prisma/seed.ts:7-37 | personas first, then scripts, and sessions and users untouched |
| Sidebar.IsActive | src/components/layout/Sidebar.tsx:23-26 | the dashboard is active exactly at `/`; another item exactly when its path is a raw prefix of the pathname |
| Sidebar.Highlighted | src/components/layout/Sidebar.tsx:22-26 | one flag per navigation item, in order |
| Sidebar.OnlyDashboardAtRoot | src/components/layout/Sidebar.tsx:6-26 | at `/` only the dashboard is highlighted |
| Sidebar.AtMostOneActive | src/components/layout/Sidebar.tsx:6-26 | at most one item is highlighted for any path |
| Sidebar.RawPrefix | src/components/layout/Sidebar.tsx:26 | the match is on raw text: `/scriptsX` and `/scripts/new` highlight Scripts |
| Store.Insert | src/app/api/auth/register/route.ts:25-27 | a create without id stores the row under the next id, which was free, and changes no other row |
| Store.InsertAll | src/app/api/scripts/route.ts:79-90 | a nested create of several rows gives them consecutive fresh ids in order and changes no other row |
| Store.Find | src/app/api/roleplay/sessions/route.ts:12-17 | `findUnique` by id finds a row exactly when one is stored there |
| Store.Rows | src/app/api/scripts/filters/route.ts:9-11 | `findMany` gives every stored row once with its id; the model lists them in increasing id order |
| Store.Filter | src/app/api/scripts/route.ts:28-31 | the `where` keeps exactly the rows that satisfy it, in their order |
| Store.ConsistentWithScript | src/app/api/scripts/route.ts:69-93 | creating a script with sections that point at it keeps the database consistent |
| Store.Db.AddScript | src/app/api/scripts/route.ts:69-93 | the script takes the next script id and the sections the next section ids, in order; no other table changes and the invariant holds |
| Ordering.SortBy | src/app/api/scripts/route.ts:30-92 | the result is sorted by the key and a permutation of the input |
| Ordering.SortedElements | src/app/api/roleplay/sessions/route.ts:52 | sorting keeps exactly the rows it was given |
| Js.Or | src/app/api/scripts/route.ts:73-88 | `a \|\| b` is `a` when `a` is truthy and `b` otherwise, so it is truthy exactly when one of the two is |
| Js.Coalesce | src/lib/transforms.ts:35-36 | `a ?? b` is `a` unless `a` is `null` or `undefined`, so it is nullish exactly when both are |
| Js.Read | src/app/api/scripts/route.ts:67 | a property read throws exactly on `null` and `undefined`, with V8's message |
| Js.Unauthorized | src/app/api/scripts/route.ts:9 | status 401 with detail "Not authenticated" |
| Text.IndexOfFromFirst | src/lib/openai/script-generator.ts:99-106 | `indexOf` finds an occurrence, the first one from its start, and -1 only when there is none |
| Text.ContainsIffIndexOf | src/app/api/scripts/route.ts:20-25 | containing a pattern is `indexOf` finding it |
| Text.Trim | src/lib/openai/script-generator.ts:121 | `trim` removes white space at both ends only: the input is leading white space, then the result, then trailing white space, and the result neither starts nor ends with white space |
| Text.TrimNoSpaceEnds | src/lib/openai/script-generator.ts:121 | a text without white space at its ends is unchanged by `trim` |
| Text.SecondPieceSpec | src/lib/openai/script-generator.ts:123 | `split("\n", 2)[1]` is `undefined` exactly when there is no newline; otherwise it is the text after the first newline, up to the next one or the end |
| Text.LastIndexOfSuffix | src/lib/openai/script-generator.ts:124-125 | on a text that ends with the pattern, `lastIndexOf` is where that suffix starts |
| Text.ReplacePlain | src/lib/openai/script-generator.ts:99-106 | `replace` with a replacement that has no `$` splices it in at the first occurrence |
| Text.ReplaceAllIsPlain | src/lib/openai/script-generator.ts:102-104 | `replaceAll` with such a replacement splices it in at every occurrence found left to right |
| Text.ReplaceInertPrefix | src/lib/openai/script-generator.ts:99-106 | `replace` skips a prefix in which no occurrence can start |
| Text.ReplaceAllInertPrefix | src/lib/openai/script-generator.ts:102-104 | `replaceAll` skips a prefix in which no occurrence can start |
| Text.SplitJoin | src/lib/openai/roleplay-service.ts:89-91 | splitting a join of parts without the separator gives back the parts |
| Text.JoinAppend | src/lib/openai/roleplay-service.ts:91 | joining one more part adds the separator and the part at the end |
| Text.InterpolateOccurs | src/lib/openai/roleplay-service.ts:24-44 | each value of a template literal occurs at its offset |
| Text.InterpolateTwice | src/lib/openai/roleplay-service.ts:24-43 | a value interpolated at two places occurs twice without overlap |

## Left out

- The chat-completion calls are network I/O. They are a function parameter from request to
  completion. The sampling parameters (`temperature`, `presence_penalty`) are floating-point values
  and are not part of the request.
- `process.env.OPENAI_API_KEY` and client construction are left out.
- `JSON.parse` and `JSON.stringify` are foreign calls and are parameters. `JSON.parse`'s own grammar
  is not modelled.
- `bcrypt.hash` is a parameter. Its cost factor and salt are not modelled.
- Prisma is in-memory tables. Left out: SQL collation and case rules of `contains` (plain
  substring only), transactions, concurrency, and the database schema file.
  - Schema validation is not modelled beyond the integer `orderIndex` column. The error text the
    database gives for a rejected order index is a parameter.
  - Column defaults (`createdAt`, `startedAt`, `isActive`) are inputs.
- Timestamps are integers ordered by instant. The text `toISOString` produces is an opaque value.
- The ordering of rows with equal sort keys is left open by the database. The model keeps
  insertion order; every lemma about ordering uses only sortedness and permutation.
- Store.Rows: a `findMany` without `orderBy` (src/app/api/scripts/filters/route.ts:9-11) has no
  promised order. The model returns rows in increasing id order, and that choice fixes the order
  of the lists `FiltersRoute.ListFilters` returns. Their contents, their freedom from duplicates
  and their first-occurrence order relative to the row list hold for any row order.
- The key order of response objects is not modelled; objects are maps.
- Seed: the console output, `process.exit` and `$disconnect` in prisma/seed.ts:39-46 are I/O. The
  seed data (prisma/seed-data/) is static data and is a parameter.
- Authentication (`getAuthUser`, middleware) is an optional user passed in.
- In the register, session and script-creation routes the request body fields are typed
  (optional strings, integer ids). Not modelled:
  - non-string JSON values in those fields (a numeric `prospect_name` reaching the prompt as its
    decimal text, a numeric `industry` stored through `||`);
  - a `null` body, whose field read throws inside the `try` of `POST /api/scripts`
    (src/app/api/scripts/route.ts:57) and gives its 500 response;
  - a body that is not valid JSON, where `req.json()` rejects outside any `try`.
- In `POST /api/scripts`, `e instanceof Error ? e.message : "Unknown error"` is modelled for
  engine errors and rejections that carry a message. A thrown value that is not an `Error` does
  not arise in the model, so the "Unknown error" branch is left out.
- Turn submission, session ending and feedback storage are not implemented in the core files.
  No session lifecycle is modelled.
- Numbers are integers; floating-point values are not modelled.
- The side bar's rendering (JSX, classes, links) is UI and is left out; only `navItems` and
  `isActive` are modelled.
- ScriptGenerator.FillPromptResult: takes as a hypothesis that the template's literal prose holds
  no placeholder (every `{` in it is followed by a character that cannot start a key). The verifier does not evaluate character
  facts on the long literal. ScriptGenerator.FillPromptTemplate proves the same result for any
  prose that satisfies it. It also requires that the given parameters hold no `{` and no `$`: a
  value with `$&` or a brace would be expanded or re-matched by later calls of the chain.
  `Text.Replace` models those patterns, but the lemma does not cover such values.
- ScriptsRoute.CreateScript: the generated `result` is any JavaScript value. A section's order
  index that is not an integer is rejected with a parameter message instead of Prisma's own
  validation text.
- Seed.UpsertFresh: states that seed `i` lands at id `i + 1` only for a fresh table. On a table
  whose sequence has moved past gaps, the created id is the sequence's next value, as Prisma's
  autoincrement gives it.
