/** Script generation from prospect details (src/lib/openai/script-generator.ts): a fixed prompt
    template whose `{key}` placeholders are filled by a chain of `replace` and `replaceAll` calls,
    the model call, and the ad hoc stripping of a Markdown code fence around the JSON reply. */
module ScriptGenerator {
  import opened Js
  import opened Text
  import opened RoleplayService

  // ---------------------------------------------------------------------------------------------
  // Placeholders
  // ---------------------------------------------------------------------------------------------

  datatype Placeholder =
    | ProspectName | ProspectTitle | ProspectCompany | Industry | CompanySize | Location
    | LinkedinSummary | AdditionalContext

  function Key(p: Placeholder): string {
    match p
    case ProspectName => "prospect_name"
    case ProspectTitle => "prospect_title"
    case ProspectCompany => "prospect_company"
    case Industry => "industry"
    case CompanySize => "company_size"
    case Location => "location"
    case LinkedinSummary => "linkedin_summary"
    case AdditionalContext => "additional_context"
  }

  /** The characters placeholder keys are made of. */
  predicate IsKeyChar(c: char) {
    ('a' <= c <= 'z') || c == '_'
  }

  /** The text searched for: the key in single braces. */
  function Token(p: Placeholder): string {
    "{" + Key(p) + "}"
  }

  lemma KeyShape(p: Placeholder)
    ensures |Key(p)| > 0
    ensures forall i | 0 <= i < |Key(p)| :: IsKeyChar(Key(p)[i])
  {
  }

  lemma KeyInjective(p: Placeholder, q: Placeholder)
    requires Key(p) == Key(q)
    ensures p == q
  {
  }

  /** A token is a brace, key characters, and a closing brace. */
  lemma TokenShape(p: Placeholder)
    ensures |Token(p)| >= 3 && Token(p)[0] == '{' && Token(p)[|Token(p)| - 1] == '}'
    ensures forall i | 0 < i < |Token(p)| - 1 :: IsKeyChar(Token(p)[i])
  {
    KeyShape(p);
    var t := Token(p);
    forall i | 0 < i < |t| - 1 ensures IsKeyChar(t[i]) {
      assert t[i] == Key(p)[i - 1];
    }
  }

  /** No token is a prefix of another. */
  lemma TokenPrefix(p: Placeholder, q: Placeholder)
    requires IsPrefix(Token(p), Token(q))
    ensures p == q
  {
    TokenShape(p);
    TokenShape(q);
    var a, b := Token(p), Token(q);
    assert b[..|a|][|a| - 1] == b[|a| - 1];
    assert |a| == |b|;
    assert b[..|b|] == b;
    assert Key(p) == a[1..|a| - 1] == b[1..|b| - 1] == Key(q);
    KeyInjective(p, q);
  }

  /** No occurrence of one token can start inside another. */
  lemma TokenInert(q: Placeholder, p: Placeholder)
    requires q != p
    ensures Inert(Token(q), Token(p))
  {
    TokenShape(p);
    TokenShape(q);
    var a, t := Token(q), Token(p);
    forall i | 0 <= i < |a| ensures Mismatch(a[i..], t) {
      if i == 0 {
        if IsPrefix(t, a) { TokenPrefix(p, q); }
        if IsPrefix(a, t) { TokenPrefix(q, p); }
      } else {
        assert a[i..][0] == a[i] != '{';
      }
    }
  }

  // ---------------------------------------------------------------------------------------------
  // Texts that a fill leaves alone
  // ---------------------------------------------------------------------------------------------

  /** Template prose: every `{` is followed by a character that cannot start a key, as in the
      doubled braces of the JSON skeleton. */
  predicate ProseClean(s: string) {
    forall i | 0 <= i < |s| && s[i] == '{' :: i + 1 < |s| && !IsKeyChar(s[i + 1])
  }

  /** A replacement value with no `{` (so it cannot form a token) and no `$` (so `replace` copies
      it unchanged). */
  predicate Plain(s: string) {
    '{' !in s && '$' !in s
  }

  lemma ProseInert(s: string, p: Placeholder)
    requires ProseClean(s)
    ensures Inert(s, Token(p))
  {
    TokenShape(p);
    var t := Token(p);
    forall i | 0 <= i < |s| ensures Mismatch(s[i..], t) {
      assert s[i..][0] == s[i];
      if s[i] == '{' {
        assert s[i..][1] == s[i + 1] != t[1];
      }
    }
  }

  lemma PlainInert(s: string, p: Placeholder)
    requires Plain(s)
    ensures Inert(s, Token(p))
  {
    TokenShape(p);
    forall i | 0 <= i < |s| ensures Mismatch(s[i..], Token(p)) {
      assert s[i..][0] == s[i] != '{';
    }
  }

  // ---------------------------------------------------------------------------------------------
  // The template and its fill state
  // ---------------------------------------------------------------------------------------------

  /** A placeholder position of the template: still holding its token, or filled with a value. */
  datatype Slot = Open(placeholder: Placeholder) | Filled(text: string)

  function SlotText(s: Slot): string {
    match s
    case Open(p) => Token(p)
    case Filled(t) => t
  }

  function SlotTexts(slots: seq<Slot>): (r: seq<string>)
    ensures |r| == |slots|
    ensures forall k | 0 <= k < |r| :: r[k] == SlotText(slots[k])
  {
    seq(|slots|, k requires 0 <= k < |slots| => SlotText(slots[k]))
  }

  /** The template with prose pieces between its slots. */
  function Render(prose: seq<string>, slots: seq<Slot>): string
    requires |prose| == |slots| + 1
  {
    Interpolate(prose, SlotTexts(slots))
  }

  lemma RenderCons(prose: seq<string>, slots: seq<Slot>)
    requires |prose| == |slots| + 1 && |slots| > 0
    ensures Render(prose, slots) == prose[0] + SlotText(slots[0]) + Render(prose[1..], slots[1..])
  {
    assert SlotTexts(slots)[1..] == SlotTexts(slots[1..]);
  }

  predicate AllClean(prose: seq<string>) {
    forall k | 0 <= k < |prose| :: ProseClean(prose[k])
  }

  predicate AllPlain(slots: seq<Slot>) {
    forall k | 0 <= k < |slots| :: slots[k].Filled? ==> Plain(slots[k].text)
  }

  /** `replace` fills the first slot still open for `p`. */
  function FillFirst(slots: seq<Slot>, p: Placeholder, v: string): (r: seq<Slot>)
    ensures |r| == |slots|
    ensures Open(p) !in slots ==> r == slots
    ensures Open(p) in slots ==>
      exists k | 0 <= k < |slots| :: slots[k] == Open(p) && Open(p) !in slots[..k] && r == slots[k := Filled(v)]
    decreases |slots|, 1
  {
    if |slots| == 0 then []
    else if slots[0] == Open(p) then
      assert slots[..0] == [];
      [Filled(v)] + slots[1..]
    else
      FillFirstBehind(slots, p, v);
      [slots[0]] + FillFirst(slots[1..], p, v)
  }

  /** When the first slot is not open for `p`, the first open one is in the rest. */
  lemma FillFirstBehind(slots: seq<Slot>, p: Placeholder, v: string)
    requires |slots| > 0 && slots[0] != Open(p)
    ensures var r := [slots[0]] + FillFirst(slots[1..], p, v);
      && (Open(p) !in slots ==> r == slots)
      && (Open(p) in slots ==>
            exists k | 0 <= k < |slots| :: slots[k] == Open(p) && Open(p) !in slots[..k] && r == slots[k := Filled(v)])
    decreases |slots|, 0
  {
    var tail := FillFirst(slots[1..], p, v);
    assert slots == [slots[0]] + slots[1..];
    if Open(p) in slots {
      var k :| 0 <= k < |slots| - 1 && slots[1..][k] == Open(p) && Open(p) !in slots[1..][..k]
        && tail == slots[1..][k := Filled(v)];
      assert slots[..k + 1] == [slots[0]] + slots[1..][..k];
      assert [slots[0]] + tail == slots[k + 1 := Filled(v)];
    }
  }

  /** `replaceAll` fills every slot open for `p`. */
  function FillAll(slots: seq<Slot>, p: Placeholder, v: string): (r: seq<Slot>)
    ensures |r| == |slots|
    ensures forall k | 0 <= k < |slots| :: r[k] == (if slots[k] == Open(p) then Filled(v) else slots[k])
  {
    seq(|slots|, k requires 0 <= k < |slots| => if slots[k] == Open(p) then Filled(v) else slots[k])
  }

  /** `replace` on a text whose first token occurrence opens the rest: the prose before it is kept. */
  lemma ReplaceOpenHead(prose: string, p: Placeholder, rest: string, v: string)
    requires ProseClean(prose) && Plain(v)
    ensures Replace(prose + Token(p) + rest, Token(p), v) == prose + v + rest
  {
    ProseInert(prose, p);
    ReplaceInertPrefix(prose, Token(p) + rest, Token(p), v);
    ReplaceAtHead(Token(p), rest, v);
    assert prose + Token(p) + rest == prose + (Token(p) + rest);
  }

  /** `replaceAll` on a text that starts with prose and a token. */
  lemma ReplaceAllOpenHead(prose: string, p: Placeholder, rest: string, v: string)
    requires ProseClean(prose) && Plain(v)
    ensures ReplaceAll(prose + Token(p) + rest, Token(p), v) == prose + v + ReplaceAll(rest, Token(p), v)
  {
    var t := Token(p);
    var b := t + rest;
    ProseInert(prose, p);
    ReplaceAllInertPrefix(prose, b, t, v);
    ReplaceAllAtHead(t, rest, v);
    assert prose + t + rest == prose + b;
    assert ReplaceAll(prose + b, t, v) == prose + (v + ReplaceAll(rest, t, v));
  }

  /** A slot that is not open for `p` holds no occurrence of its token. */
  lemma SlotInert(prose: string, slot: Slot, p: Placeholder)
    requires ProseClean(prose) && slot != Open(p) && (slot.Filled? ==> Plain(slot.text))
    ensures Inert(prose + SlotText(slot), Token(p))
  {
    ProseInert(prose, p);
    if slot.Open? { TokenInert(slot.placeholder, p); } else { PlainInert(slot.text, p); }
    InertAppend(prose, SlotText(slot), Token(p));
  }

  lemma AllPlainTail(slots: seq<Slot>)
    requires AllPlain(slots) && |slots| > 0
    ensures AllPlain(slots[1..])
  {
    forall k | 0 <= k < |slots| - 1 ensures slots[1..][k] == slots[k + 1] { }
  }

  /** On a rendered template, `replace(token, v)` is filling the first open slot: prose does not
      contain the token, and neither does any other slot. */
  lemma {:induction false} ReplaceFillsFirst(prose: seq<string>, slots: seq<Slot>, p: Placeholder, v: string)
    requires |prose| == |slots| + 1 && AllClean(prose) && AllPlain(slots) && Plain(v)
    ensures Replace(Render(prose, slots), Token(p), v) == Render(prose, FillFirst(slots, p, v))
    decreases |slots|
  {
    var t := Token(p);
    if |slots| == 0 {
      ProseInert(prose[0], p);
      ReplaceInertPrefix(prose[0], "", t, v);
      assert prose[0] + "" == prose[0];
    } else {
      RenderCons(prose, slots);
      var rest := Render(prose[1..], slots[1..]);
      var filled := FillFirst(slots, p, v);
      if slots[0] == Open(p) {
        ReplaceOpenHead(prose[0], p, rest, v);
        assert filled == [Filled(v)] + slots[1..];
        assert filled[1..] == slots[1..];
        RenderCons(prose, filled);
      } else {
        var head := SlotText(slots[0]);
        SlotInert(prose[0], slots[0], p);
        ReplaceInertPrefix(prose[0] + head, rest, t, v);
        AllPlainTail(slots);
        ReplaceFillsFirst(prose[1..], slots[1..], p, v);
        assert filled == [slots[0]] + FillFirst(slots[1..], p, v);
        assert filled[1..] == FillFirst(slots[1..], p, v);
        RenderCons(prose, filled);
      }
    }
  }

  /** On a rendered template, `replaceAll(token, v)` is filling every open slot. */
  lemma {:induction false} ReplaceAllFillsAll(prose: seq<string>, slots: seq<Slot>, p: Placeholder, v: string)
    requires |prose| == |slots| + 1 && AllClean(prose) && AllPlain(slots) && Plain(v)
    ensures ReplaceAll(Render(prose, slots), Token(p), v) == Render(prose, FillAll(slots, p, v))
    decreases |slots|
  {
    var t := Token(p);
    TokenShape(p);
    if |slots| == 0 {
      ProseInert(prose[0], p);
      ReplaceAllInertPrefix(prose[0], "", t, v);
      ReplaceAllAbsent("", t, v);
      assert prose[0] + "" == prose[0];
    } else {
      RenderCons(prose, slots);
      var rest := Render(prose[1..], slots[1..]);
      var filled := FillAll(slots, p, v);
      assert filled[1..] == FillAll(slots[1..], p, v);
      RenderCons(prose, filled);
      AllPlainTail(slots);
      ReplaceAllFillsAll(prose[1..], slots[1..], p, v);
      if slots[0] == Open(p) {
        ReplaceAllOpenHead(prose[0], p, rest, v);
      } else {
        SlotInert(prose[0], slots[0], p);
        ReplaceAllInertPrefix(prose[0] + SlotText(slots[0]), rest, t, v);
      }
    }
  }

  lemma FillFirstPlain(slots: seq<Slot>, p: Placeholder, v: string)
    requires AllPlain(slots) && Plain(v)
    ensures AllPlain(FillFirst(slots, p, v))
  {
  }

  lemma FillAllPlain(slots: seq<Slot>, p: Placeholder, v: string)
    requires AllPlain(slots) && Plain(v)
    ensures AllPlain(FillAll(slots, p, v))
  {
  }

  // ---------------------------------------------------------------------------------------------
  // GENERATE_SCRIPT_PROMPT
  // ---------------------------------------------------------------------------------------------

  /** The placeholders of the template in the order they appear: the prospect details, then the
      JSON skeleton's industry, company size, location and target role. */
  const PromptSlots: seq<Placeholder> := [
    ProspectName, ProspectTitle, ProspectCompany, Industry, CompanySize, Location,
    LinkedinSummary, AdditionalContext, Industry, CompanySize, Location, ProspectTitle]

  /** The literal text around the placeholders (lines 3-81 of the source). */
  const PromptProse: seq<string> := [
    "You are an expert SDR (Sales Development Representative) cold call script writer for Nvelop, an AI procurement platform.\n\nGiven the following prospect details, generate a complete cold call script with 5 sections.\n\nPROSPECT DETAILS:\n- Name: ",
    "\n- Title/Role: ",
    "\n- Company: ",
    "\n- Industry: ",
    "\n- Company Size: ",
    "\n- Location: ",
    "\n- LinkedIn Summary: ",
    "\n- Additional Context: ",
    "\n\nPRODUCT: Nvelop \U{2014} an AI-powered procurement platform that uses AI agents to automate sourcing, RFP creation, vendor evaluation, and procurement workflows end-to-end.\n\nGenerate a JSON object with this exact structure:\n{{\n  \"title\": \"Short script title (e.g. 'Enterprise CPO - [Company Name]')\",\n  \"description\": \"One-line description of this script's focus\",\n  \"industry\": \"",
    "\",\n  \"company_size\": \"",
    "\",\n  \"target_location\": \"",
    "\",\n  \"product_name\": \"Nvelop\",\n  \"target_role\": \"",
    "\",\n  \"difficulty_level\": \"intermediate\",\n  \"sections\": [\n    {{\n      \"section_type\": \"intro\",\n      \"title\": \"Opening & Pattern Interrupt\",\n      \"order_index\": 0,\n      \"content\": \"The opening lines the SDR should say.\",\n      \"talking_points\": [\"Tip 1\", \"Tip 2\", \"Tip 3\", \"Tip 4\"],\n      \"tips\": \"A pro tip for this section\"\n    }},\n    {{\n      \"section_type\": \"discovery\",\n      \"title\": \"Social Proof & Discovery\",\n      \"order_index\": 1,\n      \"content\": \"Social proof opener with discovery questions.\",\n      \"talking_points\": [\"Tip 1\", \"Tip 2\", \"Tip 3\"],\n      \"tips\": \"Pro tip\"\n    }},\n    {{\n      \"section_type\": \"pitch\",\n      \"title\": \"Pain Discovery & Value Proposition\",\n      \"order_index\": 2,\n      \"content\": \"Discovery question then value prop.\",\n      \"talking_points\": [\"Tip 1\", \"Tip 2\", \"Tip 3\"],\n      \"tips\": \"Pro tip\"\n    }},\n    {{\n      \"section_type\": \"objection_handling\",\n      \"title\": \"Objection Handling\",\n      \"order_index\": 3,\n      \"content\": \"Differentiator then 3-4 objections with responses.\",\n      \"talking_points\": [\"Tip 1\", \"Tip 2\", \"Tip 3\", \"Tip 4\"],\n      \"tips\": \"Pro tip\"\n    }},\n    {{\n      \"section_type\": \"close\",\n      \"title\": \"Close & Next Steps\",\n      \"order_index\": 4,\n      \"content\": \"Closing ask for a meeting.\",\n      \"talking_points\": [\"Tip 1\", \"Tip 2\", \"Tip 3\"],\n      \"tips\": \"Pro tip\"\n    }}\n  ]\n}}\n\nIMPORTANT RULES:\n1. Make it highly personalized to this specific prospect\n2. Use conversational, natural language\n3. Include realistic objections this prospect would raise\n4. Talking points should be actionable coaching tips\n5. Use line breaks between dialogue sections\n6. For objection handling, use OBJECTION: and RESPONSE: format\n7. For branching, use IF YES / IF NO prefixes\n8. Return ONLY valid JSON, no markdown fences or extra text"]

  function Opened(ps: seq<Placeholder>): (r: seq<Slot>)
    ensures |r| == |ps|
    ensures forall k | 0 <= k < |r| :: r[k] == Open(ps[k])
  {
    seq(|ps|, k requires 0 <= k < |ps| => Open(ps[k]))
  }

  /** A template with prose pieces `prose` around the placeholders of `PromptSlots`. */
  function PromptTemplate(prose: seq<string>): string
    requires |prose| == |PromptSlots| + 1
  {
    Render(prose, Opened(PromptSlots))
  }

  function GenerateScriptPrompt(): string {
    PromptTemplate(PromptProse)
  }

  // ---------------------------------------------------------------------------------------------
  // Filling the template
  // ---------------------------------------------------------------------------------------------

  /** `GenerateParams`: each field is a string or absent (`None`). */
  datatype Params = Params(
    prospectName: Option<string>, prospectTitle: Option<string>, prospectCompany: Option<string>,
    industry: Option<string>, companySize: Option<string>, location: Option<string>,
    linkedinSummary: Option<string>, additionalContext: Option<string>)

  function Param(params: Params, p: Placeholder): Option<string> {
    match p
    case ProspectName => params.prospectName
    case ProspectTitle => params.prospectTitle
    case ProspectCompany => params.prospectCompany
    case Industry => params.industry
    case CompanySize => params.companySize
    case Location => params.location
    case LinkedinSummary => params.linkedinSummary
    case AdditionalContext => params.additionalContext
  }

  /** The fixed default of each placeholder. */
  function Default(p: Placeholder): string {
    match p
    case ProspectName => "Unknown"
    case ProspectTitle => "Procurement Leader"
    case ProspectCompany => "Unknown"
    case Industry => "general"
    case CompanySize => "mid_market"
    case Location => "US"
    case LinkedinSummary => "Not provided"
    case AdditionalContext => "None"
  }

  /** `field || fallback` for a string field that may be absent. */
  function OrText(field: Option<string>, fallback: string): string {
    if field.Some? && field.value != "" then field.value else fallback
  }

  /** The eight strings the chain substitutes, one per placeholder. */
  datatype Fills = Fills(
    prospectName: string, prospectTitle: string, prospectCompany: string, industry: string,
    companySize: string, location: string, linkedinSummary: string, additionalContext: string)

  function Of(f: Fills, p: Placeholder): string {
    match p
    case ProspectName => f.prospectName
    case ProspectTitle => f.prospectTitle
    case ProspectCompany => f.prospectCompany
    case Industry => f.industry
    case CompanySize => f.companySize
    case Location => f.location
    case LinkedinSummary => f.linkedinSummary
    case AdditionalContext => f.additionalContext
  }

  /** The arguments of lines 99-106: each parameter, or its default when it is missing or empty. */
  function Defaulted(params: Params): Fills {
    Fills(
      OrText(params.prospectName, "Unknown"), OrText(params.prospectTitle, "Procurement Leader"),
      OrText(params.prospectCompany, "Unknown"), OrText(params.industry, "general"),
      OrText(params.companySize, "mid_market"), OrText(params.location, "US"),
      OrText(params.linkedinSummary, "Not provided"), OrText(params.additionalContext, "None"))
  }

  /** A missing or empty parameter is filled with its default, any other with itself; the
      defaults are plain text. */
  lemma Defaults(params: Params, p: Placeholder)
    ensures Param(params, p).None? ==> Of(Defaulted(params), p) == Default(p)
    ensures Param(params, p) == Some("") ==> Of(Defaulted(params), p) == Default(p)
    ensures Param(params, p).Some? && Param(params, p).value != "" ==> Of(Defaulted(params), p) == Param(params, p).value
    ensures Plain(Default(p))
  {
  }

  /** One call of the chain: the placeholder it fills, and whether it is `replaceAll` (otherwise
      it is `replace`). */
  datatype Call = Call(placeholder: Placeholder, all: bool)

  /** The chain at lines 99-106, in order. */
  const FillCalls: seq<Call> := [
    Call(ProspectName, false), Call(ProspectTitle, false), Call(ProspectCompany, false),
    Call(Industry, true), Call(CompanySize, true), Call(Location, true),
    Call(LinkedinSummary, false), Call(AdditionalContext, false)]

  function ApplyCall(s: string, c: Call, f: Fills): string {
    if c.all then ReplaceAll(s, Token(c.placeholder), Of(f, c.placeholder))
    else Replace(s, Token(c.placeholder), Of(f, c.placeholder))
  }

  /** The first `n` calls of the chain, applied to any template text. */
  function FillTextUpTo(template: string, f: Fills, n: nat): string
    requires n <= |FillCalls|
  {
    if n == 0 then template else ApplyCall(FillTextUpTo(template, f, n - 1), FillCalls[n - 1], f)
  }

  function FillText(template: string, f: Fills): string {
    FillTextUpTo(template, f, |FillCalls|)
  }

  /** The same calls, on slots. */
  function FillSlot(slots: seq<Slot>, c: Call, f: Fills): (r: seq<Slot>)
    ensures |r| == |slots|
  {
    if c.all then FillAll(slots, c.placeholder, Of(f, c.placeholder))
    else FillFirst(slots, c.placeholder, Of(f, c.placeholder))
  }

  function FillSlotsUpTo(slots: seq<Slot>, f: Fills, n: nat): (r: seq<Slot>)
    requires n <= |FillCalls|
    ensures |r| == |slots|
  {
    if n == 0 then slots else FillSlot(FillSlotsUpTo(slots, f, n - 1), FillCalls[n - 1], f)
  }

  predicate PlainFills(f: Fills) {
    forall p: Placeholder :: Plain(Of(f, p))
  }

  /** `GENERATE_SCRIPT_PROMPT` after the chain. */
  function FillPrompt(params: Params): string {
    FillText(GenerateScriptPrompt(), Defaulted(params))
  }

  /** Filling the rendered template is filling its slots, call after call. */
  lemma {:induction false} FillTextRenders(prose: seq<string>, slots: seq<Slot>, f: Fills, n: nat)
    requires |prose| == |slots| + 1 && AllClean(prose) && AllPlain(slots) && PlainFills(f)
    requires n <= |FillCalls|
    ensures FillTextUpTo(Render(prose, slots), f, n) == Render(prose, FillSlotsUpTo(slots, f, n))
    ensures AllPlain(FillSlotsUpTo(slots, f, n))
  {
    if n > 0 {
      FillTextRenders(prose, slots, f, n - 1);
      var before := FillSlotsUpTo(slots, f, n - 1);
      var c := FillCalls[n - 1];
      assert Plain(Of(f, c.placeholder));
      if c.all {
        ReplaceAllFillsAll(prose, before, c.placeholder, Of(f, c.placeholder));
        FillAllPlain(before, c.placeholder, Of(f, c.placeholder));
      } else {
        ReplaceFillsFirst(prose, before, c.placeholder, Of(f, c.placeholder));
        FillFirstPlain(before, c.placeholder, Of(f, c.placeholder));
      }
    }
  }

  /** `replace` fills the slot at `k` when it is the first one open for `p`. */
  lemma FillFirstAt(slots: seq<Slot>, p: Placeholder, v: string, k: nat)
    requires k < |slots| && slots[k] == Open(p)
    requires forall j | 0 <= j < k :: slots[j] != Open(p)
    ensures FillFirst(slots, p, v) == slots[k := Filled(v)]
  {
    assert Open(p) in slots;
    var j :| 0 <= j < |slots| && slots[j] == Open(p) && Open(p) !in slots[..j]
      && FillFirst(slots, p, v) == slots[j := Filled(v)];
  }

  /** `replaceAll` fills the two slots open for `p`. */
  lemma FillAllTwo(slots: seq<Slot>, p: Placeholder, v: string, a: nat, b: nat)
    requires a < b < |slots| && slots[a] == Open(p) && slots[b] == Open(p)
    requires forall k | 0 <= k < |slots| && k != a && k != b :: slots[k] != Open(p)
    ensures FillAll(slots, p, v) == slots[a := Filled(v)][b := Filled(v)]
  {
  }

  /** The texts of the prompt's slots after the chain: every placeholder filled, except the second
      `{prospect_title}` (the skeleton's `target_role`), which `replace` never reaches. */
  function FilledPromptTexts(f: Fills): (r: seq<string>)
    ensures |r| == |PromptSlots|
  {
    [f.prospectName, f.prospectTitle, f.prospectCompany, f.industry, f.companySize, f.location,
     f.linkedinSummary, f.additionalContext, f.industry, f.companySize, f.location,
     Token(ProspectTitle)]
  }

  /** The call of the chain (1 to 8) that fills each slot of the prompt; 9 for none. */
  const FillStep: seq<nat> := [1, 2, 3, 4, 5, 6, 7, 8, 4, 5, 6, 9]

  /** The slots of the prompt after the first `n` calls of the chain. */
  function PromptStage(f: Fills, n: nat): (r: seq<Slot>)
    ensures |r| == |PromptSlots|
  {
    seq(|PromptSlots|, k requires 0 <= k < |PromptSlots| =>
      if FillStep[k] <= n then Filled(Of(f, PromptSlots[k])) else Open(PromptSlots[k]))
  }

  lemma StageFirst(f: Fills, n: nat, k: nat)
    requires k < |PromptSlots| && FillStep[k] == n + 1
    requires forall j | 0 <= j < |PromptSlots| && j != k :: FillStep[j] != n + 1
    requires forall j | 0 <= j < k :: PromptSlots[j] != PromptSlots[k] || FillStep[j] <= n
    ensures FillFirst(PromptStage(f, n), PromptSlots[k], Of(f, PromptSlots[k])) == PromptStage(f, n + 1)
  {
    var p := PromptSlots[k];
    var before := PromptStage(f, n);
    forall j | 0 <= j < k ensures before[j] != Open(p) {
      if FillStep[j] > n { assert PromptSlots[j] != p; }
    }
    FillFirstAt(before, p, Of(f, p), k);
    assert before[k := Filled(Of(f, p))] == PromptStage(f, n + 1) by {
      forall j | 0 <= j < |PromptSlots| && j != k ensures (FillStep[j] <= n) == (FillStep[j] <= n + 1) { }
    }
  }

  lemma StageAll(f: Fills, n: nat, a: nat, b: nat)
    requires a < b < |PromptSlots| && FillStep[a] == n + 1 && FillStep[b] == n + 1
    requires PromptSlots[a] == PromptSlots[b]
    requires forall j | 0 <= j < |PromptSlots| && j != a && j != b :: FillStep[j] != n + 1
    requires forall j | 0 <= j < |PromptSlots| && j != a && j != b :: PromptSlots[j] != PromptSlots[a] || FillStep[j] <= n
    ensures FillAll(PromptStage(f, n), PromptSlots[a], Of(f, PromptSlots[a])) == PromptStage(f, n + 1)
  {
    var p := PromptSlots[a];
    var before := PromptStage(f, n);
    FillAllTwo(before, p, Of(f, p), a, b);
    assert before[a := Filled(Of(f, p))][b := Filled(Of(f, p))] == PromptStage(f, n + 1) by {
      forall j | 0 <= j < |PromptSlots| && j != a && j != b ensures (FillStep[j] <= n) == (FillStep[j] <= n + 1) { }
    }
  }

  function FilledPromptSlots(f: Fills): seq<Slot> {
    PromptStage(f, |FillCalls|)
  }

  /** Call `n` of the chain takes the prompt from stage `n` to stage `n + 1`. */
  lemma StageStep(f: Fills, n: nat)
    requires n < |FillCalls|
    ensures FillSlot(PromptStage(f, n), FillCalls[n], f) == PromptStage(f, n + 1)
  {
    if n == 3 { StageAll(f, 3, 3, 8); }
    else if n == 4 { StageAll(f, 4, 4, 9); }
    else if n == 5 { StageAll(f, 5, 5, 10); }
    else { StageFirst(f, n, n); }
  }

  lemma {:induction false} PromptStages(f: Fills, n: nat)
    requires n <= |FillCalls|
    ensures FillSlotsUpTo(Opened(PromptSlots), f, n) == PromptStage(f, n)
  {
    if n == 0 {
      assert Opened(PromptSlots) == PromptStage(f, 0);
    } else {
      PromptStages(f, n - 1);
      StageStep(f, n - 1);
    }
  }

  lemma FilledPromptRenders(prose: seq<string>, f: Fills)
    requires |prose| == 13
    ensures Render(prose, FilledPromptSlots(f)) == Interpolate(prose, FilledPromptTexts(f))
  {
    assert SlotTexts(FilledPromptSlots(f)) == FilledPromptTexts(f);
  }

  /** For any template with the prompt's placeholders and clean prose, the filled prompt is the
      template with the values in place of every placeholder occurrence but the last. */
  lemma FillPromptTemplate(prose: seq<string>, f: Fills)
    requires |prose| == |PromptSlots| + 1 && AllClean(prose) && PlainFills(f)
    ensures FillText(PromptTemplate(prose), f) == Interpolate(prose, FilledPromptTexts(f))
  {
    FillTextRenders(prose, Opened(PromptSlots), f, |FillCalls|);
    PromptStages(f, |FillCalls|);
    FilledPromptRenders(prose, f);
  }

  /** The skeleton keeps the literal text `{prospect_title}`, while industry, company size and
      location are filled at both of their places. */
  lemma FilledPromptPlaces(prose: seq<string>, f: Fills)
    requires |prose| == |PromptSlots| + 1
    ensures Contains(Interpolate(prose, FilledPromptTexts(f)), Token(ProspectTitle))
    ensures OccursTwice(Interpolate(prose, FilledPromptTexts(f)), f.industry)
    ensures OccursTwice(Interpolate(prose, FilledPromptTexts(f)), f.companySize)
    ensures OccursTwice(Interpolate(prose, FilledPromptTexts(f)), f.location)
  {
    FilledOnce(prose, f);
    FilledTwice(prose, f, 3, 8);
    FilledTwice(prose, f, 4, 9);
    FilledTwice(prose, f, 5, 10);
  }

  lemma FilledOnce(prose: seq<string>, f: Fills)
    requires |prose| == |PromptSlots| + 1
    ensures Contains(Interpolate(prose, FilledPromptTexts(f)), Token(ProspectTitle))
  {
    var values := FilledPromptTexts(f);
    InterpolateOccurs(prose, values, 11);
  }

  lemma FilledTwice(prose: seq<string>, f: Fills, i: nat, j: nat)
    requires |prose| == |PromptSlots| + 1
    requires (i, j) == (3, 8) || (i, j) == (4, 9) || (i, j) == (5, 10)
    ensures OccursTwice(Interpolate(prose, FilledPromptTexts(f)), FilledPromptTexts(f)[i])
    ensures FilledPromptTexts(f)[i] == Of(f, PromptSlots[i])
  {
    InterpolateTwice(prose, FilledPromptTexts(f), i, j);
  }

  /** Defaulting keeps values plain when the parameters given are plain. */
  lemma DefaultedPlain(params: Params)
    requires forall p: Placeholder :: Param(params, p).Some? ==> Plain(Param(params, p).value)
    ensures PlainFills(Defaulted(params))
  {
    forall p: Placeholder ensures Plain(Of(Defaulted(params), p)) {
      Defaults(params, p);
    }
  }

  /** The prompt sent for `params`, given that the template's own prose holds no placeholder
      (every `{` in it is the first of a doubled brace). */
  lemma FillPromptResult(params: Params)
    requires AllClean(PromptProse)
    requires forall p: Placeholder :: Param(params, p).Some? ==> Plain(Param(params, p).value)
    ensures FillPrompt(params) == Interpolate(PromptProse, FilledPromptTexts(Defaulted(params)))
    ensures Contains(FillPrompt(params), Token(ProspectTitle))
  {
    DefaultedPlain(params);
    FillPromptTemplate(PromptProse, Defaulted(params));
    FilledPromptPlaces(PromptProse, Defaulted(params));
  }

  // ---------------------------------------------------------------------------------------------
  // The reply
  // ---------------------------------------------------------------------------------------------

  const Fence := "```"

  /** Lines 122-127 on the trimmed reply: a fenced reply keeps its second line, without a trailing
      fence; with no newline, `split` gives no second piece and reading `endsWith` of it throws. */
  function FenceStripped(raw: string): (r: Result<string, JsError>)
    ensures !StartsWith(raw, Fence) ==> r == Ok(raw)
    ensures StartsWith(raw, Fence) ==> (r.Err? <==> '\n' !in raw)
    ensures r.Err? ==> r.error == ReadOfNullish(Undefined, "endsWith")
    ensures StartsWith(raw, Fence) && r.Ok? ==>
      exists line, k :: SecondPieceAt(raw, '\n', line, k)
        && r.value == (if EndsWith(line, Fence) then line[..|line| - |Fence|] else line)
  {
    SecondPieceSpec(raw, '\n');
    if !StartsWith(raw, Fence) then Ok(raw)
    else match SecondPiece(raw, '\n')
      case None => Err(ReadOfNullish(Undefined, "endsWith"))
      case Some(line) =>
        if EndsWith(line, Fence) then
          LastIndexOfSuffix(line, Fence);
          Ok(line[..LastIndexOf(line, Fence)])
        else Ok(line)
  }

  /** `lines 121-127`: trim the reply text, then strip the fence by reassigning `raw`. */
  method StripFences(content: string) returns (r: Result<string, JsError>)
    ensures r == FenceStripped(Trim(content))
  {
    var raw := Trim(content);
    if StartsWith(raw, Fence) {
      var piece := SecondPiece(raw, '\n');
      if piece.None? {
        return Err(ReadOfNullish(Undefined, "endsWith"));
      }
      raw := piece.value;
      if EndsWith(raw, Fence) {
        LastIndexOfSuffix(raw, Fence);
        raw := raw[..LastIndexOf(raw, Fence)];
      }
    }
    r := Ok(raw);
  }

  lemma NewlineAt(a: string, b: string)
    requires '\n' !in a
    ensures IndexOf(a + "\n" + b, "\n") == |a|
  {
    assert Inert(a, "\n") by {
      forall i | 0 <= i < |a| ensures Mismatch(a[i..], "\n") { assert a[i..][0] == a[i]; }
    }
    IndexOfInertPrefix(a, "\n" + b, "\n");
    assert ("\n" + b)[..1] == "\n";
    assert a + "\n" + b == a + ("\n" + b);
  }

  /** A fenced reply keeps only the line after the opening fence line: the JSON survives only
      when it was written on one line. */
  lemma FencedKeepsSecondLine(tag: string, line: string, rest: string)
    requires '\n' !in tag && '\n' !in line
    ensures FenceStripped(Fence + tag + "\n" + line + "\n" + rest)
      == Ok(if EndsWith(line, Fence) then line[..|line| - |Fence|] else line)
  {
    var s := Fence + tag + "\n" + line + "\n" + rest;
    assert '\n' !in Fence + tag;
    NewlineAt(Fence + tag, line + "\n" + rest);
    assert s == (Fence + tag) + "\n" + (line + "\n" + rest);
    assert s[|Fence + tag| + 1..] == line + "\n" + rest;
    NewlineAt(line, rest);
    assert (line + "\n" + rest)[..|line|] == line;
    assert s[..|Fence|] == Fence;
    if EndsWith(line, Fence) { LastIndexOfSuffix(line, Fence); }
  }

  /** A fenced reply whose second line is its last line keeps that line. */
  lemma FencedLastLine(tag: string, line: string)
    requires '\n' !in tag && '\n' !in line
    ensures FenceStripped(Fence + tag + "\n" + line)
      == Ok(if EndsWith(line, Fence) then line[..|line| - |Fence|] else line)
  {
    var s := Fence + tag + "\n" + line;
    assert '\n' !in Fence + tag;
    NewlineAt(Fence + tag, line);
    assert s[|Fence + tag| + 1..] == line;
    IndexOfChar(line, '\n');
    assert s[..|Fence|] == Fence;
    if EndsWith(line, Fence) { LastIndexOfSuffix(line, Fence); }
  }

  /** A reply fenced the usual Markdown way around one line of JSON comes back as that line. */
  lemma FencedOneLineJson(json: string)
    requires '\n' !in json && !EndsWith(json, Fence)
    ensures FenceStripped(Fence + "json" + "\n" + json + "\n" + Fence) == Ok(json)
  {
    FencedKeepsSecondLine("json", json, Fence);
  }

  // ---------------------------------------------------------------------------------------------
  // generateScriptFromProspect
  // ---------------------------------------------------------------------------------------------

  const JsonInstruction := "You are a JSON generator. Return ONLY valid JSON."

  /** Lines 108-119; temperature is not modelled. */
  function ScriptRequest(params: Params): (r: Request)
    ensures r.model == "gpt-4o" && r.maxTokens == 4000
    ensures r.messages == [Message("system", JsonInstruction), Message("user", FillPrompt(params))]
  {
    Request("gpt-4o", [Message("system", JsonInstruction), Message("user", FillPrompt(params))], 4000)
  }

  /** `JSON.parse(raw)`: the parsed value, or the `SyntaxError` it throws. */
  function ParseReply(parse: Parser, raw: string): (r: Result<Value, JsError>)
    ensures parse(raw).Parsed? ==> r == Ok(parse(raw).value)
    ensures parse(raw).SyntaxError? ==> r == Err(Thrown(parse(raw).message))
  {
    match parse(raw)
    case Parsed(v) => Ok(v)
    case SyntaxError(m) => Err(Thrown(m))
  }

  /** The outcome of `generateScriptFromProspect`: the parsed script, or the error it throws. */
  function Generation(params: Params, api: CompletionApi, parse: Parser): Result<Value, JsError> {
    match ReplyText(api(ScriptRequest(params)))
    case Err(e) => Err(e)
    case Ok(reply) =>
      match FenceStripped(Trim(reply))
      case Err(e) => Err(e)
      case Ok(raw) => ParseReply(parse, raw)
  }

  /** The whole function: ask the model, strip the fence, parse. The first step that throws
      decides the rejection. */
  method GenerateScript(params: Params, api: CompletionApi, parse: Parser) returns (r: Result<Value, JsError>)
    ensures r == Generation(params, api, parse)
    ensures ReplyText(api(ScriptRequest(params))).Err? ==> r == Err(ReplyText(api(ScriptRequest(params))).error)
    ensures ReplyText(api(ScriptRequest(params))).Ok? ==>
      var stripped := FenceStripped(Trim(ReplyText(api(ScriptRequest(params))).value));
      && (stripped.Err? ==> r == Err(stripped.error))
      && (stripped.Ok? ==> r == ParseReply(parse, stripped.value))
  {
    var reply := ReplyText(api(ScriptRequest(params)));
    if reply.Err? {
      return Err(reply.error);
    }
    var raw := StripFences(reply.value);
    if raw.Err? {
      return Err(raw.error);
    }
    r := ParseReply(parse, raw.value);
  }
}
