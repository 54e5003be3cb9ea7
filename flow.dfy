/**
 * `run_flow` of `src/langgraph_flow.py`: one resumable step of the person
 * search. A call copies the prior state, records new inputs, sets the plan and
 * runs the search at most once, and then routes on the selection, the
 * candidates, the current index and the user's decision.
 */
module Flow {
  import opened Wrappers
  import opened PyStr
  import opened Tools
  import opened Llm
  import opened Queries
  import opened Search

  /**
   * The `FlowState` record; every key may be absent. A details record has
   * the keys of the candidate it was copied from.
   */
  datatype FlowState = FlowState(
    inputs: Option<map<string, string>>,
    plan: Option<seq<string>>,
    candidates: Option<seq<Candidate>>,
    currentIndex: Option<int>,
    selected: Option<Candidate>,
    details: Option<Candidate>,
    summary: Option<string>,
    queries: Option<seq<string>>,
    report: Option<string>,
    awaitingUser: Option<bool>)

  const EmptyState: FlowState := FlowState(None, None, None, None, None, None, None, None, None, None)

  /** What a call hands back: the new state and the report text, or the `IndexError` it raises. */
  datatype FlowResult = Returned(state: FlowState, reportText: Option<string>) | IndexOutOfRange

  /**
   * The capabilities the flow calls out to: the web search, the HTTP GET, the
   * provider of the one LLM client with what it replies to (prompt,
   * max_tokens), and Python's `repr` of the inputs and of a candidate record.
   */
  datatype Services = Services(
    search: SearchBackend,
    http: HttpBackend,
    provider: Provider,
    reply: (string, int) -> ProviderReply,
    showInputs: map<string, string> -> string,
    showCandidate: Candidate -> string)

  const PlanSteps: seq<string> := [
    "Create person search plan",
    "Execute search and prepare candidates",
    "Request user confirmation on best candidate",
    "Collect details on confirmed candidate",
    "Prepare report and store in DB"]

  const NoCandidatesMessage: string := "No candidates found. Adjust search terms and try again."
  const ExhaustedMessage: string := "Exhausted candidates without a match."

  /** The first search runs with `max_results=5`, the broadened retry with 3. */
  const SearchLimit: int := 5
  const RetryLimit: int := 3
  const ReportTokens: int := 900

  // Python truthiness of the state's entries (a candidate or details record is never empty).
  predicate HasInputs(s: FlowState) { s.inputs.Some? && |s.inputs.value| > 0 }
  predicate HasPlan(s: FlowState) { s.plan.Some? && |s.plan.value| > 0 }
  predicate HasCandidates(s: FlowState) { s.candidates.Some? && |s.candidates.value| > 0 }
  predicate HasSelected(s: FlowState) { s.selected.Some? }
  predicate HasDetails(s: FlowState) { s.details.Some? }

  /** `state.get("candidates") or []`. */
  function CandidateList(s: FlowState): seq<Candidate> { s.candidates.GetOr([]) }

  /** `int(state.get("current_index") or 0)`. */
  function Index(s: FlowState): int { s.currentIndex.GetOr(0) }

  /** Python's `xs[i]`: negative indices count from the end; anything else out of range raises. */
  function PyIndex<T>(xs: seq<T>, i: int): (r: Option<T>)
    ensures r.Some? <==> -|xs| <= i < |xs|
    ensures 0 <= i < |xs| ==> r == Some(xs[i])
    ensures -|xs| <= i < 0 ==> r == Some(xs[|xs| + i])
  {
    if 0 <= i < |xs| then Some(xs[i])
    else if -|xs| <= i < 0 then Some(xs[|xs| + i])
    else None
  }

  // ---------------------------------------------------------------- details

  /**
   * `_collect_details(candidate)`: a copy of the candidate whose title is
   * filled from the fetched page title only when the candidate has no title
   * and the fetch gave a non-empty one.
   */
  function CollectDetails(c: Candidate, http: HttpBackend): (d: Candidate)
    ensures d.url == c.url && d.snippet == c.snippet && d.sourceQuery == c.sourceQuery
    ensures Truthy(c.title) ==> d.title == c.title
    ensures d.title != c.title ==> d.title == FetchUrlTitle(http, c.url) && Truthy(d.title)
    ensures !Truthy(c.title) && Truthy(FetchUrlTitle(http, c.url)) ==> d.title == FetchUrlTitle(http, c.url)
  {
    var title := FetchUrlTitle(http, c.url);
    if Truthy(title) && !Truthy(c.title) then c.(title := title) else c
  }

  // ----------------------------------------------------------------- report

  const PromptHeader: string :=
    "Create a concise, structured portfolio/report about the person based on inputs and collected details.\n"
    + "Include: Basic info (name, phone), links, inferred roles, and any notable summaries from sources.\n"
    + "If data is sparse, state limitations.\n\n"
  const PromptFooter: string := "Return a markdown-like text."

  /** `repr(state.get("inputs") or {})`. */
  function ShowInputs(s: FlowState, svc: Services): string {
    if HasInputs(s) then svc.showInputs(s.inputs.value) else "{}"
  }

  /** `repr(record or {})` for the selected candidate or the details. */
  function ShowRecord(c: Option<Candidate>, svc: Services): string {
    if c.Some? then svc.showCandidate(c.value) else "{}"
  }

  /** The prompt `_make_report` sends: the fixed instructions, the three records, and the closing line. */
  function MakePrompt(s: FlowState, svc: Services): string {
    PromptHeader + PromptRecords(s, svc) + PromptFooter
  }

  /** The three records of the prompt, each after its label and before a blank line. */
  function PromptRecords(s: FlowState, svc: Services): string {
    ("Inputs: " + ShowInputs(s, svc))
      + ("\n\n" + "Selected candidate: " + ShowRecord(s.selected, svc)
         + "\n\n" + "Collected details: " + ShowRecord(s.details, svc) + "\n\n")
  }

  /** `_make_report(state)`: the client's `generate_text(prompt, max_tokens=900)`. */
  function MakeReport(s: FlowState, svc: Services): string {
    var prompt := MakePrompt(s, svc);
    Generate(svc.provider, prompt, svc.reply(prompt, ReportTokens))
  }

  // ------------------------------------------------------- guards (src/langgraph_flow.py:96-117)

  /** `state["inputs"] = inputs` when `inputs is not None`. */
  function WithInputs(s: FlowState, inputs: Option<map<string, string>>): FlowState {
    if inputs.Some? then s.(inputs := inputs) else s
  }

  /** The plan is filled in only when it is missing or empty and there are inputs. */
  function PlanGuard(s: FlowState): FlowState {
    if !HasPlan(s) && HasInputs(s) then s.(plan := Some(PlanSteps)) else s
  }

  /** The queries a state's inputs give. */
  function InitialQueries(s: FlowState): seq<string>
    requires HasInputs(s)
  {
    QueryList(Base(s.inputs.value))
  }

  /** The search runs only when there are no candidates and there are inputs. */
  function SearchGuard(s: FlowState, svc: Services): FlowState
  {
    if !HasCandidates(s) && HasInputs(s) then
      var qs := InitialQueries(s);
      s.(queries := Some(qs), candidates := Some(Candidates(svc.search, qs, SearchLimit)), currentIndex := Some(0))
    else s
  }

  /** The state once the prior state is copied and the three guards have run. */
  function Prepared(inputs: Option<map<string, string>>, prior: Option<FlowState>, svc: Services): FlowState {
    SearchGuard(PlanGuard(WithInputs(prior.GetOr(EmptyState), inputs)), svc)
  }

  // ------------------------------------------------------ routing (src/langgraph_flow.py:119-186)

  /** The branch a call takes once the guards have run. */
  datatype Route =
    | CollectAgain    // "collect" with a selection
    | ReportNow       // "report" with a selection
    | NoCandidates    // nothing selected and no candidates
    | AskFirst        // nothing selected, no decision yet
    | Confirm         // a yes token
    | Advance         // a no token with another candidate left
    | Broaden         // a no token on the last candidate
    | AskAgain        // any other token
    | Keep            // a selection and no collect/report request

  predicate IsYes(t: string) { t == "yes" || t == "y" || t == "match" || t == "true" }
  predicate IsNo(t: string) { t == "no" || t == "n" || t == "next" || t == "false" }

  /** `(user_decision or "").strip().lower()`. */
  function Normalize(decision: string): string {
    PyLower(Strip(decision))
  }

  function RouteOf(s: FlowState, decision: Option<string>): Route {
    if (decision == Some("collect") || decision == Some("report")) && HasSelected(s) then
      if decision == Some("collect") then CollectAgain else ReportNow
    else if HasSelected(s) then Keep
    else if CandidateList(s) == [] then NoCandidates
    else if !Truthy(decision) then AskFirst
    else if IsYes(Normalize(decision.value)) then Confirm
    else if IsNo(Normalize(decision.value)) then
      if Index(s) + 1 < |CandidateList(s)| then Advance else Broaden
    else AskAgain
  }

  /** `state.get("summary") or (selected.get("title") or "")`. */
  function CollectSummary(s: FlowState, c: Candidate): string {
    if Truthy(s.summary) then s.summary.value else if Truthy(c.title) then c.title.value else ""
  }

  /** `selected.get("title") or selected.get("url")`. */
  function TitleOrUrl(c: Candidate): string {
    if Truthy(c.title) then c.title.value else c.url
  }

  /** The first and last name as the retry queries use them: `.get(key, '')`, unstripped. */
  function FullName(s: FlowState): string {
    var m := s.inputs.GetOr(map[]);
    FieldValue(m, "first_name") + " " + FieldValue(m, "last_name")
  }

  /** The broadened retry: the stored queries, then a "profile" and a "resume" query. */
  function Broadened(s: FlowState): seq<string> {
    s.queries.GetOr([]) + [FullName(s) + " profile", FullName(s) + " resume"]
  }

  /** "collect" with a selection: the details are collected again and the summary kept or filled. */
  function Recollected(s: FlowState, c: Candidate, svc: Services): FlowState {
    s.(details := Some(CollectDetails(c, svc.http)), summary := Some(CollectSummary(s, c)))
  }

  /** "report" with a selection: details collected if missing, then the report. */
  function Reported(s: FlowState, c: Candidate, svc: Services): FlowResult {
    var s1 := if HasDetails(s) then s else s.(details := Some(CollectDetails(c, svc.http)));
    var text := MakeReport(s1, svc);
    Returned(s1.(report := Some(text), awaitingUser := Some(false)), Some(text))
  }

  /** A yes token: the current candidate is selected, its details collected and the report made. */
  function Confirmed(s: FlowState, svc: Services): FlowResult {
    var pick := PyIndex(CandidateList(s), Index(s));
    if pick.None? then IndexOutOfRange
    else
      var c := pick.value;
      var s1 := s.(selected := Some(c), awaitingUser := Some(false),
                   details := Some(CollectDetails(c, svc.http)), summary := Some(TitleOrUrl(c)));
      var text := MakeReport(s1, svc);
      Returned(s1.(report := Some(text)), Some(text))
  }

  /** A no token on the last candidate: one broadened search. */
  function Retried(s: FlowState, svc: Services): FlowState {
    var found := Candidates(svc.search, Broadened(s), RetryLimit);
    if found != [] then s.(candidates := Some(found), currentIndex := Some(0), awaitingUser := Some(true))
    else s.(awaitingUser := Some(false), summary := Some(ExhaustedMessage))
  }

  /** The outcome of the routing cascade on a prepared state. */
  function Decide(s: FlowState, decision: Option<string>, svc: Services): FlowResult {
    match RouteOf(s, decision)
    case CollectAgain => Returned(Recollected(s, s.selected.value, svc), None)
    case ReportNow => Reported(s, s.selected.value, svc)
    case NoCandidates => Returned(s.(awaitingUser := Some(false), summary := Some(NoCandidatesMessage)), None)
    case AskFirst => Returned(s.(awaitingUser := Some(true)), None)
    case Confirm => Confirmed(s, svc)
    case Advance => Returned(s.(currentIndex := Some(Index(s) + 1), awaitingUser := Some(true)), None)
    case Broaden => Returned(Retried(s, svc), None)
    case AskAgain => Returned(s.(awaitingUser := Some(true)), None)
    case Keep => Returned(s.(awaitingUser := Some(false)), None)
  }

  /** What `run_flow(inputs, prior_state, user_decision)` returns. */
  function Outcome(inputs: Option<map<string, string>>, prior: Option<FlowState>, decision: Option<string>,
                   svc: Services): FlowResult {
    Decide(Prepared(inputs, prior, svc), decision, svc)
  }

  /**
   * `run_flow(inputs, prior_state, user_decision)`: the state is copied and
   * updated entry by entry, with a return at the end of every branch.
   */
  method RunFlow(inputs: Option<map<string, string>>, prior: Option<FlowState>, decision: Option<string>,
                 svc: Services) returns (r: FlowResult)
    ensures r == Outcome(inputs, prior, decision, svc)
  {
    var state := prior.GetOr(EmptyState);
    if inputs.Some? {
      state := state.(inputs := inputs);
    }
    if !HasPlan(state) && HasInputs(state) {
      state := state.(plan := Some(PlanSteps));
    }
    if !HasCandidates(state) && HasInputs(state) {
      var queries := MakeQueries(state.inputs.value);
      state := state.(queries := Some(queries));
      var found := SearchCandidates(svc.search, queries, SearchLimit);
      state := state.(candidates := Some(found));
      state := state.(currentIndex := Some(0));
    }
    assert state == Prepared(inputs, prior, svc);
    r := Dispatch(state, decision, svc);
  }

  /** The routing cascade of `run_flow`, from the prepared state on. */
  method Dispatch(state0: FlowState, decision: Option<string>, svc: Services) returns (r: FlowResult)
    ensures r == Decide(state0, decision, svc)
  {
    var state := state0;
    if (decision == Some("collect") || decision == Some("report")) && HasSelected(state) {
      var reportText: Option<string> := None;
      if decision == Some("collect") {
        state := state.(details := Some(CollectDetails(state.selected.value, svc.http)));
        state := state.(summary := Some(CollectSummary(state, state.selected.value)));
      } else {
        if !HasDetails(state) && HasSelected(state) {
          state := state.(details := Some(CollectDetails(state.selected.value, svc.http)));
        }
        var text := MakeReport(state, svc);
        reportText := Some(text);
        state := state.(report := reportText);
        state := state.(awaitingUser := Some(false));
      }
      assert RouteOf(state0, decision) == if decision == Some("collect") then CollectAgain else ReportNow;
      assert decision == Some("collect") ==> state == Recollected(state0, state0.selected.value, svc);
      assert decision != Some("collect") ==> Returned(state, reportText) == Reported(state0, state0.selected.value, svc);
      return Returned(state, reportText);
    }
    if !HasSelected(state) {
      r := Choose(state, decision, svc);
      return;
    }
    assert RouteOf(state0, decision) == Keep;
    state := state.(awaitingUser := Some(false));
    return Returned(state, None);
  }

  /** The branch of `run_flow` with nothing selected: report emptiness, ask, or act on the decision. */
  method Choose(state0: FlowState, decision: Option<string>, svc: Services) returns (r: FlowResult)
    requires !HasSelected(state0)
    ensures r == Decide(state0, decision, svc)
  {
    var state := state0;
    var candidates := CandidateList(state);
    var idx := Index(state);
    if candidates == [] {
      state := state.(awaitingUser := Some(false));
      state := state.(summary := Some(NoCandidatesMessage));
      assert RouteOf(state0, decision) == NoCandidates;
      return Returned(state, None);
    }
    if !Truthy(decision) {
      state := state.(awaitingUser := Some(true));
      assert RouteOf(state0, decision) == AskFirst;
      return Returned(state, None);
    }
    var d := Normalize(decision.value);
    if IsYes(d) {
      assert RouteOf(state0, decision) == Confirm;
      var pick := PyIndex(candidates, idx);
      if pick.None? {
        return IndexOutOfRange;
      }
      state := state.(selected := pick);
      state := state.(awaitingUser := Some(false));
      state := state.(details := Some(CollectDetails(state.selected.value, svc.http)));
      state := state.(summary := Some(TitleOrUrl(state.selected.value)));
      var text := MakeReport(state, svc);
      state := state.(report := Some(text));
      assert Returned(state, Some(text)) == Confirmed(state0, svc);
      return Returned(state, Some(text));
    } else if IsNo(d) {
      idx := idx + 1;
      if idx < |candidates| {
        assert RouteOf(state0, decision) == Advance;
        state := state.(currentIndex := Some(idx));
        state := state.(awaitingUser := Some(true));
        return Returned(state, None);
      } else {
        assert RouteOf(state0, decision) == Broaden;
        var broadened := state.queries.GetOr([]) + [FullName(state) + " profile", FullName(state) + " resume"];
        var found := SearchCandidates(svc.search, broadened, RetryLimit);
        if found != [] {
          state := state.(candidates := Some(found));
          state := state.(currentIndex := Some(0));
          state := state.(awaitingUser := Some(true));
          assert state == Retried(state0, svc);
          return Returned(state, None);
        }
        state := state.(awaitingUser := Some(false));
        state := state.(summary := Some(ExhaustedMessage));
        assert state == Retried(state0, svc);
        return Returned(state, None);
      }
    } else {
      assert RouteOf(state0, decision) == AskAgain;
      state := state.(awaitingUser := Some(true));
      return Returned(state, None);
    }
  }
}
