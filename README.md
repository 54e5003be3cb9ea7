# search4people core in Dafny

A model of the person-search workflow of search4people. A user gives partial
identity fields (first name, last name, surname, phone). The workflow then:

- builds web-search queries from them;
- collects candidate profiles with distinct links;
- pauses until a human confirms or rejects the current candidate;
- enriches the confirmed candidate with its page title;
- asks a text-generation client for a report.

Each call of `run_flow` is one resumable step over a `FlowState` record. The
caller stores the state and hands it back with the next decision.

The modules follow the source files:

- `pystr.dfy` (`PyStr`) holds the Python string operations the core relies on:
  - `str.strip`, `str.lower`, `str.find`, `str.join`, slicing;
  - their properties are proved as lemmas.
- `tools.dfy` (`Tools`) covers `search_duckduckgo` and `fetch_url_title` (`src/tools.py`):
  - the result mapping and its `or` fallbacks;
  - the `<title>` scan. It is modelled twice: as written, and with indices that stay valid in the page text (see Findings).
- `llm.dfy` (`Llm`) covers `src/llm.py`:
  - provider selection in `LLMClient.__init__`, with a class holding `provider`, `model` and the SDK handle;
  - `generate_text` with its deterministic fallback report;
  - the `get_llm` singleton, as a class whose `GetLlm` method fills its `instance` field once.
- `queries.dfy` (`Queries`) covers `_make_queries`:
  - a method with the source's loop and appends;
  - it is proved against the specification function `QueryList(Base(inputs))`.
- `search.dfy` (`Search`) covers `_search_candidates`:
  - a method with the source's two nested loops and its `seen` set;
  - it is proved against `Candidates`;
  - `Candidates` is proved equal to an independent first-occurrence definition, with distinct, non-empty, stripped URLs.
- `flow.dfy` (`Flow`) models the `FlowState` record, `_collect_details`, the `_make_report` prompt and `run_flow`:
  - `RunFlow` (with the `Dispatch` and `Choose` parts of its branch cascade) updates the copied state step by step;
  - it is proved equal to `Outcome`, which is the preparation guards (`Prepared`) followed by the routing cascade (`Decide`).
- `flow_properties.dfy` (`FlowProperties`) holds what `run_flow` promises across branches and calls:
  - the plan is set once; the search runs again only while no candidates are stored;
  - a selection is never reverted;
  - each branch's `awaiting_user`, summary and report text;
  - only an out-of-range index on a yes token raises;
  - stored candidates stay well formed;
  - multi-call scenarios: ask then confirm, reject then confirm, resume with yes.

External capabilities are parameters. The `Services` record carries:

- the search library's behaviour per query;
- the HTTP GET outcome per URL;
- the chosen LLM provider and its reply per prompt;
- Python's `repr` of the inputs and of a candidate record.

They are functions, so a call of `run_flow` is deterministic given them.

Two behaviours of `_make_queries` are worth knowing:

- It tests each raw value before stripping it, so a whitespace-only field adds an empty part. Between two non-blank fields that part leaves two spaces inside the base (`BlankMiddleFieldDoublesSpace`); at either end the final `strip` removes it.
- The sixth (phone) query is always cut by the final `[:5]`.

## Model

| member | source | states |
|---|---|---|
| PyStr.StripShape | src/langgraph_flow.py:28-29 | `strip` keeps one contiguous slice of its argument with only whitespace before and after it; the slice has no whitespace at either end, and it is empty exactly when the argument is all whitespace |
| PyStr.StripKeepsTrimmed | src/langgraph_flow.py:28 | stripping a value without surrounding whitespace leaves it unchanged |
| PyStr.StripIgnoresPadding | src/langgraph_flow.py:148 | whitespace added around a text does not change its stripped form |
| PyStr.PyLower | src/tools.py:43 | `str.lower` never shortens a text |
| PyStr.PyLowerKeepsIndices | src/tools.py:43 | without U+0130, `str.lower` maps character by character, so every index of the lowered text is an index of the original |
| PyStr.FoldCaseNoCapitals | src/langgraph_flow.py:148 | lowering a text with no ASCII capitals changes nothing |
| PyStr.Find | src/tools.py:43-49 | `str.find` returns -1 or the first occurrence of the pattern at or after the start |
| PyStr.FindIs | src/tools.py:43-49 | when `i` is the first occurrence at or after the start, `find` returns exactly `i` |
| PyStr.FindFound | src/tools.py:43-49 | when the pattern occurs at some index at or after the start, `find` does not return -1 |
| PyStr.JoinTwo | src/langgraph_flow.py:29 | joining two parts puts the separator between them |
| PyStr.JoinThree | src/langgraph_flow.py:29 | joining three parts puts the separator between each pair of neighbours |
| PyStr.StripKeepsEnds | src/langgraph_flow.py:29 | a joined text whose outer parts are trimmed and non-empty is unchanged by `strip` |
| PyStr.JoinAllSpace | src/langgraph_flow.py:29 | the space-joined parts are all whitespace exactly when every part is |
| PyStr.Take | src/llm.py:83 | `prompt[:n]` is a prefix of the prompt of length `min(n, len)` |
| Tools.SearchDuckDuckGo | src/tools.py:15-29 | without the library, no results; otherwise one record per yielded result, in order, with title kept, href falling back to url and body to snippet; results yielded before an exception are kept |
| Tools.MappedPrefix | src/tools.py:20-25 | the first `n` mapped records are the mapping of the first `n` raw results |
| Tools.SearchResults | src/tools.py:15-29 | the returned list is empty without the library and has one record per yielded result with it |
| Tools.CloseAfterGt | src/tools.py:46-52 | the `</title>` found at or after the `>` starts strictly after it, so the title slice is well defined |
| Tools.SpanFinds | src/tools.py:43-51 | on a title span the three searches land on its `<title`, first `>` and first `</title>` |
| Tools.SpanTitle | src/tools.py:43-52 | on a title span the scan returns the text between the `>` and `</title>`, stripped |
| Tools.ExtractTitleSpan | src/tools.py:43-52 | a title is found exactly when the page has a title span, and then it is that span's stripped text |
| Tools.ExtractTitleTrimmed | src/tools.py:52 | an extracted title has no surrounding whitespace |
| Tools.AsWrittenAt | src/tools.py:43-52 | the scan as written, once the three positions it finds in `text.lower()` and `text` are known |
| Tools.AsWrittenAgreesWithoutDottedI | src/tools.py:43-52 | on pages without U+0130 the scan as written equals the index-preserving scan |
| Tools.DottedPageLower | src/tools.py:43 | on a page whose title element follows a U+0130, `text.lower()` is one character longer than the page |
| Tools.DottedPageSlice | src/tools.py:52 | on that page the slice taken with the lowered indices reaches one character into `</title>` |
| Tools.AsWrittenMisplacesTitle | src/tools.py:43-52 | on that page the scan as written returns the title with a `<` appended |
| Tools.DottedPageTitle | src/tools.py:43-52 | on that page the index-preserving scan returns the title itself |
| Tools.FetchUrlTitle | src/tools.py:32-54 | `None` without `requests`, on a raised request or a non-ok response; otherwise the title scan of `resp.text or ""`; a title returned is always stripped |
| Tools.FetchUrlTitleAgreesWithoutDottedI | src/tools.py:32-54 | on a fetched text without U+0130, `FetchUrlTitle` returns what the scan as written returns |
| Llm.SelectProvider | src/llm.py:26-49 | the chosen provider is usable (SDK importable and its variable set), and no usable provider ranks before it in the order openai, gemini, ollama, fallback |
| Llm.LLMClient.constructor | src/llm.py:22-49 | the client gets the selected provider; its model is `OPENAI_MODEL` (default gpt-4o-mini), `GEMINI_MODEL` (default gemini-1.5-flash), `OLLAMA_MODEL` or "fallback"; its handle is the OpenAI client or the legacy module, the Gemini model of that name, or none |
| Llm.FallbackReport | src/llm.py:81-85 | the fallback report is the `[FALLBACK REPORT]` tag, the prompt cut to its first 4000 characters, and the fixed trailer |
| Llm.Generate | src/llm.py:51-85 | the fallback provider, a raised call, a non-ok Ollama status and an OpenAI reply with no content all give the fallback report; any other reply gives its stripped text, with a missing Gemini or Ollama text read as "" |
| Llm.LlmRegistry.constructor | src/llm.py:88 | the module starts with no client |
| Llm.LlmRegistry.GetLlm | src/llm.py:91-95 | the first call creates a client from the environment and stores it; later calls return the stored one |
| Llm.CallGetLlmTwice | src/llm.py:91-95 | two calls of `get_llm` return the same client, chosen from the environment of the first call |
| Queries.QueryList | src/langgraph_flow.py:30-36 | an empty base gives no query; otherwise five queries, each starting with the base |
| Queries.BaseVariants | src/langgraph_flow.py:30-36 | the appends build the base query and its linkedin, github, twitter and facebook variants, in that order |
| Queries.CollectParts | src/langgraph_flow.py:24-28 | the loop collects the stripped value of every field whose raw value is non-empty, in field order |
| Queries.PartsOf | src/langgraph_flow.py:24-28 | the keys give at most one part each |
| Queries.Part | src/langgraph_flow.py:26-28 | a field gives no part exactly when it is missing or empty |
| Queries.MakeQueries | src/langgraph_flow.py:23-39 | the result is the five queries for the stripped, space-joined base, or none for an empty base; the phone query never survives `[:5]` |
| Queries.PartsAllSpace | src/langgraph_flow.py:24-28 | every collected part is whitespace exactly when every identity field is missing or whitespace |
| Queries.NoQueriesIff | src/langgraph_flow.py:23-39 | no query is returned exactly when every identity field is missing, empty or whitespace; otherwise exactly five are |
| Queries.PartsOfFields | src/langgraph_flow.py:25-28 | the parts are those of first_name, last_name, surname and phone, in that order |
| Queries.TwoNamesBase | src/langgraph_flow.py:24-29 | trimmed first and last names and nothing else give the base "first last" |
| Queries.TwoNamesLinkedIn | src/langgraph_flow.py:29-33 | for those names the second query is "first last linkedin" |
| Queries.BlankMiddleParts | src/langgraph_flow.py:26-28 | a whitespace-only last_name adds an empty part between first_name and surname |
| Queries.BlankMiddleFieldDoublesSpace | src/langgraph_flow.py:26-29 | such a field leaves two spaces inside the base query |
| Search.Stream | src/langgraph_flow.py:45-47 | without the search library no result is visited |
| Search.SearchCandidates | src/langgraph_flow.py:42-58 | the nested loops return `Candidates` of the queries, with distinct, non-empty, stripped URLs |
| Search.UrlsOfFirsts | src/langgraph_flow.py:44-51 | the `seen` set ends as exactly the non-empty stripped links of all results |
| Search.FirstsAreFirstOccurrences | src/langgraph_flow.py:44-57 | the loop keeps exactly the first occurrence of every non-empty link, in visiting order |
| Search.FirstsWellFormed | src/langgraph_flow.py:48-51 | the kept candidates have distinct, non-empty, stripped URLs |
| Search.FirstsPrefix | src/langgraph_flow.py:44-57 | later results never displace or reorder candidates already kept |
| Search.StreamPrefix | src/langgraph_flow.py:45-47 | the results of earlier queries come first in the visiting order |
| Search.CandidatesPrefix | src/langgraph_flow.py:45-58 | searching more queries keeps the candidates of the earlier ones as a prefix |
| Search.NoLibraryNoCandidates | src/langgraph_flow.py:42-58 | without the search library there are no candidates |
| Flow.CollectDetails | src/langgraph_flow.py:61-67 | the details copy the candidate; the title changes only when the candidate had none and the fetched title is non-empty, and then it is that title |
| Flow.RunFlow | src/langgraph_flow.py:89-186 | the step-by-step update of the copied state returns exactly `Outcome`: the guards, then the routing cascade |
| Flow.Dispatch | src/langgraph_flow.py:123-186 | the branch on collect/report with a selection, the unselected branch and the keep branch give `Decide` |
| Flow.Choose | src/langgraph_flow.py:137-182 | with nothing selected: no candidates, no decision, yes, no (advance or broaden) and unknown tokens give `Decide` |
| FlowProperties.CollectDetailsIdempotent | src/langgraph_flow.py:61-67 | collecting details twice gives what collecting once gave |
| FlowProperties.PromptFraming | src/langgraph_flow.py:72-83 | the prompt opens with the fixed instructions, then the rendered inputs (`{}` when there are none), and closes with the fixed last line |
| FlowProperties.PromptEmbedsRecords | src/langgraph_flow.py:72-83 | after the header and the rendered inputs the prompt holds the labelled selected candidate and then the labelled collected details, each `{}` when missing |
| FlowProperties.PromptHeaderFits | src/langgraph_flow.py:76-78 | the instructions fit within the 4000 characters the fallback keeps |
| FlowProperties.FallbackReportQuotesPrompt | src/langgraph_flow.py:70-84 | with the fallback client the report is the fallback text of the prompt: non-empty, with the instructions right after the tag |
| FlowProperties.FallbackReportsNonEmpty | src/langgraph_flow.py:70-84 | with the fallback client every report is non-empty |
| FlowProperties.InputsReplacedOnlyWhenGiven | src/langgraph_flow.py:96-100 | new inputs replace the stored ones; absent inputs leave them as they were |
| FlowProperties.PlanSetOnce | src/langgraph_flow.py:103-110 | an existing plan is kept; a missing plan becomes the fixed five steps when there are inputs and stays missing otherwise |
| FlowProperties.DecideKeepsPlanAndQueries | src/langgraph_flow.py:119-186 | no branch touches the plan, the inputs or the stored queries |
| FlowProperties.SearchOnce | src/langgraph_flow.py:113-117 | the search runs only with inputs and no candidates; it stores the queries, the candidates found at `max_results=5` and index 0; otherwise the three entries pass unchanged |
| FlowProperties.PreparedIdempotent | src/langgraph_flow.py:96-117 | with the same search answers on both calls, running the guards again on their own result changes nothing |
| FlowProperties.SearchRunsAgainWhileEmpty | src/langgraph_flow.py:113-117 | when the first call found no candidates, the next call searches again for the same queries, storing what the search answers then and index 0 |
| FlowProperties.SecondCallKeepsQueries | src/langgraph_flow.py:113-117 | once candidates are stored, a later call keeps the stored queries |
| FlowProperties.NormalizeIgnoresPadding | src/langgraph_flow.py:148 | surrounding whitespace does not change how a decision is read |
| FlowProperties.NormalizeKeepsToken | src/langgraph_flow.py:148 | a trimmed lower-case token is read as written |
| FlowProperties.SelectionRequests | src/langgraph_flow.py:123-135 | with a selection: "collect" re-collects the details, keeps a truthy summary or else takes the title or "", returns no text and changes nothing else (the stored report included); "report" keeps existing details or else collects them from the selection, keeps the summary, returns and stores `_make_report` of the state with those details, and stops awaiting; any other decision only stops awaiting |
| FlowProperties.NoCandidatesOutcome | src/langgraph_flow.py:138-142 | nothing selected and no candidates: not awaiting, the fixed summary, no report |
| FlowProperties.NoDecisionAsks | src/langgraph_flow.py:143-146 | candidates and no decision: the call awaits the user and changes nothing else |
| FlowProperties.ConfirmOutcome | src/langgraph_flow.py:148-157 | a yes token raises exactly when the index is out of range; otherwise it selects `candidates[idx]`, stops awaiting, collects details, summarises by title or else URL, and returns and stores `_make_report` of that updated state; every other entry, candidates and index included, stays as it was |
| FlowProperties.RejectAdvances | src/langgraph_flow.py:158-163 | a no token with a next candidate moves the index to it and awaits the user |
| FlowProperties.RejectLastBroadens | src/langgraph_flow.py:164-178 | a no token on the last candidate runs one broadened search (stored queries plus profile and resume, `max_results=3`); results replace the candidates from index 0, no results end with the exhausted summary |
| FlowProperties.UnknownTokenAsksAgain | src/langgraph_flow.py:179-182 | any other token asks again and changes nothing else |
| FlowProperties.ReportTextOnlyWhenReporting | src/langgraph_flow.py:124-186 | report text is returned only by the report request and the yes token, and it is the stored report |
| FlowProperties.SelectionNeverReverted | src/langgraph_flow.py:96-186 | a stored selection survives every call unchanged, and such a call never raises |
| FlowProperties.RaisesOnlyOnBadIndex | src/langgraph_flow.py:119-186 | the routing cascade raises exactly on a yes token with an out-of-range index |
| FlowProperties.AwaitingUserSet | src/langgraph_flow.py:124-186 | every branch except "collect" sets `awaiting_user` |
| FlowProperties.AwaitingUserIff | src/langgraph_flow.py:137-186 | the call awaits the user exactly when it asks first, advances, asks again, or the broadened search found candidates |
| FlowProperties.PreparedWellFormed | src/langgraph_flow.py:113-117 | the guards keep stored candidates with distinct, non-empty, stripped URLs |
| FlowProperties.DecideWellFormed | src/langgraph_flow.py:166-175 | the routing cascade keeps stored candidates well formed, including after the broadened search |
| FlowProperties.CandidatesStayWellFormed | src/langgraph_flow.py:96-186 | stored candidates keep distinct, non-empty, stripped URLs through a call |
| FlowProperties.ScenarioPlanned | src/langgraph_flow.py:96-117 | a stored state with inputs and candidates gains only the plan before the routing cascade |
| FlowProperties.ConfirmYesScenario | src/langgraph_flow.py:96-157 | one titled candidate at index 0, resumed with "yes" and the fallback client: it is selected, not awaiting, summarised by its title, planned, with a non-empty stored report returned |
| FlowProperties.FirstCallScenario | src/langgraph_flow.py:96-146 | a first call with inputs plans, stores the queries and candidates found, and then reports that nothing was found or waits for the user on candidate 0 |
| FlowProperties.ResumeSkipsGuards | src/langgraph_flow.py:103-117 | resuming a planned state that holds candidates runs neither guard |
| FlowProperties.ResumeWithYes | src/langgraph_flow.py:148-157 | resuming with a yes token on an in-range index selects that candidate and returns the stored report |
| FlowProperties.AskThenConfirm | src/langgraph_flow.py:96-157 | resuming the first call's result with a yes token selects the first candidate found |
| FlowProperties.RejectThenConfirm | src/langgraph_flow.py:148-163 | a no token and then a yes token select the next candidate |

## Left out

- `src/app.py`, `src/db.py` and `src/db_models.py` (web routes, persistence) are not part of this model.
- The `StateGraph` built at `src/langgraph_flow.py:189-204` is left out: its nodes are identity functions, and `run_flow` does not use it.
- The network, the search library, the HTTP library and the LLM SDKs are parameters of `Services`, and so are the 8-second and 60-second timeouts and the `User-Agent` header. What they return is given, not computed.
- The OpenAI client's two call styles (lines 55-68 of `src/llm.py`) are one reply. A legacy module without `chat` raises, which is the `Raised` reply.
- Environment reads (`os.getenv`) become the `LlmEnv` record. The side effects `openai.api_key = ...` and `genai.configure(...)` are left out, because nothing in the core reads them back.
- `OLLAMA_HOST` is only used to build the request URL, so it is left out with the network.
- Gemini and Ollama ignore `max_tokens`. The model passes 900 to the reply function and nothing depends on it.
- `repr` of the inputs and of a candidate record is an opaque parameter. Python's dict formatting is left out.
- Input values are strings. `str(v)` on non-string values is left out.
- `str.lower` is modelled for ASCII and U+0130. The other non-ASCII case mappings are left out: among the single-character mappings, only U+0130 changes length under `str.lower`.
- Candidate and details records have exactly the four keys `_search_candidates` writes. A prior state holding other keys, or an empty dict as `selected` or `details`, is left out.
- A prior state of `None` and one of `{}` are the same value (`EmptyState`).
- Not mutating the caller's `prior_state` is automatic in a value model.
- Concurrency, and module-level state other than `_llm_singleton`, are left out.
- Inside the flow, `get_llm()` is the `provider` of `Services`. The singleton itself is modelled by `Llm.LlmRegistry`.
- `_make_report` calls `get_llm()` outside any `try` (`src/langgraph_flow.py:71`), so an SDK constructor that raises (`src/llm.py:30`, `38`, `40`) escapes `run_flow`. The model cannot express this, because the provider is a given field of `Services` and `Llm.LLMClient.constructor` never fails.
- Tools.FetchUrlTitle: it uses the corrected title scan `Tools.ExtractTitle` (see Findings), so `Flow.CollectDetails` and `Flow.RunFlow` use it too. The two scans can differ only on pages that contain U+0130; on every other page they agree (`Tools.FetchUrlTitleAgreesWithoutDottedI`).
- Queries.PartsOf: its own contract only bounds the number of parts. What the parts are is stated by `Queries.CollectParts`, `Queries.Part` and `Queries.PartsOfFields`.
- Search.Stream: its own contract only states emptiness without the library. The visiting order is stated by `Search.StreamPrefix` and `Search.SearchCandidates`.

## Findings

| source | as written | input that shows it | evidently intended | confidence | as-written member | corrected member |
|---|---|---|---|---|---|---|
| src/tools.py:43-52 | the positions of `<title` and `</title>` are searched in `text.lower()` and then used as positions in `text` | a page `İ<title>t</title>`: U+0130 lowers to two characters, so every later index is shifted by one | the title `t` | not executed | Tools.AsWrittenMisplacesTitle (on Tools.ExtractTitleAsWritten, which returns `t<`) | Tools.DottedPageTitle (on Tools.ExtractTitle, whose case-insensitive search keeps indices; `Tools.ExtractTitleSpan` states its meaning) |
