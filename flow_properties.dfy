/**
 * What `run_flow` promises across its branches and across calls: the plan is
 * set once and the search runs again only while no candidates are stored,
 * each branch's `awaiting_user`, summary and report text, and the resumable
 * confirm scenario.
 */
module FlowProperties {
  import opened Wrappers
  import opened PyStr
  import opened Tools
  import opened Llm
  import opened Queries
  import opened Search
  import opened Flow

  // ------------------------------------------------------------ enrichment

  /** Collecting details twice gives what collecting once gave. */
  lemma CollectDetailsIdempotent(c: Candidate, http: HttpBackend)
    ensures CollectDetails(CollectDetails(c, http), http) == CollectDetails(c, http)
  {
    var d := CollectDetails(c, http);
    assert d.url == c.url;
  }

  // ----------------------------------------------------------------- report

  lemma PrefixOfAppend<T>(a: seq<T>, b: seq<T>)
    ensures a <= a + b
  {
  }

  lemma FramedParts<T>(h: seq<T>, body: seq<T>, f: seq<T>)
    ensures h <= h + body + f
    ensures (h + body + f)[|h|..|h| + |body|] == body
    ensures (h + body + f)[|h + body + f| - |f|..] == f
  {
    assert (h + body + f)[..|h|] == h;
  }

  /** What is quoted whole between a tag and a trailer starts right after the tag. */
  lemma QuotedAfter<T>(pre: seq<T>, h: seq<T>, kept: seq<T>, post: seq<T>)
    requires h <= kept
    ensures pre + h <= pre + kept + post
  {
    assert (pre + kept + post)[..|pre + h|] == pre + kept[..|h|];
  }

  /** The records of the prompt open with the rendered inputs. */
  lemma RecordsOpenWithInputs(s: FlowState, svc: Services)
    ensures "Inputs: " + ShowInputs(s, svc) <= PromptRecords(s, svc)
  {
    PrefixOfAppend("Inputs: " + ShowInputs(s, svc),
      "\n\n" + "Selected candidate: " + ShowRecord(s.selected, svc)
      + "\n\n" + "Collected details: " + ShowRecord(s.details, svc) + "\n\n");
  }

  /**
   * The prompt opens with the fixed instructions followed by the rendered
   * inputs (`{}` when there are none) and closes with the fixed last line.
   */
  lemma PromptFraming(s: FlowState, svc: Services)
    ensures PromptHeader <= MakePrompt(s, svc)
    ensures "Inputs: " + ShowInputs(s, svc) <= MakePrompt(s, svc)[|PromptHeader|..]
    ensures var p := MakePrompt(s, svc); p[|p| - |PromptFooter|..] == PromptFooter
    ensures !HasInputs(s) ==> ShowInputs(s, svc) == "{}"
  {
    var body := PromptRecords(s, svc);
    FramedParts(PromptHeader, body, PromptFooter);
    RecordsOpenWithInputs(s, svc);
    var p := MakePrompt(s, svc);
    assert p[|PromptHeader|..][..|body|] == body;
  }

  /** Labelled records nested as the prompt nests them read in order from its start. */
  lemma NestedRecords<T>(h: seq<T>, inputs: seq<T>, gap: seq<T>, l1: seq<T>, r1: seq<T>,
                         l2: seq<T>, r2: seq<T>, f: seq<T>)
    ensures h + inputs + (gap + l1 + r1) + (gap + l2 + r2) <= h + (inputs + (gap + l1 + r1 + gap + l2 + r2 + gap)) + f
  {
    var front := h + inputs + (gap + l1 + r1) + (gap + l2 + r2);
    assert h + (inputs + (gap + l1 + r1 + gap + l2 + r2 + gap)) + f == front + (gap + f);
  }

  /**
   * After the rendered inputs the prompt embeds the selected candidate and
   * then the collected details (`{}` for either when it is missing), each
   * after its label.
   */
  lemma PromptEmbedsRecords(s: FlowState, svc: Services)
    ensures var inputs := "Inputs: " + ShowInputs(s, svc);
      var selected := "\n\n" + "Selected candidate: " + ShowRecord(s.selected, svc);
      var details := "\n\n" + "Collected details: " + ShowRecord(s.details, svc);
      PromptHeader + inputs + selected + details <= MakePrompt(s, svc)
    ensures s.selected.None? ==> ShowRecord(s.selected, svc) == "{}"
    ensures s.details.None? ==> ShowRecord(s.details, svc) == "{}"
  {
    NestedRecords(PromptHeader, "Inputs: " + ShowInputs(s, svc), "\n\n",
      "Selected candidate: ", ShowRecord(s.selected, svc),
      "Collected details: ", ShowRecord(s.details, svc), PromptFooter);
  }

  /** The instructions fit in the 4000 characters the fallback keeps. */
  lemma PromptHeaderFits()
    ensures |PromptHeader| <= FallbackPromptLimit
  {
  }

  /**
   * With the fallback client the report is the fallback text of the prompt:
   * never empty, and quoting the prompt's instructions right after its tag.
   */
  lemma FallbackReportQuotesPrompt(s: FlowState, svc: Services)
    requires svc.provider == Fallback
    ensures MakeReport(s, svc) == FallbackReport(MakePrompt(s, svc))
    ensures MakeReport(s, svc) != ""
    ensures FallbackPrefix + PromptHeader <= MakeReport(s, svc)
  {
    var p := MakePrompt(s, svc);
    PromptFraming(s, svc);
    PromptHeaderFits();
    var kept := Take(p, FallbackPromptLimit);
    assert PromptHeader <= kept;
    QuotedAfter(FallbackPrefix, PromptHeader, kept, FallbackTrailer);
  }

  // ----------------------------------------------------------------- guards

  /** New inputs replace the stored inputs; absent inputs leave them as they were. */
  lemma InputsReplacedOnlyWhenGiven(inputs: Option<map<string, string>>, prior: Option<FlowState>,
                                    decision: Option<string>, svc: Services)
    ensures var r := Outcome(inputs, prior, decision, svc);
      r.Returned? ==> r.state.inputs == (if inputs.Some? then inputs else prior.GetOr(EmptyState).inputs)
  {
    var st := Prepared(inputs, prior, svc);
    assert st.inputs == (if inputs.Some? then inputs else prior.GetOr(EmptyState).inputs);
    DecideKeepsPlanAndQueries(st, decision, svc);
  }

  /** The plan is the fixed five steps once there are inputs, and an existing plan is never replaced. */
  lemma PlanSetOnce(inputs: Option<map<string, string>>, prior: Option<FlowState>,
                    decision: Option<string>, svc: Services)
    ensures var p := WithInputs(prior.GetOr(EmptyState), inputs);
      var r := Outcome(inputs, prior, decision, svc);
      && (r.Returned? && HasPlan(p) ==> r.state.plan == p.plan)
      && (r.Returned? && !HasPlan(p) && HasInputs(p) ==> r.state.plan == Some(PlanSteps))
      && (r.Returned? && !HasPlan(p) && !HasInputs(p) ==> r.state.plan == p.plan)
  {
    var st := Prepared(inputs, prior, svc);
    var r := Outcome(inputs, prior, decision, svc);
    DecideKeepsPlanAndQueries(st, decision, svc);
  }

  /** The routing cascade never touches the plan, the inputs or the stored queries. */
  lemma DecideKeepsPlanAndQueries(s: FlowState, decision: Option<string>, svc: Services)
    ensures var r := Decide(s, decision, svc);
      r.Returned? ==> r.state.plan == s.plan && r.state.inputs == s.inputs && r.state.queries == s.queries
  {
    match RouteOf(s, decision)
    case CollectAgain =>
    case ReportNow =>
    case Confirm =>
    case Broaden =>
    case _ =>
  }

  /**
   * The search runs only when there are inputs and no candidates; it stores the
   * queries of `_make_queries`, the candidates found with `max_results=5`, and
   * index 0. Otherwise those three entries pass through the guards unchanged.
   */
  lemma SearchOnce(inputs: Option<map<string, string>>, prior: Option<FlowState>, svc: Services)
    ensures var p := PlanGuard(WithInputs(prior.GetOr(EmptyState), inputs));
      var st := Prepared(inputs, prior, svc);
      && (HasCandidates(p) || !HasInputs(p) ==>
            st.queries == p.queries && st.candidates == p.candidates && st.currentIndex == p.currentIndex)
      && (!HasCandidates(p) && HasInputs(p) ==>
            && st.queries == Some(QueryList(Base(p.inputs.value)))
            && st.candidates == Some(Candidates(svc.search, QueryList(Base(p.inputs.value)), SearchLimit))
            && st.currentIndex == Some(0))
  {
  }

  /**
   * Running the guards again on their own result changes nothing, as long as
   * the search answers the same queries the same way on both calls: a later
   * call neither re-plans nor re-searches differently.
   */
  lemma PreparedIdempotent(inputs: Option<map<string, string>>, prior: Option<FlowState>, svc: Services)
    ensures Prepared(None, Some(Prepared(inputs, prior, svc)), svc) == Prepared(inputs, prior, svc)
  {
    var p1 := WithInputs(prior.GetOr(EmptyState), inputs);
    var p2 := PlanGuard(p1);
    var p3 := SearchGuard(p2, svc);
    assert HasInputs(p3) ==> HasPlan(p3);
    assert PlanGuard(p3) == p3;
    if !HasCandidates(p3) && HasInputs(p3) {
      assert !HasCandidates(p2);
      assert p3.inputs == p2.inputs;
    }
  }

  /** With candidates already found, a later call keeps the stored queries and the plan. */
  lemma SecondCallKeepsQueries(inputs: Option<map<string, string>>, prior: Option<FlowState>,
                               decision: Option<string>, svc: Services)
    requires prior.Some? && HasCandidates(prior.value)
    ensures var r := Outcome(inputs, prior, decision, svc);
      r.Returned? ==> r.state.queries == prior.value.queries
  {
    var st := Prepared(inputs, prior, svc);
    assert st.queries == prior.value.queries;
    DecideKeepsPlanAndQueries(st, decision, svc);
  }

  // -------------------------------------------------------------- decisions

  /** A decision token is read after stripping, so surrounding whitespace does not matter. */
  lemma NormalizeIgnoresPadding(a: string, t: string, b: string)
    requires AllSpace(a) && AllSpace(b)
    ensures Normalize(a + t + b) == Normalize(t)
  {
    StripIgnoresPadding(a, t, b);
  }

  /** A trimmed lower-case token normalises to itself, so "yes", "no", "next" and the rest are read as written. */
  lemma NormalizeKeepsToken(t: string)
    requires Trimmed(t)
    requires forall i :: 0 <= i < |t| ==> !('A' <= t[i] <= 'Z') && t[i] != DottedCapitalI
    ensures Normalize(t) == t
  {
    StripKeepsTrimmed(t);
    PyLowerKeepsIndices(t);
    FoldCaseNoCapitals(t);
  }

  lemma NormalizeYes()
    ensures Normalize("yes") == "yes"
  {
    NormalizeKeepsToken("yes");
  }

  // --------------------------------------------------------------- branches

  /**
   * "collect" or "report" with a selection returns before any decision
   * processing; only "report" returns text, the report made from the state
   * as it stood before the report and `awaiting_user` entries were written.
   */
  lemma SelectionRequests(s: FlowState, decision: Option<string>, svc: Services)
    requires HasSelected(s)
    ensures var r := Decide(s, decision, svc);
      && r.Returned?
      && r.state.selected == s.selected
      && r.state.candidates == s.candidates && r.state.currentIndex == s.currentIndex
      && (decision == Some("collect") ==>
            r.reportText == None && r.state.awaitingUser == s.awaitingUser
            && r.state.details == Some(CollectDetails(s.selected.value, svc.http))
            && r.state.summary == Some(CollectSummary(s, s.selected.value))
            && r.state == s.(details := Some(CollectDetails(s.selected.value, svc.http)),
                             summary := Some(CollectSummary(s, s.selected.value))))
      && (decision == Some("report") ==>
            r.reportText.Some? && r.state.report == r.reportText && r.state.awaitingUser == Some(false)
            && r.state.details.Some? && r.state.summary == s.summary
            && (HasDetails(s) ==> r.state.details == s.details)
            && (!HasDetails(s) ==> r.state.details == Some(CollectDetails(s.selected.value, svc.http)))
            && r.reportText == Some(MakeReport(r.state.(report := s.report, awaitingUser := s.awaitingUser), svc)))
      && (decision != Some("collect") && decision != Some("report") ==>
            r.reportText == None && r.state == s.(awaitingUser := Some(false)))
  {
  }

  /** Nothing selected and no candidates: not awaiting the user, the fixed summary, no report. */
  lemma NoCandidatesOutcome(s: FlowState, decision: Option<string>, svc: Services)
    requires !HasSelected(s) && !HasCandidates(s)
    ensures var r := Decide(s, decision, svc);
      r == Returned(s.(awaitingUser := Some(false), summary := Some(NoCandidatesMessage)), None)
  {
    assert CandidateList(s) == [];
  }

  /** Candidates but no decision: the call pauses, awaiting the user, with no report. */
  lemma NoDecisionAsks(s: FlowState, decision: Option<string>, svc: Services)
    requires !HasSelected(s) && HasCandidates(s) && !Truthy(decision)
    ensures var r := Decide(s, decision, svc);
      r.Returned? && r.reportText == None && r.state == s.(awaitingUser := Some(true))
  {
  }

  /**
   * A yes token selects `candidates[current_index]` (Python indexing, raising
   * out of range), stops awaiting, summarises by title or else URL, and
   * returns the report it stores, made from the updated state before the
   * report entry was written.
   */
  lemma ConfirmOutcome(s: FlowState, decision: Option<string>, svc: Services)
    requires !HasSelected(s) && HasCandidates(s) && Truthy(decision) && IsYes(Normalize(decision.value))
    ensures var r := Decide(s, decision, svc);
      var cs := s.candidates.value;
      && (r == IndexOutOfRange <==> !(-|cs| <= Index(s) < |cs|))
      && (r.Returned? ==>
            && r.state.selected == PyIndex(cs, Index(s))
            && r.state.awaitingUser == Some(false)
            && r.state.summary == Some(TitleOrUrl(r.state.selected.value))
            && r.state.details == Some(CollectDetails(r.state.selected.value, svc.http))
            && r.reportText.Some? && r.state.report == r.reportText
            && r.reportText == Some(MakeReport(r.state.(report := s.report), svc))
            && r.state == s.(selected := r.state.selected, awaitingUser := Some(false),
                             details := r.state.details, summary := r.state.summary, report := r.reportText))
  {
    assert RouteOf(s, decision) == Confirm;
  }

  /** A no token with a next candidate moves to it and keeps awaiting the user. */
  lemma RejectAdvances(s: FlowState, decision: Option<string>, svc: Services)
    requires !HasSelected(s) && HasCandidates(s) && Truthy(decision)
    requires IsNo(Normalize(decision.value)) && Index(s) + 1 < |s.candidates.value|
    ensures var r := Decide(s, decision, svc);
      r == Returned(s.(currentIndex := Some(Index(s) + 1), awaitingUser := Some(true)), None)
  {
    assert !IsYes(Normalize(decision.value));
  }

  /**
   * A no token on the last candidate runs exactly one broadened search (the
   * stored queries plus "profile" and "resume", at `max_results=3`); new
   * results replace the candidates from index 0, none end the search.
   */
  lemma RejectLastBroadens(s: FlowState, decision: Option<string>, svc: Services)
    requires !HasSelected(s) && HasCandidates(s) && Truthy(decision)
    requires IsNo(Normalize(decision.value)) && Index(s) + 1 >= |s.candidates.value|
    ensures var r := Decide(s, decision, svc);
      var found := Candidates(svc.search, s.queries.GetOr([]) + [FullName(s) + " profile", FullName(s) + " resume"], 3);
      && r.Returned? && r.reportText == None && r.state.selected == None
      && (found != [] ==> r.state == s.(candidates := Some(found), currentIndex := Some(0), awaitingUser := Some(true)))
      && (found == [] ==> r.state == s.(awaitingUser := Some(false), summary := Some(ExhaustedMessage)))
  {
    assert !IsYes(Normalize(decision.value));
  }

  /** Any other token asks again, with nothing selected. */
  lemma UnknownTokenAsksAgain(s: FlowState, decision: Option<string>, svc: Services)
    requires !HasSelected(s) && HasCandidates(s) && Truthy(decision)
    requires !IsYes(Normalize(decision.value)) && !IsNo(Normalize(decision.value))
    ensures var r := Decide(s, decision, svc);
      r == Returned(s.(awaitingUser := Some(true)), None)
  {
  }

  // ----------------------------------------------------------- across branches

  /** Report text comes back only from the "report" request and the yes token, and it is the stored report. */
  lemma ReportTextOnlyWhenReporting(s: FlowState, decision: Option<string>, svc: Services)
    ensures var r := Decide(s, decision, svc);
      r.Returned? && r.reportText.Some? ==>
        && r.state.report == r.reportText
        && (RouteOf(s, decision) == ReportNow || RouteOf(s, decision) == Confirm)
  {
  }

  /** A selection, once made, is never replaced or cleared. */
  lemma SelectionNeverReverted(inputs: Option<map<string, string>>, prior: Option<FlowState>,
                               decision: Option<string>, svc: Services)
    requires prior.Some? && HasSelected(prior.value)
    ensures var r := Outcome(inputs, prior, decision, svc);
      r.Returned? && r.state.selected == prior.value.selected
  {
    var st := Prepared(inputs, prior, svc);
    assert st.selected == prior.value.selected;
    SelectionRequests(st, decision, svc);
  }

  /** Only a yes token raises, and only when the current index is out of range. */
  lemma RaisesOnlyOnBadIndex(s: FlowState, decision: Option<string>, svc: Services)
    ensures Decide(s, decision, svc) == IndexOutOfRange <==>
      RouteOf(s, decision) == Confirm && !(-|CandidateList(s)| <= Index(s) < |CandidateList(s)|)
  {
  }

  /** Every branch but the "collect" request leaves `awaiting_user` set. */
  lemma AwaitingUserSet(s: FlowState, decision: Option<string>, svc: Services)
    ensures var r := Decide(s, decision, svc);
      r.Returned? && RouteOf(s, decision) != CollectAgain ==> r.state.awaitingUser.Some?
  {
  }

  /** The call awaits the user exactly on the branches that leave a candidate to confirm. */
  lemma AwaitingUserIff(s: FlowState, decision: Option<string>, svc: Services)
    ensures var r := Decide(s, decision, svc);
      var route := RouteOf(s, decision);
      r.Returned? && route != CollectAgain ==>
        (r.state.awaitingUser == Some(true) <==>
         || route == AskFirst || route == Advance || route == AskAgain
         || (route == Broaden && Candidates(svc.search, Broadened(s), RetryLimit) != []))
  {
  }

  /** Every stored candidate list has distinct, non-empty, stripped URLs. */
  predicate WellFormedCandidates(s: FlowState) {
    s.candidates.Some? ==> DistinctUrls(s.candidates.value) && CleanUrls(s.candidates.value)
  }

  /** The guards keep the stored candidates well formed: a fresh search gives well-formed ones. */
  lemma PreparedWellFormed(inputs: Option<map<string, string>>, prior: Option<FlowState>, svc: Services)
    requires WellFormedCandidates(prior.GetOr(EmptyState))
    ensures WellFormedCandidates(Prepared(inputs, prior, svc))
  {
    var p := PlanGuard(WithInputs(prior.GetOr(EmptyState), inputs));
    if !HasCandidates(p) && HasInputs(p) {
      FirstsWellFormed(Stream(svc.search, QueryList(Base(p.inputs.value)), SearchLimit));
    }
  }

  /** The routing cascade keeps the stored candidates well formed: the broadened retry gives well-formed ones. */
  lemma DecideWellFormed(s: FlowState, decision: Option<string>, svc: Services)
    requires WellFormedCandidates(s)
    ensures var r := Decide(s, decision, svc);
      r.Returned? ==> WellFormedCandidates(r.state)
  {
    match RouteOf(s, decision)
    case Broaden =>
      FirstsWellFormed(Stream(svc.search, Broadened(s), RetryLimit));
    case CollectAgain =>
    case ReportNow =>
    case Confirm =>
    case _ =>
  }

  /** Stored candidates keep distinct, non-empty, stripped URLs through a call. */
  lemma CandidatesStayWellFormed(inputs: Option<map<string, string>>, prior: Option<FlowState>,
                                 decision: Option<string>, svc: Services)
    requires WellFormedCandidates(prior.GetOr(EmptyState))
    ensures var r := Outcome(inputs, prior, decision, svc);
      r.Returned? ==> WellFormedCandidates(r.state)
  {
    PreparedWellFormed(inputs, prior, svc);
    DecideWellFormed(Prepared(inputs, prior, svc), decision, svc);
  }

  // -------------------------------------------------------------- scenarios

  /**
   * The confirm scenario: a stored state with inputs, one titled candidate and
   * index 0, resumed with "yes", selects that candidate, stops awaiting the
   * user, summarises it by its title and stores a non-empty report (here from
   * the fallback client).
   */
  lemma ConfirmYesScenario(m: map<string, string>, c: Candidate, svc: Services)
    requires |m| > 0 && Truthy(c.title) && svc.provider == Fallback
    ensures var prior := EmptyState.(inputs := Some(m), candidates := Some([c]), currentIndex := Some(0));
      var r := Outcome(None, Some(prior), Some("yes"), svc);
      && r.Returned?
      && r.state.selected == Some(c)
      && r.state.awaitingUser == Some(false)
      && r.state.summary == Some(c.title.value)
      && r.state.plan == Some(PlanSteps)
      && r.state.report.Some? && |r.state.report.value| > 0
      && r.reportText == r.state.report
  {
    var prior := EmptyState.(inputs := Some(m), candidates := Some([c]), currentIndex := Some(0));
    var st := prior.(plan := Some(PlanSteps));
    ScenarioPlanned(m, c, Some("yes"), svc);
    NormalizeYes();
    ConfirmOutcome(st, Some("yes"), svc);
    assert PyIndex([c], 0) == Some(c);
    FallbackReportsNonEmpty(svc);
  }

  /** The scenario's prior state gains the plan and nothing else before the cascade. */
  lemma ScenarioPlanned(m: map<string, string>, c: Candidate, decision: Option<string>, svc: Services)
    requires |m| > 0
    ensures var prior := EmptyState.(inputs := Some(m), candidates := Some([c]), currentIndex := Some(0));
      Outcome(None, Some(prior), decision, svc) == Decide(prior.(plan := Some(PlanSteps)), decision, svc)
  {
    var prior := EmptyState.(inputs := Some(m), candidates := Some([c]), currentIndex := Some(0));
    assert Prepared(None, Some(prior), svc) == prior.(plan := Some(PlanSteps));
  }

  /** With the fallback client every report has text. */
  lemma FallbackReportsNonEmpty(svc: Services)
    requires svc.provider == Fallback
    ensures forall s :: MakeReport(s, svc) != ""
  {
    forall s ensures MakeReport(s, svc) != "" {
      FallbackReportQuotesPrompt(s, svc);
    }
  }

  /**
   * The first call with non-empty inputs plans, stores the queries of
   * `_make_queries` and the candidates they find, and then either reports
   * that nothing was found or waits for the user on candidate 0.
   */
  lemma FirstCallScenario(m: map<string, string>, svc: Services)
    requires |m| > 0
    ensures var r := Outcome(Some(m), None, None, svc);
      var qs := QueryList(Base(m));
      var found := Candidates(svc.search, qs, SearchLimit);
      && r.Returned? && r.reportText == None
      && r.state.plan == Some(PlanSteps)
      && r.state.queries == Some(qs)
      && r.state.candidates == Some(found)
      && r.state.currentIndex == Some(0)
      && r.state.selected == None
      && (found == [] ==> r.state.awaitingUser == Some(false) && r.state.summary == Some(NoCandidatesMessage))
      && (found != [] ==> r.state.awaitingUser == Some(true) && r.state.summary == None)
  {
    var st := Prepared(Some(m), None, svc);
    var qs := QueryList(Base(m));
    var found := Candidates(svc.search, qs, SearchLimit);
    assert st == EmptyState.(inputs := Some(m), plan := Some(PlanSteps), queries := Some(qs),
      candidates := Some(found), currentIndex := Some(0));
    assert Outcome(Some(m), None, None, svc) == Decide(st, None, svc);
    if found == [] {
      NoCandidatesOutcome(st, None, svc);
    } else {
      NoDecisionAsks(st, None, svc);
    }
  }

  /**
   * While no candidates are stored the search guard runs again: a call that
   * resumes a first call which found nothing searches anew, with whatever the
   * search answers this time.
   */
  lemma SearchRunsAgainWhileEmpty(m: map<string, string>, svc: Services, later: Services)
    requires |m| > 0 && Candidates(svc.search, QueryList(Base(m)), SearchLimit) == []
    ensures Outcome(Some(m), None, None, svc).Returned?
    ensures var again := Prepared(None, Some(Outcome(Some(m), None, None, svc).state), later);
      && again.queries == Some(QueryList(Base(m)))
      && again.candidates == Some(Candidates(later.search, QueryList(Base(m)), SearchLimit))
      && again.currentIndex == Some(0)
  {
    FirstCallScenario(m, svc);
  }

  /** Resuming a planned state that holds candidates runs neither guard. */
  lemma ResumeSkipsGuards(s: FlowState, decision: Option<string>, svc: Services)
    requires HasPlan(s) && HasCandidates(s)
    ensures Prepared(None, Some(s), svc) == s
    ensures Outcome(None, Some(s), decision, svc) == Decide(s, decision, svc)
  {
  }

  /** Resuming with a yes token a state that awaits confirmation of an in-range candidate selects it. */
  lemma ResumeWithYes(s: FlowState, yes: string, svc: Services)
    requires HasPlan(s) && HasCandidates(s) && !HasSelected(s)
    requires 0 <= Index(s) < |s.candidates.value|
    requires IsYes(Normalize(yes))
    ensures var r := Outcome(None, Some(s), Some(yes), svc);
      && r.Returned? && r.state.selected == Some(s.candidates.value[Index(s)])
      && r.state.awaitingUser == Some(false)
      && r.reportText.Some? && r.reportText == r.state.report
  {
    ResumeSkipsGuards(s, Some(yes), svc);
    ConfirmOutcome(s, Some(yes), svc);
  }

  /** Resuming the first call's result with a yes token ("yes", " Y ", "MATCH", ...) selects the first candidate found. */
  lemma AskThenConfirm(m: map<string, string>, yes: string, svc: Services)
    requires |m| > 0 && Candidates(svc.search, QueryList(Base(m)), SearchLimit) != []
    requires IsYes(Normalize(yes))
    ensures Outcome(Some(m), None, None, svc).Returned?
    ensures var r2 := Outcome(None, Some(Outcome(Some(m), None, None, svc).state), Some(yes), svc);
      && r2.Returned?
      && r2.state.selected == Some(Candidates(svc.search, QueryList(Base(m)), SearchLimit)[0])
      && r2.state.awaitingUser == Some(false)
      && r2.reportText.Some? && r2.reportText == r2.state.report
  {
    FirstCallScenario(m, svc);
    var r1 := Outcome(Some(m), None, None, svc);
    ResumeWithYes(r1.state, yes, svc);
  }

  /** Rejecting candidate i with a no token and then confirming with a yes token selects candidate i + 1. */
  lemma RejectThenConfirm(s: FlowState, i: nat, no: string, yes: string, svc: Services)
    requires HasInputs(s) && HasPlan(s) && HasCandidates(s) && !HasSelected(s)
    requires s.currentIndex == Some(i) && i + 1 < |s.candidates.value|
    requires IsNo(Normalize(no)) && IsYes(Normalize(yes))
    ensures var r1 := Outcome(None, Some(s), Some(no), svc);
      r1.Returned? && r1.state.currentIndex == Some(i + 1) && r1.state.awaitingUser == Some(true)
    ensures var r2 := Outcome(None, Some(Outcome(None, Some(s), Some(no), svc).state), Some(yes), svc);
      r2.Returned? && r2.state.selected == Some(s.candidates.value[i + 1])
  {
    ResumeSkipsGuards(s, Some(no), svc);
    RejectAdvances(s, Some(no), svc);
    var s1 := s.(currentIndex := Some(i + 1), awaitingUser := Some(true));
    assert Outcome(None, Some(s), Some(no), svc) == Returned(s1, None);
    ResumeWithYes(s1, yes, svc);
  }
}
