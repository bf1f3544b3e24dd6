/** The client-name case lookup: the name is normalised, OPEN cases are searched
    and scored against it, and the outcome is to proceed with a single case, to
    ask for clarification among several, or to fall back to CLOSED cases. The
    backend search and `difflib.SequenceMatcher.ratio` are parameters. */
module CaseLookup {
  import opened Wrappers
  import opened Text
  import opened Json
  import opened Ranking

  /** A search hit. `clientEmail` and `clientPhone` are what `case.get(...)`
      returns (`Null` when absent). */
  datatype Case = Case(caseId: string, clientName: string, clientEmail: Value, clientPhone: Value)

  /** A case annotated with its `similarity_score`. */
  type ScoredCase = Scored<Case>

  /** The facts about `SequenceMatcher.ratio` the lookup relies on: it lies in
      [0, 1] and reaches 1 only on equal strings. */
  ghost predicate RatioSpec(ratio: (string, string) -> real) {
    forall a, b :: 0.0 <= ratio(a, b) <= 1.0 && (ratio(a, b) == 1.0 ==> a == b)
  }

  // ---------------------------------------------------------------------------
  // Normalisation and similarity
  // ---------------------------------------------------------------------------

  /** `_normalize_name`: strip, collapse whitespace runs to one space, title-case. */
  function NormalizeName(name: string): (r: string)
    ensures |r| > 0 ==> !IsSpace(r[0]) && !IsSpace(r[|r| - 1])
    ensures SingleSpaced(r)
    ensures IsTitled(r)
    ensures r == [] <==> !NonBlank(name)
    ensures Lower(r) == Lower(Collapse(Strip(name)))
  {
    NormalizedShape(name);
    Title(Collapse(Strip(name)))
  }

  /** The shape facts behind `NormalizeName`'s contract. */
  lemma NormalizedShape(name: string)
    ensures var t := Title(Collapse(Strip(name)));
      && (|t| > 0 ==> !IsSpace(t[0]) && !IsSpace(t[|t| - 1]))
      && SingleSpaced(t) && IsTitled(t)
      && (t == [] <==> !NonBlank(name))
      && Lower(t) == Lower(Collapse(Strip(name)))
  {
    var s := Strip(name);
    var c := Collapse(s);
    CollapseShape(s);
    TitleKeepsSpaces(c);
    TitleIsTitled(c);
    LowerTitleFrom(c, false);
  }

  /** Normalising a normalised name changes nothing. */
  lemma NormalizeNameIdempotent(name: string)
    ensures NormalizeName(NormalizeName(name)) == NormalizeName(name)
  {
    var n := NormalizeName(name);
    StripUnpadded(n);
    CollapseFixed(n);
    TitleFromFixed(n, false);
  }

  /** The comparison key: `name.lower().strip()`. */
  function Key(name: string): string {
    Strip(Lower(name))
  }

  /** `_calculate_name_similarity` */
  function Similarity(ratio: (string, string) -> real, searchName: string, caseName: string): (s: real)
    ensures var a, b := Key(searchName), Key(caseName);
      && (a == b ==> s == 1.0)
      && (a != b && (Contains(b, a) || Contains(a, b)) ==> s == 0.9)
      && (a != b && !Contains(b, a) && !Contains(a, b) ==> s == ratio(a, b))
  {
    var a, b := Key(searchName), Key(caseName);
    if a == b then 1.0
    else if Contains(b, a) || Contains(a, b) then 0.9
    else ratio(a, b)
  }

  /** With a well-behaved ratio the score lies in [0, 1] and is 1 exactly on
      names equal up to case and outer whitespace. */
  lemma SimilarityBounds(ratio: (string, string) -> real, searchName: string, caseName: string)
    requires RatioSpec(ratio)
    ensures 0.0 <= Similarity(ratio, searchName, caseName) <= 1.0
    ensures Similarity(ratio, searchName, caseName) == 1.0 <==> Key(searchName) == Key(caseName)
  {
    var a, b := Key(searchName), Key(caseName);
    assert 0.0 <= ratio(a, b) <= 1.0 && (ratio(a, b) == 1.0 ==> a == b);
  }

  /** The empty search string is contained in every name. */
  lemma EmptySearchSimilarity(ratio: (string, string) -> real, caseName: string)
    ensures Similarity(ratio, "", caseName) >= 0.9
  {
    assert Key("") == [];
    assert StartsWith(Key(caseName), []);
  }

  // ---------------------------------------------------------------------------
  // Clarification strategy
  // ---------------------------------------------------------------------------

  const NameQuestions := ["What is the client's full name?", "What is their last name?", "Do you have their email or phone number?"]
  const ContactQuestions := ["What is their email address?", "What is their phone number?", "What is their full name?"]
  const GenericQuestions := ["What is their full name?", "Do you have their contact information?", "When was this case created approximately?"]

  datatype Strategy = Strategy(message: string, questions: seq<string>)

  lemma QuestionSetsDistinct()
    ensures NameQuestions != ContactQuestions && NameQuestions != GenericQuestions && ContactQuestions != GenericQuestions
  {
    assert NameQuestions[0][11] != ContactQuestions[0][11];
    assert NameQuestions[0][11] != GenericQuestions[0][11];
    assert ContactQuestions[0][14] != GenericQuestions[0][14];
  }

  /** The number of matches whose recomputed similarity exceeds 0.7. */
  function SimilarCount(ratio: (string, string) -> real, searchName: string, matches: seq<ScoredCase>): (n: nat)
    ensures n <= |matches|
  {
    if |matches| == 0 then 0
    else (if Similarity(ratio, searchName, matches[0].c.clientName) > 0.7 then 1 else 0)
         + SimilarCount(ratio, searchName, matches[1..])
  }

  predicate AnyEmail(matches: seq<ScoredCase>) {
    exists i :: 0 <= i < |matches| && matches[i].c.clientEmail.Truthy()
  }

  predicate AnyPhone(matches: seq<ScoredCase>) {
    exists i :: 0 <= i < |matches| && matches[i].c.clientPhone.Truthy()
  }

  /** `_generate_clarification_strategy` over all the scored matches. */
  function ClarificationStrategy(ratio: (string, string) -> real, searchName: string, matches: seq<ScoredCase>): (st: Strategy)
    ensures |st.questions| == 3
    ensures st.questions == NameQuestions <==> SimilarCount(ratio, searchName, matches) > 1
    ensures st.questions == ContactQuestions <==>
      SimilarCount(ratio, searchName, matches) <= 1 && AnyEmail(matches) && AnyPhone(matches)
    ensures st.questions == GenericQuestions <==>
      SimilarCount(ratio, searchName, matches) <= 1 && !(AnyEmail(matches) && AnyPhone(matches))
    ensures StartsWith(st.message, "I found " + NatToString(|matches|) + " ")
  {
    var count := "I found " + NatToString(|matches|) + " ";
    QuestionSetsDistinct();
    var similar := SimilarCount(ratio, searchName, matches) > 1;
    var contact := AnyPhone(matches) && AnyEmail(matches);
    var tail :=
      if similar then
        "clients with similar names to '" + searchName
        + "'. Could you provide the full name or last name to help me identify the correct case?"
      else if contact then
        "clients named '" + searchName + "'. Could you provide additional information to identify the correct case?"
      else
        "cases that could match '" + searchName + "'. Could you provide more details to help identify the correct case?";
    var questions := if similar then NameQuestions else if contact then ContactQuestions else GenericQuestions;
    assert (count + tail)[..|count|] == count;
    Strategy(count + tail, questions)
  }

  // ---------------------------------------------------------------------------
  // Confidence analysis
  // ---------------------------------------------------------------------------

  datatype Analysis =
    | NoMatches
    | Proceed(confidence: nat, c: Case)
    | Clarify(matches: seq<ScoredCase>, message: string, questions: seq<string>)
  {
    function Confidence(): nat {
      match this
      case NoMatches => 0
      case Proceed(confidence, _) => confidence
      case Clarify(_, _, _) => 40
    }
  }

  /** The discrete confidence for a single hit with similarity `s`. */
  function SingleConfidence(s: real): (confidence: nat)
    ensures confidence in {100, 85, 70}
    ensures confidence == 100 <==> s >= 0.9
    ensures confidence == 85 <==> 0.7 <= s < 0.9
    ensures confidence == 70 <==> s < 0.7
  {
    if s >= 0.9 then 100 else if s >= 0.7 then 85 else 70
  }

  /** The score a case gets against the search name. */
  function CaseScore(ratio: (string, string) -> real, searchName: string): (f: Case -> real)
    ensures forall c :: f(c) == Similarity(ratio, searchName, c.clientName)
  {
    (c: Case) => Similarity(ratio, searchName, c.clientName)
  }

  /** All hits ranked by descending similarity; equal scores keep the search order. */
  function Ranked(ratio: (string, string) -> real, searchName: string, cases: seq<Case>): (ranked: seq<ScoredCase>)
    ensures |ranked| == |cases|
    ensures SortedByScore(ranked)
    ensures multiset(ranked) == multiset(Annotate(CaseScore(ratio, searchName), cases))
  {
    RankByScore(Annotate(CaseScore(ratio, searchName), cases))
  }

  /** Every ranked entry is one of the hits, carrying its own similarity. */
  lemma RankedEntries(ratio: (string, string) -> real, searchName: string, cases: seq<Case>)
    ensures var ranked := Ranked(ratio, searchName, cases);
      forall i :: 0 <= i < |ranked| ==>
        ranked[i].score == Similarity(ratio, searchName, ranked[i].c.clientName) && ranked[i].c in cases
  {
    var ranked := Ranked(ratio, searchName, cases);
    RankedAnnotations(CaseScore(ratio, searchName), cases);
    assert forall i :: 0 <= i < |ranked| ==> ranked[i] in ranked;
  }

  /** The top five of the ranked hits. */
  function TopMatches(ranked: seq<ScoredCase>): (top: seq<ScoredCase>)
    ensures |top| == (if |ranked| < 5 then |ranked| else 5)
    ensures top == ranked[..|top|]
    ensures SortedByScore(ranked) ==> SortedByScore(top)
  {
    ranked[..if |ranked| < 5 then |ranked| else 5]
  }

  /** `_analyze_confidence` */
  function AnalyzeConfidence(ratio: (string, string) -> real, searchName: string, cases: seq<Case>): (r: Analysis)
    ensures r.NoMatches? <==> |cases| == 0
    ensures r.Proceed? <==> |cases| == 1
    ensures r.Clarify? <==> |cases| >= 2
    ensures r.NoMatches? ==> r.Confidence() == 0
    ensures r.Proceed? ==>
      r.c == cases[0] && r.confidence == SingleConfidence(Similarity(ratio, searchName, cases[0].clientName))
    ensures r.Clarify? ==>
      && r.Confidence() == 40
      && r.matches == TopMatches(Ranked(ratio, searchName, cases))
      && var strategy := ClarificationStrategy(ratio, searchName, Ranked(ratio, searchName, cases));
         r.message == strategy.message && r.questions == strategy.questions
  {
    if |cases| == 0 then NoMatches
    else if |cases| == 1 then Proceed(SingleConfidence(Similarity(ratio, searchName, cases[0].clientName)), cases[0])
    else
      var ranked := Ranked(ratio, searchName, cases);
      var strategy := ClarificationStrategy(ratio, searchName, ranked);
      Clarify(TopMatches(ranked), strategy.message, strategy.questions)
  }

  // ---------------------------------------------------------------------------
  // The lookup decision
  // ---------------------------------------------------------------------------

  datatype Status = Open | Closed

  datatype Outcome =
    | ProceedWithCase(confidence: nat, c: Case, message: string)
    | NeedsClarification(confidence: nat, matches: seq<ScoredCase>, request: string, questions: seq<string>)
    | FoundClosedCases(closedMatches: seq<Case>, message: string)
    | SuggestNewCase(message: string)

  /** `_arun`: `search(name, status)` is the backend's fuzzy search. The outcome
      comes with the statuses searched, in order. */
  function Lookup(ratio: (string, string) -> real, clientName: string,
                  search: (string, Status) -> seq<Case>): (r: (Outcome, seq<Status>))
    ensures var name := NormalizeName(clientName);
      var open := search(name, Open);
      var closed := search(name, Closed);
      && (r.1 == [Open] <==> |open| > 0)
      && (r.1 == [Open, Closed] <==> |open| == 0)
      && (|open| == 1 <==> r.0.ProceedWithCase?)
      && (r.0.ProceedWithCase? ==> r.0.c == open[0] && r.0.confidence == AnalyzeConfidence(ratio, name, open).Confidence())
      && (|open| >= 2 <==> r.0.NeedsClarification?)
      && (r.0.NeedsClarification? ==> r.0.confidence == 40 && |r.0.matches| <= 5 && |r.0.questions| == 3)
      && (r.0.FoundClosedCases? <==> |open| == 0 && |closed| > 0)
      && (r.0.FoundClosedCases? ==> r.0.closedMatches == closed[..if |closed| < 5 then |closed| else 5])
      && (r.0.SuggestNewCase? <==> |open| == 0 && |closed| == 0)
  {
    LookupName(ratio, clientName, NormalizeName(clientName), search)
  }

  /** The lookup once the searched name is known. */
  function LookupName(ratio: (string, string) -> real, clientName: string, name: string,
                      search: (string, Status) -> seq<Case>): (r: (Outcome, seq<Status>))
    ensures var open := search(name, Open);
      var closed := search(name, Closed);
      && (r.1 == [Open] <==> |open| > 0)
      && (r.1 == [Open, Closed] <==> |open| == 0)
      && (|open| == 1 <==> r.0.ProceedWithCase?)
      && (r.0.ProceedWithCase? ==> r.0.c == open[0] && r.0.confidence == AnalyzeConfidence(ratio, name, open).Confidence())
      && (|open| >= 2 <==> r.0.NeedsClarification?)
      && (r.0.NeedsClarification? ==> r.0.confidence == 40 && |r.0.matches| <= 5 && |r.0.questions| == 3)
      && (r.0.FoundClosedCases? <==> |open| == 0 && |closed| > 0)
      && (r.0.FoundClosedCases? ==> r.0.closedMatches == closed[..if |closed| < 5 then |closed| else 5])
      && (r.0.SuggestNewCase? <==> |open| == 0 && |closed| == 0)
  {
    var open := search(name, Open);
    match AnalyzeConfidence(ratio, name, open)
    case Proceed(confidence, c) => (ProceedWithCase(confidence, c, FoundMessage(c)), [Open])
    case Clarify(matches, message, questions) => (NeedsClarification(40, matches, message, questions), [Open])
    case NoMatches => (ClosedOutcome(clientName, search(name, Closed)), [Open, Closed])
  }

  function FoundMessage(c: Case): string {
    "Found case for " + c.clientName + " (ID: " + c.caseId + ")"
  }

  /** With no open case: the closed cases found, or the suggestion to create one. */
  function ClosedOutcome(clientName: string, closed: seq<Case>): (r: Outcome)
    ensures r.FoundClosedCases? <==> |closed| > 0
    ensures r.FoundClosedCases? ==> r.closedMatches == closed[..if |closed| < 5 then |closed| else 5]
    ensures r.SuggestNewCase? <==> |closed| == 0
  {
    if |closed| > 0 then
      FoundClosedCases(closed[..if |closed| < 5 then |closed| else 5],
                       "No open cases found for '" + clientName + "', but found " + NatToString(|closed|)
                       + " closed case(s). Did you mean one of these closed cases, or should we create a new case?")
    else
      SuggestNewCase("No cases found for '" + clientName + "'. Would you like me to create a new case for this client?")
  }
}
