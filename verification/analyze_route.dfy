/** The DreamPulse analysis endpoint (app/api/dreampulse/analyze/route.ts):
    request validation, the choice between the model's answer and the
    built-in fallback report, and the fallback report's text. Whether an
    API key is configured and what the model call gave back are inputs. */
module AnalyzeRoute {
  import opened Base
  import opened Strings
  import opened Questionnaire
  import opened ReportSections

  // ---------------------------------------------------------------------------
  // The fallback report
  // ---------------------------------------------------------------------------

  /** A piece of template text: it holds no line break. Declaring the
      template's texts with this type states that fact once, where each
      text is written. */
  type Text = s: string | '\n' !in s

  /** A text that can open a line without making it a `## ` heading. */
  type Lead = s: Text | |s| > 0 && s[0] != '#' witness "-"

  /** The bullet the report uses: U+2022 and a space. */
  const Bullet: Lead := "\U{2022} "

  // The template's texts, in the order they appear. The longest are
  // written as shorter literals joined.
  const TitleLead: Text := "# Social Media Creator " + "Analysis for "
  const OperatesIn: Lead := "This creator operates in the **"
  const NicheTargets: Text := "** niche and targets **"
  const KeyDetailsLine: Lead := "**Key Details:**"
  const NicheLabel: Text := "Content niche: "
  const AudienceLabel: Text := "Target audience: "
  const FrequencyLabel: Text := "Posting frequency: "
  const FormatsLabel: Text := "Content formats: "
  const StyleLabel: Text := "Unique style: "
  const WeaknessesLabel: Text := "Weaknesses: "
  const TacticsLabel: Text := "Engagement tactics: "
  const MonetizationLabel: Text := "Monetization: "
  const RatingsLabel: Text := "Content ratings: Video "
  const EditingOf: Text := "/5, Editing "
  const StorytellingOf: Text := "/5, Storytelling "
  const ConsistencyOf: Text := "/5, Consistency "
  const AdvantageLabel: Text := "Your advantage: "
  const FocusesOn: Lead := "This creator focuses on "
  const ContentTargeting: Text := " content targeting "
  const FrequencyIs: Text := ". Their posting frequency is "
  const TheyCreate: Text := " and they create "
  const StyleIs: Lead := "Their unique style is: "
  const AreasLine: Lead := "**Areas to exploit:**"
  const NoWeaknesses: Text := "Limited weaknesses identified"
  const AdvantageLine: Lead := "**Your Competitive Advantage:**"
  const NotSpecified: Lead := "Not specified"
  const FocusLead: Lead := "1. Focus on improving your "
  const EditingAdvice: Text := "Enhance your editing skills " + "to match their level"
  const KeepCreating: Text := "Continue creating high-quality content"
  const LeverageLead: Lead := "3. Leverage your advantage: "
  const OwnStrengths: Text := "Build on your unique strengths"
  const ExploreLead: Lead := "4. Explore additional " + "monetization strategies beyond "
  const EngagementLead: Lead := "5. Improve engagement through "
  const BetterUse: Text := "better implementation of"
  const DirectInteraction: Text := "direct audience interaction"
  const FooterLead: Lead := "*This is a fallback analysis. "
  const FooterRest: Text := "For more detailed " + "AI-powered insights, " + "ensure your " + "GEMINI_API_KEY is configured.*"

  /** `xs.join(', ')`. */
  function ListText(xs: seq<string>): string {
    Join(xs, ", ")
  }

  /** `s || fallback`. */
  function Or(s: string, fallback: string): (r: string)
    ensures r == s || r == fallback
    ensures r == "" ==> fallback == ""
  {
    if s != "" then s else fallback
  }

  /** The "Areas to exploit" block: every line of the weaknesses bulleted,
      or a stock line when there are none. */
  function WeaknessBlock(w: string): string {
    if w != "" then Bullet + Join(Split(w, '\n'), "\n" + Bullet) else Bullet + NoWeaknesses
  }

  /** The ten "Key Details" entries, before their bullets. */
  function KeyDetails(d: Data): seq<string> {
    var r := d.contentRating;
    [ NicheLabel + d.contentNiche,
      AudienceLabel + ListText(d.targetAudience),
      FrequencyLabel + d.postingFrequency,
      FormatsLabel + ListText(d.contentFormats),
      StyleLabel + d.uniqueStyle,
      WeaknessesLabel + d.weaknesses,
      TacticsLabel + ListText(d.engagementTactics),
      MonetizationLabel + ListText(d.monetization),
      RatingsLabel + IntToString(r.videoQuality) + EditingOf + IntToString(r.editing)
        + StorytellingOf + IntToString(r.storytelling) + ConsistencyOf + IntToString(r.consistency) + "/5",
      AdvantageLabel + d.yourAdvantage ]
  }

  function SummaryLines(d: Data): seq<string> {
    [ OperatesIn + d.contentNiche + NicheTargets + ListText(d.targetAudience) + "**.",
      "",
      KeyDetailsLine ]
    + Bulleted(KeyDetails(d)) + [""]
  }

  function StrategyLines(d: Data): seq<string> {
    [ FocusesOn + d.contentNiche + ContentTargeting + ListText(d.targetAudience)
        + FrequencyIs + d.postingFrequency + TheyCreate + ListText(d.contentFormats) + ".",
      "" ]
  }

  function InsightLines(d: Data): seq<string> {
    [ StyleIs + d.uniqueStyle,
      "",
      AreasLine,
      WeaknessBlock(d.weaknesses),
      "",
      AdvantageLine,
      Or(d.yourAdvantage, NotSpecified),
      "" ]
  }

  function RecommendationLines(d: Data): seq<string> {
    var r := d.contentRating;
    [ FocusLead + (if r.videoQuality < 4 then "video quality" else "storytelling"),
      "2. " + (if r.editing < 4 then EditingAdvice else KeepCreating),
      LeverageLead + Or(d.yourAdvantage, OwnStrengths),
      ExploreLead + ListText(d.monetization),
      EngagementLead + (if |d.engagementTactics| > 0 then BetterUse else "")
        + " " + Or(ListText(d.engagementTactics), DirectInteraction),
      "",
      FooterLead + FooterRest ]
  }

  const SectionTitles: seq<string> :=
    ["Executive Summary", "Content Strategy Analysis", "Competitive Insights", "Recommendations"]

  function Parts(d: Data): (ps: seq<Part>)
    ensures |ps| == 4 && forall i :: 0 <= i < 4 ==> ps[i].heading == SectionTitles[i]
  {
    [ Part(SectionTitles[0], SummaryLines(d)),
      Part(SectionTitles[1], StrategyLines(d)),
      Part(SectionTitles[2], InsightLines(d)),
      Part(SectionTitles[3], RecommendationLines(d)) ]
  }

  function TitleText(d: Data): string {
    TitleLead + d.competitorUrl
  }

  /** `generateFallbackAnalysis`: the template's lines joined by newlines. */
  function FallbackAnalysis(d: Data): (r: string)
    ensures StartsWith(r, TitleText(d) + "\n\n## " + SectionTitles[0])
  {
    var lines := Render(Parts(d));
    OpensWith(TitleText(d), "", lines, "\n");
    assert TitleText(d) + "\n" + "" + "\n" + lines[0] == TitleText(d) + "\n\n## " + SectionTitles[0];
    Join([TitleText(d), ""] + lines, "\n")
  }

  // ---------------------------------------------------------------------------
  // The endpoint
  // ---------------------------------------------------------------------------

  /** The request body: unreadable JSON, or the questionnaire. */
  datatype Body = Unreadable | Parsed(data: Data)

  /** The model call: its text, or an error with or without a message. */
  datatype ModelCall = Answered(text: string) | Failed(message: Option<string>)

  /** A JSON reply: the report with an optional warning, or an error
      status. */
  datatype Reply = Analysis(analysis: string, warning: Option<string>) | Failure(status: int, error: string)

  const RequiredMissing: string := "Required fields missing"
  const KeyWarning: string := "API key not configured. Using fallback analysis."
  const AnalysisFailed: string := "Analysis failed. Please try again."

  predicate HasRequired(d: Data) {
    d.competitorUrl != "" && d.contentNiche != ""
  }

  /** `POST`: reading the body, the required-field check, the key check,
      then the model call. Any error with a message inside the call is
      answered with the fallback report; one without a message makes the
      error handler itself throw, which the outer handler turns into a
      500. */
  function Analyze(body: Body, hasKey: bool, call: ModelCall): (r: Reply)
    ensures body.Unreadable? ==> r == Failure(500, AnalysisFailed)
    ensures body.Parsed? && !HasRequired(body.data) ==> r == Failure(400, RequiredMissing)
    ensures body.Parsed? && HasRequired(body.data) && !hasKey ==>
              r == Analysis(FallbackAnalysis(body.data), Some(KeyWarning))
    ensures body.Parsed? && HasRequired(body.data) && hasKey ==>
              r == match call
                   case Answered(text) => Analysis(text, None)
                   case Failed(Some(_)) => Analysis(FallbackAnalysis(body.data), None)
                   case Failed(None) => Failure(500, AnalysisFailed)
  {
    match body
    case Unreadable => Failure(500, AnalysisFailed)
    case Parsed(d) =>
      if !HasRequired(d) then Failure(400, RequiredMissing)
      else if !hasKey then Analysis(FallbackAnalysis(d), Some(KeyWarning))
      else
        match call
        case Answered(text) => Analysis(text, None)
        case Failed(message) =>
          if message.Some? then Analysis(FallbackAnalysis(d), None) else Failure(500, AnalysisFailed)
  }

  /** A valid request fails only when the model errs without a message;
      every reply that is not the model's own text is the fallback report. */
  lemma ValidRequestsGetAReport(d: Data, hasKey: bool, call: ModelCall)
    requires HasRequired(d)
    ensures Analyze(Parsed(d), hasKey, call).Failure? <==> hasKey && call == Failed(None)
    ensures var r := Analyze(Parsed(d), hasKey, call);
            r.Analysis? && !(hasKey && call.Answered?) ==> r.analysis == FallbackAnalysis(d)
    ensures Analyze(Parsed(d), hasKey, call).Analysis? ==>
              (Analyze(Parsed(d), hasKey, call).warning.Some? <==> !hasKey)
  {
  }

  // ---------------------------------------------------------------------------
  // What the fallback report reads as
  // ---------------------------------------------------------------------------

  predicate Free(xs: seq<string>) {
    forall i :: 0 <= i < |xs| ==> '\n' !in xs[i]
  }

  /** No answer the fallback interpolates holds a line break, except the
      weaknesses, whose lines the template handles one by one. */
  predicate NoLineBreaks(d: Data) {
    && '\n' !in d.competitorUrl && '\n' !in d.contentNiche && '\n' !in d.postingFrequency
    && '\n' !in d.uniqueStyle && '\n' !in d.yourAdvantage
    && Free(d.targetAudience) && Free(d.contentFormats) && Free(d.engagementTactics) && Free(d.monetization)
  }

  /** No line of the weaknesses after the first looks like a heading: the
      Key Details entry prints those lines as they are, with no bullet. */
  predicate PlainContinuations(w: string) {
    NoHeadings(Split(w, '\n')[1..])
  }

  /** What the fallback needs to read back as its four sections: single-line
      answers besides the weaknesses, weaknesses whose later lines are no
      headings, and an advantage (a line of its own) that is no heading. */
  predicate ReadsBack(d: Data) {
    NoLineBreaks(d) && PlainContinuations(d.weaknesses) && !IsHeading(d.yourAdvantage)
  }

  /** `"\u2022 "` before every entry. */
  function Bulleted(ps: seq<string>): (bs: seq<string>)
    ensures |bs| == |ps|
    ensures forall i :: 0 <= i < |ps| ==> bs[i] == Bullet + ps[i]
  {
    seq(|ps|, i requires 0 <= i < |ps| => Bullet + ps[i])
  }

  /** Every weakness line becomes one bulleted line. */
  lemma WeaknessLinesBulleted(w: string)
    requires w != ""
    ensures Split(WeaknessBlock(w), '\n') == Bulleted(Split(w, '\n'))
  {
    var pieces := Split(w, '\n');
    BulletJoin(pieces);
    assert Free(Bulleted(pieces));
    SplitJoin(Bulleted(pieces), '\n');
  }

  lemma {:induction false} BulletJoin(ps: seq<string>)
    requires |ps| >= 1
    ensures Bullet + Join(ps, "\n" + Bullet) == Join(Bulleted(ps), "\n")
  {
    if |ps| > 1 {
      BulletJoin(ps[1..]);
      assert Bulleted(ps)[1..] == Bulleted(ps[1..]);
      assert Bullet + Join(ps, "\n" + Bullet)
          == (Bullet + ps[0]) + "\n" + (Bullet + Join(ps[1..], "\n" + Bullet));
    }
  }

  /** A join starts where its first piece starts and ends where its last
      piece ends. */
  lemma {:induction false} JoinEnds(ps: seq<string>, sep: string)
    requires |ps| >= 1 && |ps[0]| > 0 && |ps[|ps| - 1]| > 0
    ensures var j := Join(ps, sep);
            |j| > 0 && j[0] == ps[0][0] && j[|j| - 1] == ps[|ps| - 1][|ps[|ps| - 1]| - 1]
  {
    if |ps| > 1 {
      JoinLast(ps[1..], sep);
    }
  }

  lemma {:induction false} JoinLast(ps: seq<string>, sep: string)
    requires |ps| >= 1 && |ps[|ps| - 1]| > 0
    ensures var j := Join(ps, sep);
            |j| > 0 && j[|j| - 1] == ps[|ps| - 1][|ps[|ps| - 1]| - 1]
  {
    if |ps| > 1 {
      assert ps[1..][|ps| - 2] == ps[|ps| - 1];
      JoinLast(ps[1..], sep);
    }
  }

  /** A line that is empty or does not start with '#' is no heading. */
  lemma NotHeading(x: string)
    requires x == "" || x[0] != '#'
    ensures !IsHeading(x)
  {
    if |x| >= 3 {
      assert x[..3][0] == x[0];
    }
  }

  /** A line opened by a `Lead` text is no heading. */
  lemma LeadNotHeading(lead: Lead, rest: string)
    ensures !IsHeading(lead + rest)
  {
    NotHeading(lead + rest);
  }

  lemma ListTextFree(xs: seq<string>)
    requires Free(xs)
    ensures '\n' !in ListText(xs)
  {
    JoinAvoids(xs, ", ", '\n');
  }

  lemma NumberFree(n: int)
    ensures '\n' !in IntToString(n)
  {
    var s := IntToString(n);
    assert forall i :: 0 <= i < |s| ==> s[i] != '\n';
  }

  /** The Key Details entry of a multi-line weakness: its first line is
      bulleted, the later ones are the weakness lines as written. */
  lemma WeaknessEntryLines(w: string)
    requires PlainContinuations(w)
    ensures NoHeadings(Split(Bullet + (WeaknessesLabel + w), '\n'))
  {
    var lead := Bullet + WeaknessesLabel;
    assert Bullet + (WeaknessesLabel + w) == lead + w;
    SplitLead(lead, '\n', w);
    LeadNotHeading(Bullet, WeaknessesLabel + Split(w, '\n')[0]);
    assert lead + Split(w, '\n')[0] == Bullet + (WeaknessesLabel + Split(w, '\n')[0]);
  }

  /** The summary's lines are single lines that are no headings, except
      the Key Details entry of the weaknesses. */
  lemma SummaryShape(d: Data)
    requires NoLineBreaks(d)
    ensures |SummaryLines(d)| == 14 && SummaryLines(d)[8] == Bullet + (WeaknessesLabel + d.weaknesses)
    ensures forall i :: 0 <= i < 14 && i != 8 ==> '\n' !in SummaryLines(d)[i] && !IsHeading(SummaryLines(d)[i])
  {
    ListTextFree(d.targetAudience);
    ListTextFree(d.contentFormats);
    ListTextFree(d.engagementTactics);
    ListTextFree(d.monetization);
    var r := d.contentRating;
    NumberFree(r.videoQuality);
    NumberFree(r.editing);
    NumberFree(r.storytelling);
    NumberFree(r.consistency);
    var k := KeyDetails(d);
    var b := Bulleted(k);
    forall i | 0 <= i < |b| && i != 5 ensures '\n' !in b[i] && !IsHeading(b[i]) {
      LeadNotHeading(Bullet, k[i]);
    }
    var intro := OperatesIn + d.contentNiche + NicheTargets + ListText(d.targetAudience) + "**.";
    LeadNotHeading(OperatesIn, intro[|OperatesIn|..]);
    LeadNotHeading(KeyDetailsLine, "");
    NotHeading("");
    assert SummaryLines(d) == [intro, "", KeyDetailsLine] + b + [""];
  }

  lemma SummaryReads(d: Data)
    requires NoLineBreaks(d) && PlainContinuations(d.weaknesses)
    ensures NoHeadings(Lines(SummaryLines(d)))
  {
    SummaryShape(d);
    WeaknessEntryLines(d.weaknesses);
    LinesPlain(SummaryLines(d), 8);
  }

  lemma StrategyReads(d: Data)
    requires NoLineBreaks(d)
    ensures Free(StrategyLines(d)) && NoHeadings(StrategyLines(d))
  {
    ListTextFree(d.targetAudience);
    ListTextFree(d.contentFormats);
    var line := StrategyLines(d)[0];
    LeadNotHeading(FocusesOn, line[|FocusesOn|..]);
    NotHeading("");
  }

  /** The "Areas to exploit" block cuts into bulleted lines only. */
  lemma WeaknessBlockLines(w: string)
    ensures NoHeadings(Split(WeaknessBlock(w), '\n'))
  {
    if w != "" {
      WeaknessLinesBulleted(w);
      var ps := Split(w, '\n');
      forall i | 0 <= i < |ps| ensures !IsHeading(Bulleted(ps)[i]) {
        LeadNotHeading(Bullet, ps[i]);
      }
    } else {
      LeadNotHeading(Bullet, NoWeaknesses);
    }
  }

  lemma InsightsReads(d: Data)
    requires NoLineBreaks(d) && !IsHeading(d.yourAdvantage)
    ensures NoHeadings(Lines(InsightLines(d)))
  {
    WeaknessBlockLines(d.weaknesses);
    LeadNotHeading(StyleIs, d.uniqueStyle);
    LeadNotHeading(AreasLine, "");
    LeadNotHeading(AdvantageLine, "");
    LeadNotHeading(NotSpecified, "");
    NotHeading("");
    LinesPlain(InsightLines(d), 3);
  }

  lemma RecommendationsReads(d: Data)
    ensures NoLineBreaks(d) ==> Free(RecommendationLines(d))
    ensures NoHeadings(RecommendationLines(d))
  {
    var ls := RecommendationLines(d);
    if NoLineBreaks(d) {
      ListTextFree(d.engagementTactics);
      ListTextFree(d.monetization);
    }
    LeadNotHeading(FocusLead, ls[0][|FocusLead|..]);
    NotHeading(ls[1]);
    LeadNotHeading(LeverageLead, ls[2][|LeverageLead|..]);
    LeadNotHeading(ExploreLead, ls[3][|ExploreLead|..]);
    LeadNotHeading(EngagementLead, ls[4][|EngagementLead|..]);
    LeadNotHeading(FooterLead, FooterRest);
    NotHeading("");
  }

  /** The four section titles are trimmed, non-empty and on one line. */
  lemma SectionTitlesPlain()
    ensures forall i :: 0 <= i < 4 ==>
              SectionTitles[i] != "" && Trim(SectionTitles[i]) == SectionTitles[i] && '\n' !in SectionTitles[i]
  {
    TrimOfNoSpaceEnds(SectionTitles[0]);
    TrimOfNoSpaceEnds(SectionTitles[1]);
    TrimOfNoSpaceEnds(SectionTitles[2]);
    TrimOfNoSpaceEnds(SectionTitles[3]);
  }

  /** Each part of the fallback, cut into lines, reads back as written. */
  lemma PartsRead(d: Data)
    requires ReadsBack(d)
    ensures forall i :: 0 <= i < |Parts(d)| ==> '\n' !in Parts(d)[i].heading && WellFormed(LineParts(Parts(d))[i])
  {
    var ps := Parts(d);
    var lp := LineParts(ps);
    SectionTitlesPlain();
    forall i | 0 <= i < 4 ensures '\n' !in ps[i].heading && WellFormed(lp[i]) {
      if i == 0 {
        SummaryReads(d);
      } else if i == 1 {
        StrategyReads(d);
        LinesOfFree(StrategyLines(d));
      } else if i == 2 {
        InsightsReads(d);
      } else {
        RecommendationsReads(d);
        LinesOfFree(RecommendationLines(d));
      }
    }
  }

  /** The title line is a `# ` line. */
  lemma TitleLeadFacts()
    ensures |TitleLead| >= 3 && TitleLead[..2] == "# " && TitleLead[2] == 'S'
  {
  }

  /** The report's first line is a `# ` title line. */
  lemma TitleTextLine(d: Data)
    requires '\n' !in d.competitorUrl
    ensures TitleLine(TitleText(d)) && '\n' !in TitleText(d)
  {
    TitleLeadFacts();
    assert TitleText(d)[..2] == TitleLead[..2];
  }

  /** The wizard's splitter reads the fallback report as exactly four
      sections: Executive Summary, Content Strategy Analysis, Competitive
      Insights and Recommendations, each holding its block of the template.
      Weaknesses may span several lines. */
  lemma FallbackSections(d: Data)
    requires ReadsBack(d)
    ensures ParseAnalysisResult(FallbackAnalysis(d)) == Expected(Parts(d))
    ensures Titles(ParseAnalysisResult(FallbackAnalysis(d))) == SectionTitles
  {
    PartsRead(d);
    TitleTextLine(d);
    ReadReport(TitleText(d), Parts(d));
    ExpectedTitles(Parts(d));
  }

  /** Why the weaknesses' later lines must not be headings: one that is
      opens a section of its own inside the Executive Summary. */
  lemma WeaknessHeadingOpensSection(d: Data, j: nat)
    requires NoLineBreaks(d)
    requires 1 <= j < |Split(d.weaknesses, '\n')|
    requires IsHeading(Split(d.weaknesses, '\n')[j]) && HeadingText(Split(d.weaknesses, '\n')[j]) != ""
    ensures |ParseAnalysisResult(FallbackAnalysis(d))| > 4
  {
    var ps := Parts(d);
    TitleTextLine(d);
    SectionTitlesPlain();
    ReportTitles(TitleText(d), ps);
    var lp := LineParts(ps);
    RenderHeadings(lp);
    // the heading sits among the Key Details lines of the summary
    SummaryShape(d);
    var lead := Bullet + WeaknessesLabel;
    assert SummaryLines(d)[8] == lead + d.weaknesses;
    HeadingAmongLines(SummaryLines(d), 8, lead, d.weaknesses, j);
  }

  /** A text whose later line is a heading, after a lead free of breaks,
      among single lines: the lines hold that heading. */
  lemma HeadingAmongLines(xs: seq<string>, k: nat, lead: string, w: string, j: nat)
    requires k < |xs| && forall i :: 0 <= i < |xs| && i != k ==> '\n' !in xs[i]
    requires xs[k] == lead + w && '\n' !in lead
    requires 1 <= j < |Split(w, '\n')|
    requires IsHeading(Split(w, '\n')[j]) && HeadingText(Split(w, '\n')[j]) != ""
    ensures |HeadingTitles(Lines(xs))| >= 1
  {
    var ws := Split(w, '\n');
    var sp := Split(xs[k], '\n');
    LinesAround(xs, k);
    Regroup(xs[..k], sp, xs[k + 1..]);
    HeadingTitlesAppend(xs[..k], sp + xs[k + 1..]);
    HeadingTitlesAppend(sp, xs[k + 1..]);
    SplitLead(lead, '\n', w);
    HeadingTitlesAppend([lead + ws[0]], ws[1..]);
    HeadingCounted(ws[1..], j - 1);
  }

  lemma ExpectedTitles(parts: seq<Part>)
    ensures Titles(Expected(parts)) == seq(|parts|, i requires 0 <= i < |parts| => parts[i].heading)
  {
  }

  /** The report starts with its title line. */
  lemma FallbackTitle(d: Data)
    ensures StartsWith(FallbackAnalysis(d), TitleLead + d.competitorUrl)
  {
  }

  lemma RecommendationEnds()
    ensures !IsJsSpace(FocusLead[0]) && !IsJsSpace(FooterRest[|FooterRest| - 1])
  {
  }

  /** The first two recommendations depend on the video and editing
      ratings: below 4 the report asks to improve that skill. */
  lemma RecommendationChoice(d: Data)
    requires ReadsBack(d)
    ensures |ParseAnalysisResult(FallbackAnalysis(d))| == 4
    ensures var recs := Split(ParseAnalysisResult(FallbackAnalysis(d))[3].content, '\n');
            && |recs| == 7
            && (recs[0] == FocusLead + "video quality" <==> d.contentRating.videoQuality < 4)
            && (recs[1] == "2. " + EditingAdvice <==> d.contentRating.editing < 4)
  {
    FallbackSections(d);
    var rl := RecommendationLines(d);
    RecommendationsReads(d);
    RecommendationEnds();
    JoinEnds(rl, "\n");
    TrimOfNoSpaceEnds(Join(rl, "\n"));
    SplitJoin(rl, '\n');
    assert rl[0][|FocusLead|] == (if d.contentRating.videoQuality < 4 then 'v' else 's');
    assert rl[1][3] == (if d.contentRating.editing < 4 then EditingAdvice[0] else KeepCreating[0]);
    assert EditingAdvice[0] == 'E' && KeepCreating[0] == 'C';
  }
}
