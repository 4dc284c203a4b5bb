/** The state updates of the DreamPulse wizard
    (components/dreampulse/DreamPulseWizard.tsx): classifying a submitted
    profile URL, the step counter, the multi-select toggle and the list of
    saved analyses. The YouTube lookup and the clock are inputs. */
module Wizard {
  import opened Base
  import opened Strings
  import opened Platform
  import opened Questionnaire

  // ---------------------------------------------------------------------------
  // Submitting the profile URL
  // ---------------------------------------------------------------------------

  datatype Method = Scraped | Failed | Blocked

  datatype ScrapeResult = ScrapeResult(success: bool, how: Method, platform: Kind, dataQuality: int, message: string)

  /** What the YouTube lookup gave back: a profile or nothing. The lookup
      catches its own errors and answers `null`, so it never throws. The
      follower count arrives as the text the lookup formatted. */
  datatype Profile = Profile(platformName: string, username: string, followers: string, contentNiche: string)
  datatype Lookup = Found(profile: Profile) | NotFound

  /** The outcome of `handleUrlSubmit`: nothing for a blank URL, otherwise
      the scrape result and the niche to pre-fill, if any. */
  datatype Submit = NoSubmit | Submitted(result: ScrapeResult, niche: Option<string>)

  const UnknownMessage: string :=
    "Could not detect platform. Please enter a valid YouTube, Instagram, Twitter, or TikTok URL."

  function PlatformName(k: Kind): string {
    match k
    case YouTube => "YouTube"
    case Instagram => "Instagram"
    case Twitter => "Twitter"
    case TikTok => "TikTok"
    case Unknown => "Unknown"
  }

  /** A handle is used only when it is a non-empty string. */
  predicate HasHandle(d: Detected) {
    d.username.Some? && d.username.value != ""
  }

  /** Only a YouTube URL with a handle asks for profile data. */
  predicate AsksForProfile(d: Detected) {
    d.platform == YouTube && HasHandle(d)
  }

  function DetectedMessage(d: Detected): string {
    PlatformName(d.platform) + " profile detected"
    + (if HasHandle(d) then " (@" + d.username.value + ")" else "")
    + ". Please fill in details manually."
  }

  /** `handleUrlSubmit` after the blank check, given the detected
      platform and handle. Its error handler, the one source of a `Blocked`
      result, is unreachable: neither platform detection nor the lookup
      throws. */
  function Classify(d: Detected, lookup: Lookup): (s: Submit)
    ensures s.Submitted?
    ensures d.platform == Unknown ==> s.result == ScrapeResult(false, Failed, Unknown, 0, UnknownMessage)
    ensures s.result.dataQuality in {0, 30, 75}
    ensures s.result.success <==> AsksForProfile(d) && lookup.Found?
    ensures d.platform != Unknown && !AsksForProfile(d) ==>
              s.result == ScrapeResult(false, Failed, d.platform, 30, DetectedMessage(d))
    ensures s.result.how != Blocked
    ensures s.result.success ==>
              s.result.message == "Found " + lookup.profile.platformName + " profile: " + lookup.profile.username + " with " + lookup.profile.followers + " followers!"
    ensures s.niche.Some? ==> s.result.how == Scraped && s.niche.value != ""
  {
    if d.platform == Unknown then Submitted(ScrapeResult(false, Failed, Unknown, 0, UnknownMessage), None)
    else if AsksForProfile(d) && lookup.Found? then
      var p := lookup.profile;
      Submitted(ScrapeResult(true, Scraped, d.platform, 75,
                             "Found " + p.platformName + " profile: " + p.username + " with "
                             + p.followers + " followers!"),
                if p.contentNiche != "" then Some(p.contentNiche) else None)
    else Submitted(ScrapeResult(false, Failed, d.platform, 30, DetectedMessage(d)), None)
  }

  /** `handleUrlSubmit`: nothing for a blank URL, otherwise the outcome for
      the detected platform. */
  function UrlSubmit(url: string, lookup: Lookup): (s: Submit)
    ensures s.NoSubmit? <==> Trim(url) == ""
    ensures s.Submitted? ==> s == Classify(DetectPlatform(url), lookup)
  {
    if Trim(url) == "" then NoSubmit else Classify(DetectPlatform(url), lookup)
  }

  /** Without a YouTube handle the lookup is never consulted: every lookup
      outcome gives the same result. */
  lemma LookupOnlyForYouTube(url: string, l1: Lookup, l2: Lookup)
    requires !AsksForProfile(DetectPlatform(url))
    ensures UrlSubmit(url, l1) == UrlSubmit(url, l2)
  {
  }

  /** Instagram, Twitter and TikTok profiles are reported with their
      handle but never scraped. */
  lemma OtherPlatformsNotScraped(d: Detected, lookup: Lookup)
    requires d.platform in {Instagram, Twitter, TikTok} && HasHandle(d)
    ensures Classify(d, lookup)
            == Submitted(ScrapeResult(false, Failed, d.platform, 30,
                                      PlatformName(d.platform) + " profile detected (@" + d.username.value
                                      + "). Please fill in details manually."), None)
  {
  }

  // ---------------------------------------------------------------------------
  // The step counter
  // ---------------------------------------------------------------------------

  const TotalSteps: int := 10

  /** `handleNext`: one step forward below the last step; leaving step 1
      with a URL and no scrape result yet also submits the URL. */
  function Next(step: int, url: string, scraped: bool): (r: (int, bool))
    ensures step < TotalSteps ==> r.0 == step + 1
    ensures step >= TotalSteps ==> r.0 == step
    ensures r.1 <==> step == 1 && Trim(url) != "" && !scraped
  {
    if step < TotalSteps then (step + 1, step == 1 && Trim(url) != "" && !scraped) else (step, false)
  }

  /** `handleBack`: one step back above the first step. */
  function Back(step: int): (r: int)
    ensures step > 1 ==> r == step - 1
    ensures step <= 1 ==> r == step
  {
    if step > 1 then step - 1 else step
  }

  /** Both buttons keep the step in 1..10 and move it by at most one. */
  lemma StepsStayInRange(step: int, url: string, scraped: bool)
    requires 1 <= step <= TotalSteps
    ensures 1 <= Next(step, url, scraped).0 <= TotalSteps && 0 <= Next(step, url, scraped).0 - step <= 1
    ensures 1 <= Back(step) <= TotalSteps && 0 <= step - Back(step) <= 1
  {
  }

  /** Away from the ends, back undoes next and next undoes back. */
  lemma NextBackInverse(step: int, url: string, scraped: bool)
    ensures 1 <= step < TotalSteps ==> Back(Next(step, url, scraped).0) == step
    ensures 1 < step <= TotalSteps ==> Next(Back(step), url, scraped).0 == step
  {
  }

  // ---------------------------------------------------------------------------
  // Multi-select answers
  // ---------------------------------------------------------------------------

  /** `toggleArrayItem`: drops every occurrence of a chosen value, appends
      an absent one; the other answers are untouched. */
  function ToggleArrayItem(d: Data, f: ListField, value: string): (r: Data)
    ensures value in Get(r, f) <==> value !in Get(d, f)
    ensures forall v :: v != value ==> (v in Get(r, f) <==> v in Get(d, f))
    ensures forall g :: g != f ==> Get(r, g) == Get(d, g)
    ensures r.competitorUrl == d.competitorUrl && r.contentRating == d.contentRating
  {
    Put(d, f, ToggleMember(Get(d, f), value))
  }

  /** Toggling the same value twice restores every membership. */
  lemma ToggleArrayItemTwice(d: Data, f: ListField, value: string)
    ensures forall v :: v in Get(ToggleArrayItem(ToggleArrayItem(d, f, value), f, value), f) <==> v in Get(d, f)
  {
    ToggleMemberTwice(Get(d, f), value);
  }

  // ---------------------------------------------------------------------------
  // Saved analyses
  // ---------------------------------------------------------------------------

  datatype SavedAnalysis = SavedAnalysis(
    id: string, title: string, competitorUrl: string, analysisResult: string, data: Data,
    savedAt: string, createdAt: string)

  /** `saveAnalysis`: refused (the error status) without a report or a URL;
      otherwise a new entry stamped with the clock goes in front. */
  function SaveAnalysis(saved: seq<SavedAnalysis>, result: Option<string>, d: Data, now: int, iso: string)
    : (r: Option<seq<SavedAnalysis>>)
    ensures r.None? <==> result.None? || result.value == "" || d.competitorUrl == ""
    ensures r.Some? ==> |r.value| == |saved| + 1 && r.value[1..] == saved
    ensures r.Some? ==> r.value[0].id == IntToString(now) && r.value[0].competitorUrl == d.competitorUrl
                        && r.value[0].analysisResult == result.value && r.value[0].data == d
                        && r.value[0].title == "Analysis - " + d.competitorUrl
  {
    if result.None? || result.value == "" || d.competitorUrl == "" then None
    else
      var entry := SavedAnalysis(IntToString(now), "Analysis - " + d.competitorUrl, d.competitorUrl,
                                 result.value, d, iso, iso);
      Some([entry] + saved)
  }

  function KeepOthers(id: string): SavedAnalysis -> bool {
    (a: SavedAnalysis) => a.id != id
  }

  /** `deleteAnalysis`: every entry with the id goes, the rest keep their
      order; a selected entry with that id is deselected. */
  function DeleteAnalysis(saved: seq<SavedAnalysis>, selected: Option<SavedAnalysis>, id: string)
    : (r: (seq<SavedAnalysis>, Option<SavedAnalysis>))
    ensures Subsequence(r.0, saved)
    ensures forall i :: 0 <= i < |r.0| ==> r.0[i].id != id
    ensures forall i :: 0 <= i < |saved| && saved[i].id != id ==> saved[i] in r.0
    ensures |r.0| == Count(saved, KeepOthers(id))
    ensures r.1 == if selected.Some? && selected.value.id == id then None else selected
  {
    FilterIsSubsequence(saved, KeepOthers(id));
    (Filter(saved, KeepOthers(id)), if selected.Some? && selected.value.id == id then None else selected)
  }

  /** Deleting a just-saved analysis restores the list, as long as no older
      entry shares its id. */
  lemma SaveThenDelete(saved: seq<SavedAnalysis>, result: string, d: Data, now: int, iso: string)
    requires result != "" && d.competitorUrl != ""
    requires forall i :: 0 <= i < |saved| ==> saved[i].id != IntToString(now)
    ensures DeleteAnalysis(SaveAnalysis(saved, Some(result), d, now, iso).value, None, IntToString(now)).0 == saved
  {
    var list := SaveAnalysis(saved, Some(result), d, now, iso).value;
    assert list == [list[0]] + saved;
    FilterKeepsAll(saved, KeepOthers(IntToString(now)));
    FilterAppend([list[0]], saved, KeepOthers(IntToString(now)));
  }
}
