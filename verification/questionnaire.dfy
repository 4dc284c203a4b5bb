/** The competitor questionnaire the DreamPulse wizard fills in and the
    analysis route reads (`QuestionnaireData`, declared in both
    components/dreampulse/DreamPulseWizard.tsx and
    app/api/dreampulse/analyze/route.ts). Star ratings are whole numbers. */
module Questionnaire {
  datatype Rating = Rating(videoQuality: int, editing: int, storytelling: int, consistency: int)

  datatype Data = Data(
    competitorUrl: string,
    contentNiche: string,
    targetAudience: seq<string>,
    postingFrequency: string,
    contentFormats: seq<string>,
    uniqueStyle: string,
    weaknesses: string,
    engagementTactics: seq<string>,
    monetization: seq<string>,
    contentRating: Rating,
    yourAdvantage: string)

  /** The four multi-select questions. */
  datatype ListField = TargetAudience | ContentFormats | EngagementTactics | Monetization

  function Get(d: Data, f: ListField): seq<string> {
    match f
    case TargetAudience => d.targetAudience
    case ContentFormats => d.contentFormats
    case EngagementTactics => d.engagementTactics
    case Monetization => d.monetization
  }

  /** `{ ...prev, [field]: value }` for a list field. */
  function Put(d: Data, f: ListField, v: seq<string>): (r: Data)
    ensures Get(r, f) == v
    ensures forall g :: g != f ==> Get(r, g) == Get(d, g)
    ensures r.competitorUrl == d.competitorUrl && r.contentNiche == d.contentNiche
    ensures r.postingFrequency == d.postingFrequency && r.uniqueStyle == d.uniqueStyle
    ensures r.weaknesses == d.weaknesses && r.contentRating == d.contentRating
    ensures r.yourAdvantage == d.yourAdvantage
  {
    match f
    case TargetAudience => d.(targetAudience := v)
    case ContentFormats => d.(contentFormats := v)
    case EngagementTactics => d.(engagementTactics := v)
    case Monetization => d.(monetization := v)
  }
}
