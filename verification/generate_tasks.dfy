/** The HypeOS task generator (app/api/hypeos/generate-tasks/route.ts):
    cleaning up the model's answer, filling in defaults for every task it
    proposes, and the built-in template lists used whenever there is no
    usable answer. The model call and JSON parsing are inputs; the clock is
    a single reading `now`. */
module GenerateTasks {
  import opened Base
  import opened Strings
  import opened Items

  // ---------------------------------------------------------------------------
  // Code fences
  // ---------------------------------------------------------------------------

  /** `s.replace(/m\n?/g, '')`: every occurrence of `m`, found left to right
      without overlap, is removed together with one newline right after it. */
  function RemoveMarker(s: string, m: string): (r: string)
    requires |m| > 0
    ensures |r| <= |s|
    decreases |s|
  {
    if |s| == 0 then ""
    else if StartsWith(s, m) then
      var after := s[|m|..];
      RemoveMarker(if |after| > 0 && after[0] == '\n' then after[1..] else after, m)
    else [s[0]] + RemoveMarker(s[1..], m)
  }

  /** Text in which the marker does not occur is left alone. */
  lemma {:induction false} RemoveMarkerAbsent(s: string, m: string)
    requires |m| > 0 && !Contains(s, m)
    ensures RemoveMarker(s, m) == s
    decreases |s|
  {
    if |s| > 0 {
      NotContainedTail(s, m);
      RemoveMarkerAbsent(s[1..], m);
    }
  }

  const Fence: string := "```"
  const JsonFence: string := "```json"

  /** The cleaning applied before `JSON.parse`: trim, then drop the fence
      markers when the text opens with one. */
  function StripFences(text: string): (r: string)
    ensures !StartsWith(Trim(text), Fence) ==> r == Trim(text)
  {
    var t := Trim(text);
    if StartsWith(t, JsonFence) then RemoveMarker(RemoveMarker(t, JsonFence), Fence)
    else if StartsWith(t, Fence) then RemoveMarker(t, Fence)
    else t
  }

  /** Text without a backtick is left alone. */
  lemma {:induction false} RemoveMarkerNoTick(s: string, m: string)
    requires |m| > 0 && m[0] == '`' && '`' !in s
    ensures RemoveMarker(s, m) == s
    decreases |s|
  {
    if |s| > 0 {
      HeadNotMarker(s, m);
      RemoveMarkerNoTick(s[1..], m);
    }
  }

  /** A backtick-free head passes through; the rest is cleaned on its own. */
  lemma {:induction false} RemoveMarkerAfterPlain(a: string, b: string, m: string)
    requires |m| > 0 && m[0] == '`' && '`' !in a
    ensures RemoveMarker(a + b, m) == a + RemoveMarker(b, m)
    decreases |a|
  {
    if |a| > 0 {
      var s := a + b;
      assert s[0] == a[0];
      HeadNotMarker(s, m);
      assert s[1..] == a[1..] + b;
      RemoveMarkerAfterPlain(a[1..], b, m);
    } else {
      assert a + b == b;
    }
  }

  /** The usual fenced answer, a ```` ```json ```` line, the JSON, and a
      closing fence, comes out as the JSON followed by its newline. */
  lemma FencedJson(body: string)
    requires '`' !in body
    ensures StripFences(JsonFence + "\n" + body + "\n" + Fence) == body + "\n"
  {
    var text := JsonFence + "\n" + body + "\n" + Fence;
    TrimOfNoSpaceEnds(text);
    assert StartsWith(text, JsonFence) by {
      assert text[..|JsonFence|] == JsonFence;
    }
    var rest := body + "\n" + Fence;
    assert text[|JsonFence|..] == "\n" + rest;
    assert ("\n" + rest)[1..] == rest;
    RemoveMarkerAfterPlain(body + "\n", Fence, JsonFence);
    assert RemoveMarker(Fence, JsonFence) == Fence by {
      assert !StartsWith(Fence, JsonFence);
      assert Fence[1..] == "``";
      assert !StartsWith("``", JsonFence);
      assert "``"[1..] == "`";
      assert !StartsWith("`", JsonFence);
      assert "`"[1..] == "";
    }
    assert rest == (body + "\n") + Fence;
    RemoveMarkerAfterPlain(body + "\n", Fence, Fence);
    assert StartsWith(Fence, Fence);
    assert Fence[|Fence|..] == "";
  }

  /** A text whose first character differs from the marker's does not
      start with the marker. */
  lemma HeadNotMarker(s: string, m: string)
    requires |s| > 0 && |m| > 0 && s[0] != m[0]
    ensures !StartsWith(s, m)
  {
    if |m| <= |s| {
      assert s[..|m|][0] == s[0];
    }
  }

  /** The fence occurs at `i` exactly when three backticks stand there. */
  lemma FenceAt(s: string, i: int)
    ensures OccursAt(s, Fence, i) <==> 0 <= i && i + 3 <= |s| && s[i] == '`' && s[i + 1] == '`' && s[i + 2] == '`'
  {
    if 0 <= i && i + 3 <= |s| {
      var w := s[i..i + 3];
      assert w[0] == s[i] && w[1] == s[i + 1] && w[2] == s[i + 2];
      assert w == Fence <==> w[0] == '`' && w[1] == '`' && w[2] == '`';
    }
  }

  lemma FenceStart(s: string)
    ensures StartsWith(s, Fence) <==> OccursAt(s, Fence, 0)
  {
    if |s| >= 3 {
      assert s[..3] == s[0..3];
    }
  }

  /** Backticks at the front of the cleaned text were at the front of the
      text: removal never brings a backtick forward. */
  lemma {:induction false} FrontTicks(s: string)
    ensures var r := RemoveMarker(s, Fence);
            && (|r| >= 1 && r[0] == '`' ==> |s| >= 1 && s[0] == '`')
            && (|r| >= 2 && r[0] == '`' && r[1] == '`' ==> |s| >= 2 && s[0] == '`' && s[1] == '`')
    decreases |s|
  {
    if |s| > 0 {
      FenceStart(s);
      FenceAt(s, 0);
      if !StartsWith(s, Fence) {
        var tail := RemoveMarker(s[1..], Fence);
        assert RemoveMarker(s, Fence) == [s[0]] + tail;
        FrontTicks(s[1..]);
      } else {
        var after := s[|Fence|..];
        FrontTicks(if |after| > 0 && after[0] == '\n' then after[1..] else after);
      }
    }
  }

  /** Removing every ```` ``` ```` leaves no ```` ``` ````: no new one can
      form across a removed marker. */
  lemma {:induction false} NoFenceLeft(s: string)
    ensures !Contains(RemoveMarker(s, Fence), Fence)
    decreases |s|
  {
    var r := RemoveMarker(s, Fence);
    if |s| > 0 {
      if StartsWith(s, Fence) {
        var after := s[|Fence|..];
        NoFenceLeft(if |after| > 0 && after[0] == '\n' then after[1..] else after);
      } else {
        var tail := RemoveMarker(s[1..], Fence);
        NoFenceLeft(s[1..]);
        assert r == [s[0]] + tail;
        forall i | 0 <= i <= |r| ensures !OccursAt(r, Fence, i) {
          FenceAt(r, i);
          if i == 0 {
            FrontTicks(s[1..]);
            FenceStart(s);
            FenceAt(s, 0);
          } else {
            FenceAt(tail, i - 1);
          }
        }
      }
    }
  }

  /** An answer that opens with a fence comes out with no fence left. */
  lemma FencesGone(text: string)
    requires StartsWith(Trim(text), Fence)
    ensures !Contains(StripFences(text), Fence)
  {
    var t := Trim(text);
    if StartsWith(t, JsonFence) {
      NoFenceLeft(RemoveMarker(t, JsonFence));
    } else {
      NoFenceLeft(t);
    }
  }

  // ---------------------------------------------------------------------------
  // Defaults for the model's tasks
  // ---------------------------------------------------------------------------

  /** A task object as the model wrote it: each field may be missing. */
  datatype RawTask = RawTask(
    title: Option<string>, impact: Option<string>, points: Option<int>, category: Option<string>,
    estimatedTime: Option<string>, howToComplete: Option<seq<string>>)

  /** `v || fallback` for a text field: a missing or empty text is replaced. */
  function TextOr(v: Option<string>, fallback: string): (r: string)
    ensures r == fallback <==> v.None? || v.value == "" || v.value == fallback
    ensures r != fallback ==> v == Some(r)
  {
    if v.Some? && v.value != "" then v.value else fallback
  }

  /** The points a task without (or with zero) points gets: by the impact
      as the model wrote it. */
  function DefaultPoints(impact: Option<string>): (p: int)
    ensures p in {100, 200, 300}
    ensures p == 300 <==> impact == Some("high")
    ensures p == 200 <==> impact == Some("medium")
  {
    if impact == Some("high") then 300 else if impact == Some("medium") then 200 else 100
  }

  /** One entry of `validatedTasks`, the `index`-th. */
  function Validate(t: RawTask, index: nat, category: string, now: int): (x: Item)
    ensures x.id == now + index && !x.completed && x.completedAt.None? && x.body.TaskBody?
    ensures x.title != ""
    ensures t.points.Some? && t.points.value != 0 ==> x.points == t.points.value
    ensures !(t.points.Some? && t.points.value != 0) ==> x.points in {100, 200, 300}
    ensures !(t.points.Some? && t.points.value != 0) ==> x.points == DefaultPoints(t.impact)
    ensures x.body.impact != "" && x.body.estimatedTime != ""
    ensures x.body.category.Some?
    ensures (t.title.None? || t.title == Some("")) ==> x.title == "Task " + IntToString(index + 1)
    ensures t.title.Some? && t.title.value != "" ==> x.title == t.title.value
    ensures (t.impact.None? || t.impact == Some("")) ==> x.body.impact == "medium"
    ensures t.impact.Some? && t.impact.value != "" ==> x.body.impact == t.impact.value
    ensures (t.estimatedTime.None? || t.estimatedTime == Some("")) ==> x.body.estimatedTime == "30 min"
    ensures t.estimatedTime.Some? && t.estimatedTime.value != "" ==> x.body.estimatedTime == t.estimatedTime.value
    ensures (t.category.None? || t.category == Some("")) ==> x.body.category == Some(category)
    ensures t.category.Some? && t.category.value != "" ==> x.body.category == t.category
    ensures x.body.howToComplete == if t.howToComplete.Some? then t.howToComplete.value else []
  {
    Item(now + index,
         TextOr(t.title, "Task " + IntToString(index + 1)),
         false,
         if t.points.Some? && t.points.value != 0 then t.points.value else DefaultPoints(t.impact),
         None,
         TaskBody(TextOr(t.impact, "medium"), Some(TextOr(t.category, category)),
                  TextOr(t.estimatedTime, "30 min"),
                  if t.howToComplete.Some? then t.howToComplete.value else []))
  }

  /** `tasks.slice(0, 10).map(...)`. */
  function ValidateTasks(ts: seq<RawTask>, category: string, now: int): (r: seq<Item>)
    ensures |r| == if |ts| < 10 then |ts| else 10
    ensures forall i :: 0 <= i < |r| ==> r[i] == Validate(ts[i], i, category, now)
  {
    var n := if |ts| < 10 then |ts| else 10;
    seq(n, i requires 0 <= i < n => Validate(ts[i], i, category, now))
  }

  /** The task as the model would write it in full. */
  function Written(x: Item): RawTask
    requires x.body.TaskBody?
  {
    RawTask(Some(x.title), Some(x.body.impact), Some(x.points), x.body.category,
            Some(x.body.estimatedTime), Some(x.body.howToComplete))
  }

  /** Every field the model fills in (non-empty, non-zero) is kept as
      written: validation only sets the id and clears the completion. */
  lemma ValidateKeepsWritten(x: Item, index: nat, category: string, now: int)
    requires x.body.TaskBody? && x.title != "" && x.points != 0 && x.body.impact != ""
    requires x.body.estimatedTime != "" && x.body.category.Some? && x.body.category.value != ""
    ensures Validate(Written(x), index, category, now) == x.(id := now + index, completed := false, completedAt := None)
  {
  }

  /** A task the model left bare gets the stock title, `medium` impact,
      `30 min` and no steps; its points follow the missing impact, so it
      is scored 100, not the 200 of a medium task. */
  lemma BareTask(index: nat, category: string, now: int)
    ensures var x := Validate(RawTask(None, None, None, None, None, None), index, category, now);
            && x.title == "Task " + IntToString(index + 1)
            && x.body.impact == "medium" && x.points == 100 && x.points != DefaultPoints(Some("medium"))
            && x.body.category == Some(category) && x.body.estimatedTime == "30 min" && x.body.howToComplete == []
  {
  }

  // ---------------------------------------------------------------------------
  // The built-in templates
  // ---------------------------------------------------------------------------

  /** A template task; its category is always the one it is listed under. */
  datatype Template = Template(title: string, impact: string, points: int, estimatedTime: string, steps: seq<string>)

  const Blank: Template := Template("", "", 0, "", [])

  /** The list of a category that has one: five templates. */
  type FiveTemplates = ts: seq<Template> | |ts| == 5 witness [Blank, Blank, Blank, Blank, Blank]

  /** The generic list: three templates. */
  type ThreeTemplates = ts: seq<Template> | |ts| == 3 witness [Blank, Blank, Blank]

  function Revenue(): FiveTemplates {
    var ts: seq<Template> :=
    [ Template("Reach out to 3 potential clients or customers", "high", 300, "45 min",
               ["Research 3 potential clients in your niche", "Craft personalized outreach messages",
                "Send emails or DMs with clear value proposition"]),
      Template("Follow up with 5 previous leads", "high", 250, "30 min",
               ["Review your lead list from the past week", "Send personalized follow-up messages",
                "Offer additional value or answer questions"]),
      Template("Create and post a case study or testimonial", "medium", 200, "45 min",
               ["Choose a successful client or project", "Write a detailed case study",
                "Post on your website or social media"]),
      Template("Update pricing page with current offers", "medium", 150, "20 min",
               ["Review your current pricing structure", "Update any outdated information",
                "Add clear call-to-action buttons"]),
      Template("Research competitor pricing strategies", "low", 100, "15 min",
               ["Identify 3 main competitors", "Review their pricing pages", "Document insights for your strategy"]) ];
    ts
  }

  function Audience(): FiveTemplates {
    var ts: seq<Template> :=
    [ Template("Post 3 pieces of valuable content across platforms", "high", 300, "1 hour",
               ["Create or curate valuable content", "Post on Instagram, Twitter, LinkedIn, or TikTok",
                "Engage with comments and responses"]),
      Template("Engage with 10 posts in your niche", "medium", 200, "30 min",
               ["Find posts from creators in your niche", "Leave thoughtful comments",
                "Share valuable insights or ask questions"]),
      Template("Send newsletter or email to your list", "high", 250, "45 min",
               ["Write valuable content for your subscribers", "Include a clear call-to-action",
                "Send and track open rates"]),
      Template("Update social media bio and links", "low", 100, "10 min",
               ["Review your current bio", "Update with latest achievements or offers", "Ensure links are working"]),
      Template("Collaborate with another creator", "medium", 200, "30 min",
               ["Identify a potential collaborator", "Reach out with collaboration idea",
                "Plan content or project together"]) ];
    ts
  }

  function Content(): FiveTemplates {
    var ts: seq<Template> :=
    [ Template("Create and publish 3 pieces of content", "high", 300, "1 hour",
               ["Brainstorm content ideas aligned with your niche", "Create content (video, post, article, etc.)",
                "Publish across your chosen platforms"]),
      Template("Plan next week's content calendar", "medium", 200, "30 min",
               ["List 7 content ideas", "Assign each to a day", "Note key topics and formats"]),
      Template("Engage with your audience comments", "medium", 150, "20 min",
               ["Review comments on recent posts", "Reply thoughtfully to each",
                "Ask follow-up questions to deepen engagement"]),
      Template("Research trending topics in your niche", "low", 100, "15 min",
               ["Check trending hashtags in your niche", "Review what competitors are posting",
                "Note ideas for future content"]),
      Template("Batch create 5 content pieces", "high", 250, "1 hour",
               ["Set aside focused time", "Create multiple pieces in one session", "Schedule them for the week"]) ];
    ts
  }

  function Marketing(): FiveTemplates {
    var ts: seq<Template> :=
    [ Template("Run a targeted ad campaign", "high", 300, "45 min",
               ["Define your target audience", "Create ad creative and copy",
                "Launch campaign and monitor performance"]),
      Template("Analyze campaign performance metrics", "medium", 200, "30 min",
               ["Review analytics from recent campaigns", "Identify top-performing content",
                "Adjust strategy based on insights"]),
      Template("Create a lead magnet or freebie", "high", 250, "1 hour",
               ["Choose valuable content to offer", "Design and create the lead magnet",
                "Set up landing page and email capture"]),
      Template("Engage in 3 relevant communities", "medium", 150, "30 min",
               ["Find active communities in your niche", "Share valuable insights", "Build relationships with members"]),
      Template("Update website SEO and meta descriptions", "low", 100, "20 min",
               ["Review key pages", "Optimize titles and descriptions", "Add relevant keywords"]) ];
    ts
  }

  function Skills(): FiveTemplates {
    var ts: seq<Template> :=
    [ Template("Complete a focused learning session", "high", 250, "1 hour",
               ["Choose a skill to develop", "Watch tutorial or read resource", "Practice what you learned"]),
      Template("Apply new skill to a real project", "high", 300, "1 hour",
               ["Identify a project to work on", "Use your new skill in practice", "Document what you learned"]),
      Template("Teach someone else what you learned", "medium", 200, "30 min",
               ["Explain concept to a friend or colleague", "Create a simple tutorial or post",
                "Answer questions about the topic"]),
      Template("Review and practice previous lessons", "medium", 150, "30 min",
               ["Review notes from past learning", "Practice exercises or drills",
                "Identify areas needing more practice"]),
      Template("Research advanced techniques in your skill", "low", 100, "20 min",
               ["Search for advanced resources", "Watch expert tutorials", "Take notes on key concepts"]) ];
    ts
  }

  /** The list for a category without its own. */
  function Generic(goalTitle: string): (ts: ThreeTemplates)
    ensures ts[0].title == "Work on " + goalTitle
  {
    var ts: seq<Template> :=
    [ Template("Work on " + goalTitle, "high", 200, "30 min",
               ["Break down your goal into specific steps", "Focus on one actionable task", "Track your progress"]),
      Template("Review and update your progress", "medium", 150, "15 min",
               ["Check your current progress", "Identify what's working", "Adjust your strategy if needed"]),
      Template("Research best practices in your niche", "low", 100, "20 min",
               ["Find resources in your category", "Read or watch tutorials", "Take notes on key insights"]) ];
    ts
  }

  /** The five categories with a list of their own. */
  datatype Listed = RevenueList | AudienceList | ContentList | MarketingList | SkillsList

  /** The key lookup in `categoryTasks`. */
  function Listing(category: string): (l: Option<Listed>)
    ensures l.Some? <==> category in {"revenue", "audience", "content", "marketing", "skills"}
  {
    if category == "revenue" then Some(RevenueList)
    else if category == "audience" then Some(AudienceList)
    else if category == "content" then Some(ContentList)
    else if category == "marketing" then Some(MarketingList)
    else if category == "skills" then Some(SkillsList)
    else None
  }

  predicate Known(category: string) {
    Listing(category).Some?
  }

  /** The entries of `categoryTasks`. */
  function ListOf(l: Listed): FiveTemplates {
    match l
    case RevenueList => Revenue()
    case AudienceList => Audience()
    case ContentList => Content()
    case MarketingList => Marketing()
    case SkillsList => Skills()
  }

  /** The template lists `generateFallbackTasks` draws from: the list of each
      category that has one, and the generic list built around the goal's
      title. The fallback is stated for every catalogue of this shape; what
      depends on the wording of the templates is stated for `Builtin`. */
  datatype Catalogue = Catalogue(listed: Listed -> FiveTemplates, generic: string -> ThreeTemplates)

  /** The lists the route writes out. */
  function Builtin(): Catalogue {
    Catalogue(ListOf, Generic)
  }

  /** The route's generic list is `Generic`, so it opens with "Work on" and
      the goal. */
  lemma BuiltinGeneric(goalTitle: string)
    ensures Builtin().generic(goalTitle) == Generic(goalTitle)
  {
  }

  /** `categoryTasks[category] || [generic list]`. */
  function Templates(cat: Catalogue, category: string, goalTitle: string): (ts: seq<Template>)
    ensures Known(category) ==> |ts| == 5 && ts == cat.listed(Listing(category).value)
    ensures !Known(category) ==> |ts| == 3 && ts == cat.generic(goalTitle)
  {
    match Listing(category)
    case Some(l) => cat.listed(l)
    case None => cat.generic(goalTitle)
  }

  /** The template as a fresh, uncompleted task with the given id. */
  function Instantiate(t: Template, category: string, id: int): (x: Item)
    ensures x.id == id && !x.completed && x.completedAt.None?
    ensures x.body == TaskBody(t.impact, Some(category), t.estimatedTime, t.steps)
    ensures x.title == t.title && x.points == t.points
  {
    Item(id, t.title, false, t.points, None, TaskBody(t.impact, Some(category), t.estimatedTime, t.steps))
  }

  /** The first `n` entries of the fallback loop: entry `i` is template
      `i mod |ts|` with id `now + i + 1`. */
  function Cycle(ts: seq<Template>, category: string, now: int, n: nat): (r: seq<Item>)
    requires |ts| > 0
    ensures |r| == n
    ensures forall i :: 0 <= i < n ==> r[i] == Instantiate(ts[i % |ts|], category, now + i + 1)
  {
    if n == 0 then [] else Cycle(ts, category, now, n - 1) + [Instantiate(ts[(n - 1) % |ts|], category, now + n)]
  }

  /** `generateFallbackTasks`. */
  function FallbackTasks(cat: Catalogue, category: string, goalTitle: string, now: int): (r: seq<Item>)
    ensures |r| == 10
    ensures forall i :: 0 <= i < 10 ==> r[i].id == now + i + 1 && !r[i].completed && r[i].completedAt.None?
  {
    var ts := Templates(cat, category, goalTitle);
    Cycle(ts, category, now, 10)
  }

  /** Ten fresh tasks with ids `now + 1` to `now + 10`, all in the requested
      category; entry `i` is template `i mod |templates|`. */
  lemma FallbackShape(cat: Catalogue, category: string, goalTitle: string, now: int)
    ensures var r := FallbackTasks(cat, category, goalTitle, now);
            var ts := Templates(cat, category, goalTitle);
            && |r| == 10
            && (forall i :: 0 <= i < 10 ==> r[i].id == now + i + 1 && !r[i].completed)
            && (forall i :: 0 <= i < 10 ==> r[i].body.TaskBody? && r[i].body.category == Some(category))
            && (forall i :: 0 <= i < 10 ==> r[i].title == ts[i % |ts|].title && r[i].points == ts[i % |ts|].points)
  {
  }

  /** A category with five templates lists each one twice: entries `i` and
      `i + 5` differ in their id only. */
  lemma FallbackRepeatsKnown(cat: Catalogue, category: string, goalTitle: string, now: int, i: int)
    requires Known(category) && 0 <= i < 5
    ensures var r := FallbackTasks(cat, category, goalTitle, now);
            r[i + 5] == r[i].(id := now + i + 6)
  {
    var ts := Templates(cat, category, goalTitle);
    assert (i + 5) % 5 == i % 5;
  }

  /** Any other category cycles the three generic templates, starting with
      the first of them. */
  lemma FallbackGeneric(cat: Catalogue, category: string, goalTitle: string, now: int)
    requires !Known(category)
    ensures var r := FallbackTasks(cat, category, goalTitle, now);
            && r[0].title == cat.generic(goalTitle)[0].title
            && forall i :: 0 <= i < 7 ==> r[i + 3] == r[i].(id := now + i + 4)
  {
    var r := FallbackTasks(cat, category, goalTitle, now);
    forall i | 0 <= i < 7 ensures r[i + 3] == r[i].(id := now + i + 4) {
      assert (i + 3) % 3 == i % 3;
    }
  }

  /** The loop of `generateFallbackTasks` as written. */
  method BuildFallback(cat: Catalogue, category: string, goalTitle: string, now: int) returns (full: seq<Item>)
    ensures |full| == 10
    ensures forall i :: 0 <= i < 10 ==>
              full[i] == Instantiate(Templates(cat, category, goalTitle)[i % |Templates(cat, category, goalTitle)|],
                                     category, now + i + 1)
  {
    var tasks := Templates(cat, category, goalTitle);
    full := [];
    for i := 0 to 10
      invariant |full| == i
      invariant forall j :: 0 <= j < i ==> full[j] == Instantiate(tasks[j % |tasks|], category, now + j + 1)
    {
      full := full + [Instantiate(tasks[i % |tasks|], category, now + i + 1)];
    }
  }

  // ---------------------------------------------------------------------------
  // The endpoint
  // ---------------------------------------------------------------------------

  /** The request body: unreadable, or the goal's title and category. */
  datatype Request = Unreadable | Request(goalTitle: string, category: string)

  /** The model call: the text it answered, or an error. */
  datatype ModelReply = Answered(text: string) | CallFailed

  /** What `JSON.parse` made of the cleaned text: not JSON, or a value that
      is an array of task objects or something else. */
  datatype Json = NotJson | NotArray | TaskArray(items: seq<RawTask>)

  /** A JSON reply with a task list, or a failure with no reply body of its
      own (the platform's generic server error). */
  datatype Response = Tasks(success: bool, tasks: seq<Item>) | ServerError

  /** The route once the body has been read: without a key, on any model
      error, or for an answer that is not a non-empty array, the fallback
      list; otherwise the validated answer. */
  function Answer(cat: Catalogue, goalTitle: string, category: string, hasKey: bool, reply: ModelReply,
                  parse: string -> Json, now: int): (r: Response)
    ensures r.Tasks? && r.success && 1 <= |r.tasks| <= 10
    ensures forall i :: 0 <= i < |r.tasks| ==> !r.tasks[i].completed && r.tasks[i].completedAt.None?
  {
    if !hasKey then Tasks(true, FallbackTasks(cat, category, goalTitle, now))
    else
      match reply
      case CallFailed => Tasks(true, FallbackTasks(cat, category, goalTitle, now))
      case Answered(text) =>
        match parse(StripFences(text))
        case TaskArray(items) =>
          if |items| == 0 then Tasks(true, FallbackTasks(cat, category, goalTitle, now))
          else Tasks(true, ValidateTasks(items, category, now))
        case _ => Tasks(true, FallbackTasks(cat, category, goalTitle, now))
  }

  /** The model's tasks are used exactly when there is a key, the call
      answered, and the cleaned answer parses to a non-empty array; every
      other path gives the fallback list. */
  lemma AnswerUsesModel(cat: Catalogue, goalTitle: string, category: string, hasKey: bool, reply: ModelReply,
                        parse: string -> Json, now: int)
    ensures var r := Answer(cat, goalTitle, category, hasKey, reply, parse, now);
            var used := hasKey && reply.Answered? && parse(StripFences(reply.text)).TaskArray?
                        && |parse(StripFences(reply.text)).items| > 0;
            && (used ==> r.tasks == ValidateTasks(parse(StripFences(reply.text)).items, category, now))
            && (!used ==> r.tasks == FallbackTasks(cat, category, goalTitle, now))
  {
  }

  /** `POST` as written. An unreadable body sends control to the outer
      handler, whose reply refers to `body`, a name declared inside the
      `try` block and not in scope there; the handler itself throws. */
  function GenerateTasks(cat: Catalogue, req: Request, hasKey: bool, reply: ModelReply, parse: string -> Json, now: int)
    : (r: Response)
    ensures r.ServerError? <==> req.Unreadable?
    ensures req.Request? ==> r == Answer(cat, req.goalTitle, req.category, hasKey, reply, parse, now)
  {
    match req
    case Unreadable => ServerError
    case Request(goalTitle, category) => Answer(cat, goalTitle, category, hasKey, reply, parse, now)
  }

  /** The as-written route never answers an unreadable body with a task list. */
  lemma UnreadableBodyFails(cat: Catalogue, hasKey: bool, reply: ModelReply, parse: string -> Json, now: int)
    ensures GenerateTasks(cat, Unreadable, hasKey, reply, parse, now) == ServerError
    ensures GenerateTasks(cat, Unreadable, hasKey, reply, parse, now) != Tasks(false, FallbackTasks(cat, "general", "your goal", now))
  {
  }

  /** `POST` as the outer handler means it: a failed request gets
      `success: false` with the general fallback list. */
  function GenerateTasksIntended(cat: Catalogue, req: Request, hasKey: bool, reply: ModelReply, parse: string -> Json, now: int)
    : (r: Response)
    ensures r.Tasks? && 1 <= |r.tasks| <= 10
    ensures r.success <==> req.Request?
  {
    match req
    case Unreadable => Tasks(false, FallbackTasks(cat, "general", "your goal", now))
    case Request(goalTitle, category) => Answer(cat, goalTitle, category, hasKey, reply, parse, now)
  }

  /** With the handler corrected, every request gets a task list, and the
      two versions agree on every readable request. An unreadable body gets
      the list for "your goal", which with the route's own templates
      (`BuiltinGeneric`) opens with "Work on your goal". */
  lemma IntendedAlwaysAnswers(cat: Catalogue, req: Request, hasKey: bool, reply: ModelReply, parse: string -> Json, now: int)
    ensures GenerateTasksIntended(cat, req, hasKey, reply, parse, now).Tasks?
    ensures req.Request? ==>
              GenerateTasksIntended(cat, req, hasKey, reply, parse, now) == GenerateTasks(cat, req, hasKey, reply, parse, now)
    ensures req.Unreadable? ==>
              GenerateTasksIntended(cat, req, hasKey, reply, parse, now).tasks
              == FallbackTasks(cat, "general", "your goal", now)
    ensures req.Unreadable? ==>
              GenerateTasksIntended(cat, req, hasKey, reply, parse, now).tasks[0].title == cat.generic("your goal")[0].title
  {
    if req.Unreadable? {
      GeneralIsGeneric();
      FallbackGeneric(cat, "general", "your goal", now);
    }
  }

  /** "general" has no list of its own. */
  lemma GeneralIsGeneric()
    ensures !Known("general")
  {
  }
}
