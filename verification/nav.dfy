/** The top navigation bar (components/horizontal-nav.tsx): which item is
    active for a path, the icon colours, the feature keys behind the "new"
    badges, and the saved-analyses counter. */
module Nav {
  import opened Base
  import opened Strings

  datatype NavItem = NavItem(name: string, href: string)

  const NavigationItems: seq<NavItem> := [
    NavItem("Home", "/"),
    NavItem("Discover", "/discover"),
    NavItem("HypeOS", "/hypeos"),
    NavItem("Bizora AI", "/bizora"),
    NavItem("SkillDrops", "/skilldrops"),
    NavItem("FlowMatch", "/flowmatch"),
    NavItem("PitchPoint", "/marketplace"),
    NavItem("Competitor Intelligence Dashboard", "/dreampulse")
  ]

  /** An item is active on its own path, and, unless it is the home item,
      on every path that starts with its href. */
  predicate IsActive(pathname: string, href: string)
    ensures IsActive(pathname, href) ==> StartsWith(pathname, href)
    ensures href != "/" && StartsWith(pathname, href) ==> IsActive(pathname, href)
  {
    pathname == href || (href != "/" && StartsWith(pathname, href))
  }

  /** Home is active on "/" only; every other item is active exactly on the
      paths its href is a prefix of. */
  lemma ActiveRule(pathname: string, href: string)
    ensures href == "/" ==> (IsActive(pathname, href) <==> pathname == "/")
    ensures href != "/" ==> (IsActive(pathname, href) <==> StartsWith(pathname, href))
  {
  }

  /** The prefix test is on characters, not path segments: "/hypeos" is
      also active on "/hypeosx". */
  lemma PrefixIsNotSegmentAware()
    ensures IsActive("/hypeosx", "/hypeos")
  {
    assert "/hypeosx"[..|"/hypeos"|] == "/hypeos";
  }

  const DefaultBlue: string := "#2563eb"

  /** The labels `getIconColor` gives a colour other than by its default. */
  const ColouredLabels: set<string> := {"Discover", "Projects", "Studio", "HypeOS", "Bizora AI", "SkillDrops",
                                        "FlowMatch", "PitchPoint", "Publishing", "Settings",
                                        "Competitor Intelligence Dashboard"}

  /** `getIconColor`. */
  function IconColor(name: string): (c: string)
    ensures name !in ColouredLabels ==> c == DefaultBlue
    ensures name == "Settings" <==> c == "#6b7280"
  {
    if name == "Discover" then "#22c55e"
    else if name == "Projects" then "#ec4899"
    else if name == "Studio" then "#eab308"
    else if name == "HypeOS" then "#a855f7"
    else if name == "Bizora AI" then "#ef4444"
    else if name == "SkillDrops" then "#2563eb"
    else if name == "FlowMatch" then "#8b5cf6"
    else if name == "PitchPoint" then "#22c55e"
    else if name == "Publishing" then "#eab308"
    else if name == "Settings" then "#6b7280"
    else if name == "Competitor Intelligence Dashboard" then "#2563eb"
    else DefaultBlue
  }

  /** The label-to-feature mapping shared by the badge and the click handler. */
  function FeatureKey(name: string): (k: Option<string>)
    ensures k.Some? <==> name in {"Discover", "Bizora AI", "SkillDrops", "FlowMatch", "PitchPoint", "HypeOS"}
  {
    if name == "Discover" then Some("discover")
    else if name == "Bizora AI" then Some("bizora")
    else if name == "SkillDrops" then Some("skilldrops")
    else if name == "FlowMatch" then Some("flowmatch")
    else if name == "PitchPoint" then Some("pitchpoint")
    else if name == "HypeOS" then Some("hypeos")
    else None
  }

  /** `shouldShowNotification`, given which features have unseen updates. */
  function ShowsBadge(name: string, unseen: set<string>): (b: bool)
    ensures FeatureKey(name).None? ==> !b
    ensures FeatureKey(name).Some? ==> (b <==> FeatureKey(name).value in unseen)
  {
    match FeatureKey(name)
    case Some(k) => k in unseen
    case None => false
  }

  /** `handleNavClick`: marks the label's feature as seen. */
  function NavClick(name: string, unseen: set<string>): (r: set<string>)
    ensures r <= unseen
    ensures FeatureKey(name).None? ==> r == unseen
    ensures FeatureKey(name).Some? ==> r == unseen - {FeatureKey(name).value}
  {
    match FeatureKey(name)
    case Some(k) => unseen - {k}
    case None => unseen
  }

  /** Clicking an item clears its own badge and no other. */
  lemma ClickClearsOwnBadge(name: string, other: string, unseen: set<string>)
    ensures !ShowsBadge(name, NavClick(name, unseen))
    ensures FeatureKey(other) != FeatureKey(name) ==>
              ShowsBadge(other, NavClick(name, unseen)) == ShowsBadge(other, unseen)
  {
  }

  /** The stored saved-analyses value as `JSON.parse` sees it; `Missing`
      covers an absent key and the empty string. */
  datatype Saved = Missing | Unparsable | ParsedArray(length: nat) | ParsedOther

  /** The saved-analyses counter. */
  function SavedCount(v: Saved): (n: nat)
    ensures v.ParsedArray? ==> n == v.length
    ensures !v.ParsedArray? ==> n == 0
  {
    match v
    case ParsedArray(len) => len
    case _ => 0
  }
}
