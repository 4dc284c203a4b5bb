/** The opportunity marketplace page (app/marketplace/page.tsx): how live and
    mock opportunities are combined, the filter bar's predicate, and the
    applied and saved id lists. */
module Marketplace {
  import opened Base
  import opened Strings

  /** An opportunity; `deadlineDay` is the day its deadline falls on, `None`
      when the deadline does not parse as a date. */
  datatype Opportunity = Opportunity(
    id: string, title: string, description: string, company: string,
    category: string, isRemote: bool, isPaid: bool, payout: string,
    mood: seq<string>, deadlineDay: Option<int>)

  datatype Filters = Filters(category: string, deadline: string, remote: string,
                             paid: string, mood: string, search: string)

  const NoFilters: Filters := Filters("All", "All", "All", "All", "All", "")

  /** `allOpportunities`: live jobs first when they are switched on and
      present, mock data first otherwise. */
  function AllOpportunities(mock: seq<Opportunity>, live: seq<Opportunity>, useLive: bool): (r: seq<Opportunity>)
    ensures |r| == |mock| + |live|
    ensures useLive && |live| > 0 ==> r[..|live|] == live && r[|live|..] == mock
    ensures !(useLive && |live| > 0) ==> r[..|mock|] == mock && r[|mock|..] == live
  {
    if useLive && |live| > 0 then live + mock else mock + live
  }

  // The individual tests of the filter bar.

  predicate SearchMatches(o: Opportunity, q: string) {
    Contains(Lower(o.title), Lower(q)) || Contains(Lower(o.description), Lower(q))
    || Contains(Lower(o.company), Lower(q))
  }

  predicate SearchOk(o: Opportunity, q: string) {
    q == "" || SearchMatches(o, q)
  }

  predicate CategoryOk(o: Opportunity, c: string) {
    c == "All" || o.category == c
  }

  predicate RemoteOk(o: Opportunity, r: string) {
    (r == "Remote" ==> o.isRemote) && (r == "Local" ==> !o.isRemote)
  }

  predicate PaidOk(o: Opportunity, p: string) {
    (p == "Paid" ==> o.isPaid) && (p == "Unpaid" ==> !o.isPaid)
    && (p == "Prize" ==> Contains(o.payout, "Prize"))
  }

  predicate MoodOk(o: Opportunity, m: string) {
    m == "All" || Lower(m) in o.mood
  }

  predicate DeadlineOk(o: Opportunity, d: string, today: int) {
    d == "Today" ==> o.deadlineDay == Some(today)
  }

  /** The predicate of `filteredOpportunities`, as the chain of early
      `return false` tests it is written as. */
  predicate Keep(o: Opportunity, f: Filters, today: int)
    ensures Keep(o, f, today) ==>
              SearchOk(o, f.search) && CategoryOk(o, f.category) && RemoteOk(o, f.remote)
              && PaidOk(o, f.paid) && MoodOk(o, f.mood) && DeadlineOk(o, f.deadline, today)
  {
    if f.search != "" && !Contains(Lower(o.title), Lower(f.search))
       && !Contains(Lower(o.description), Lower(f.search))
       && !Contains(Lower(o.company), Lower(f.search)) then false
    else if f.category != "All" && o.category != f.category then false
    else if f.remote == "Remote" && !o.isRemote then false
    else if f.remote == "Local" && o.isRemote then false
    else if f.paid == "Paid" && !o.isPaid then false
    else if f.paid == "Unpaid" && o.isPaid then false
    else if f.paid == "Prize" && !Contains(o.payout, "Prize") then false
    else if f.mood != "All" && Lower(f.mood) !in o.mood then false
    else if f.deadline == "Today" && o.deadlineDay != Some(today) then false
    else true
  }

  /** The chain keeps an opportunity exactly when it passes every test. */
  lemma KeepIsConjunction(o: Opportunity, f: Filters, today: int)
    ensures Keep(o, f, today) <==>
              SearchOk(o, f.search) && CategoryOk(o, f.category) && RemoteOk(o, f.remote)
              && PaidOk(o, f.paid) && MoodOk(o, f.mood) && DeadlineOk(o, f.deadline, today)
  {
  }

  function KeepFn(f: Filters, today: int): Opportunity -> bool {
    o => Keep(o, f, today)
  }

  /** `filteredOpportunities`: the kept opportunities, in their order. */
  function Filtered(all: seq<Opportunity>, f: Filters, today: int): (r: seq<Opportunity>)
    ensures Subsequence(r, all)
    ensures forall i :: 0 <= i < |r| ==> Keep(r[i], f, today)
    ensures forall i :: 0 <= i < |all| && Keep(all[i], f, today) ==> all[i] in r
    ensures |r| == Count(all, KeepFn(f, today))
  {
    FilterIsSubsequence(all, KeepFn(f, today));
    Filter(all, KeepFn(f, today))
  }

  /** With every filter on "All" and no search, nothing is removed. */
  lemma NoFiltersKeepsAll(all: seq<Opportunity>, today: int)
    ensures Filtered(all, NoFilters, today) == all
  {
    FilterKeepsAll(all, KeepFn(NoFilters, today));
  }

  /** With only a search set, an opportunity stays exactly when the
      lower-cased query occurs in its lower-cased title, description or
      company. */
  lemma SearchOnly(o: Opportunity, q: string, today: int)
    requires q != ""
    ensures Keep(o, NoFilters.(search := q), today) <==> SearchMatches(o, q)
  {
  }

  /** "Remote" and "Local" split the opportunities between them, and so do
      "Paid" and "Unpaid"; "Prize" asks for "Prize" in the payout. */
  lemma ComplementaryFilters(o: Opportunity)
    ensures RemoteOk(o, "Remote") != RemoteOk(o, "Local")
    ensures PaidOk(o, "Paid") != PaidOk(o, "Unpaid")
    ensures PaidOk(o, "Prize") <==> Contains(o.payout, "Prize")
  {
  }

  predicate NoDuplicates(xs: seq<string>) {
    forall i, j :: 0 <= i < j < |xs| ==> xs[i] != xs[j]
  }

  /** `handleApply`: the id is recorded once. */
  function Apply(applications: seq<string>, id: string): (r: seq<string>)
    ensures id in r
    ensures id in applications ==> r == applications
    ensures id !in applications ==> r == applications + [id]
    ensures NoDuplicates(applications) ==> NoDuplicates(r)
  {
    if id in applications then applications else applications + [id]
  }

  lemma ApplyIdempotent(applications: seq<string>, id: string)
    ensures Apply(Apply(applications, id), id) == Apply(applications, id)
  {
  }

  /** `handleSave`: flips whether the id is saved; every other id keeps its
      status, and saving twice restores the saved set. */
  function Save(saved: seq<string>, id: string): (r: seq<string>)
    ensures id in r <==> id !in saved
    ensures forall other :: other != id ==> (other in r <==> other in saved)
  {
    ToggleMember(saved, id)
  }

  lemma SaveTwice(saved: seq<string>, id: string)
    ensures forall other :: other in Save(Save(saved, id), id) <==> other in saved
  {
    ToggleMemberTwice(saved, id);
  }
}
