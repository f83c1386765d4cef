/**
 * The board chart (`components/OrgChart.tsx`): the skeleton shown for an empty
 * roster, and otherwise the officers and directors picked from the member list.
 */
module OrgChart {
  import opened Wrappers
  import opened ArrayOps

  /** A board member as the chart reads it; the optional fields come from a profile lookup. */
  datatype BoardMember = BoardMember(
    name: string,
    title: string,
    photoUrl: Option<string>,
    linkedInUrl: Option<string>,
    headline: Option<string>)

  /** A placeholder card: the title it stands for and whether it is marked required. */
  datatype SkeletonCard = SkeletonCard(title: string, required: bool)

  /** What the chart draws. */
  datatype ChartView =
    | Skeleton(officers: seq<SkeletonCard>, directorSlots: seq<SkeletonCard>)
    | Roster(president: Option<BoardMember>, secretary: Option<BoardMember>, treasurer: Option<BoardMember>,
             directors: seq<BoardMember>, showDirectors: bool)

  function HasTitle(title: string): BoardMember -> bool {
    (m: BoardMember) => m.title == title
  }

  /** `members[i]` is the first member holding exactly `title`. */
  predicate FirstWithTitle(members: seq<BoardMember>, title: string, i: int) {
    0 <= i < |members| && members[i].title == title && forall k :: 0 <= k < i ==> members[k].title != title
  }

  /** The member shown for an officer's title: the first one holding it. */
  function Officer(members: seq<BoardMember>, title: string): (r: Option<BoardMember>)
    ensures r.None? <==> forall k :: 0 <= k < |members| ==> members[k].title != title
    ensures forall i :: FirstWithTitle(members, title, i) ==> r == Some(members[i])
  {
    Find(members, HasTitle(title))
  }

  /** Every member titled exactly Director, in list order. */
  function Directors(members: seq<BoardMember>): (r: seq<BoardMember>)
    ensures forall k :: 0 <= k < |r| ==> r[k].title == "Director"
  {
    Filter(members, HasTitle("Director"))
  }

  /** The chart for a roster. */
  function Render(members: seq<BoardMember>): (r: ChartView)
    ensures r.Skeleton? <==> members == []
    ensures r.Skeleton? ==> |r.officers| == 3 && |r.directorSlots| == 3
    ensures r.Skeleton? ==> forall k :: 0 <= k < 3 ==> r.directorSlots[k] == SkeletonCard("Director", false)
    ensures r.Skeleton? ==> r.officers[0].title == "President" && r.officers[0].required
    ensures r.Skeleton? ==> r.officers[1].title == "Secretary" && r.officers[1].required
    ensures r.Skeleton? ==> r.officers[2].title == "Treasurer" && !r.officers[2].required
    ensures r.Roster? ==> r.president == Officer(members, "President") && r.secretary == Officer(members, "Secretary")
    ensures r.Roster? ==> r.treasurer == Officer(members, "Treasurer") && r.directors == Directors(members)
    ensures r.Roster? ==> (r.showDirectors <==> exists k :: 0 <= k < |members| && members[k].title == "Director")
  {
    if members == [] then
      Skeleton([SkeletonCard("President", true), SkeletonCard("Secretary", true), SkeletonCard("Treasurer", false)],
               [SkeletonCard("Director", false), SkeletonCard("Director", false), SkeletonCard("Director", false)])
    else
      var directors := Directors(members);
      DirectorsRowShown(members);
      Roster(Officer(members, "President"), Officer(members, "Secretary"), Officer(members, "Treasurer"),
             directors, |directors| > 0)
  }

  /** The directors row appears exactly when some member is titled Director. */
  lemma DirectorsRowShown(members: seq<BoardMember>)
    ensures |Directors(members)| > 0 <==> exists k :: 0 <= k < |members| && members[k].title == "Director"
  {
    var d := Directors(members);
    if |d| > 0 {
      DirectorsCount(members, d[0]);
      assert d[0] in multiset(d);
      assert d[0] in members;
    }
    if exists k :: 0 <= k < |members| && members[k].title == "Director" {
      var k :| 0 <= k < |members| && members[k].title == "Director";
      DirectorsCount(members, members[k]);
      assert members[k] in multiset(members);
      assert members[k] in multiset(Directors(members));
    }
  }

  /** Each director appears as often as in the roster; no one else appears. */
  lemma DirectorsCount(members: seq<BoardMember>, m: BoardMember)
    ensures multiset(Directors(members))[m] == if m.title == "Director" then multiset(members)[m] else 0
  {
    FilterCounts(members, HasTitle("Director"), m);
  }

  /** The directors keep the roster's order: splitting the roster splits the row. */
  lemma DirectorsKeepOrder(front: seq<BoardMember>, back: seq<BoardMember>)
    ensures Directors(front + back) == Directors(front) + Directors(back)
  {
    FilterAppend(front, back, HasTitle("Director"));
  }

  /** A member whose title is none of the four the chart knows is drawn nowhere. */
  lemma OtherTitlesHidden(members: seq<BoardMember>, m: BoardMember)
    requires m.title !in {"President", "Secretary", "Treasurer", "Director"}
    ensures var r := Render(members);
      r.Roster? ==> r.president != Some(m) && r.secretary != Some(m) && r.treasurer != Some(m) && m !in r.directors
  {
    DirectorsCount(members, m);
  }
}
