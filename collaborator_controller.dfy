/** The collaborator-facing reads of controllers/collaboratorController.js:
    `getMatches` (score the discoverable projects, keep those above 10, best
    first), `getDashboardStats` (counts and the mean match score) and
    `getApplications` (one summary entry per project the user applied to).

    The database queries become filters over the stored projects; the scorer is
    `MatchingEngine.CalculateMatchScore`. */
module CollaboratorController {
  import opened Common
  import opened ProjectModel
  import MatchingEngine

  /** Scores above this are matches. */
  const MatchThreshold: int := 10

  // ---------------------------------------------------------------------------
  // getMatches

  /** A project with its score and reasons attached. */
  datatype Match = Match(project: ProjectDoc, matchScore: int, matchReasons: seq<MatchingEngine.Reason>)

  /** `Project.find({ projectStatus: "active" })`. */
  function ActiveProjects(projects: seq<ProjectDoc>): (r: seq<ProjectDoc>)
    ensures forall d :: d in r ==> d in projects && d.projectStatus == Active
    ensures forall d :: multiset(r)[d] == if d.projectStatus == Active then multiset(projects)[d] else 0
  {
    if projects == [] then []
    else
      assert projects == [projects[0]] + projects[1..];
      (if projects[0].projectStatus == Active then [projects[0]] else []) + ActiveProjects(projects[1..])
  }

  /** `projects.map(...)`: each project with its score. */
  function ScoreAll(profile: Option<MatchingEngine.Profile>, projects: seq<ProjectDoc>): (ms: seq<Match>)
    ensures |ms| == |projects|
    ensures forall i :: 0 <= i < |ms| ==> ms[i].project == projects[i] && 0 <= ms[i].matchScore <= 100
    ensures forall i :: 0 <= i < |ms| ==>
      && ms[i].matchScore == ScoreOf(profile, projects[i])
      && ms[i].matchReasons == MatchingEngine.CalculateMatchScore(profile, NeedsOf(projects[i])).reasons
  {
    seq(|projects|, i requires 0 <= i < |projects| =>
      var r := MatchingEngine.CalculateMatchScore(profile, NeedsOf(projects[i]));
      Match(projects[i], r.score, r.reasons))
  }

  /** `.filter(p => p.matchScore > 10)`. */
  function AboveThreshold(ms: seq<Match>): (r: seq<Match>)
    ensures forall m :: m in r ==> m in ms && m.matchScore > MatchThreshold
  {
    if ms == [] then []
    else (if ms[0].matchScore > MatchThreshold then [ms[0]] else []) + AboveThreshold(ms[1..])
  }

  /** The filter keeps every passing match as often as it occurs, and no other. */
  lemma {:induction false} AboveThresholdCounts(ms: seq<Match>)
    ensures forall m :: multiset(AboveThreshold(ms))[m] == (if m.matchScore > MatchThreshold then multiset(ms)[m] else 0)
  {
    if ms != [] {
      AboveThresholdCounts(ms[1..]);
      assert ms == [ms[0]] + ms[1..];
    }
  }

  predicate Descending(ms: seq<Match>)
  {
    forall i, j :: 0 <= i < j < |ms| ==> ms[i].matchScore >= ms[j].matchScore
  }

  /** Places `m` before the first entry scoring no more than it; exactly `m` is
      added. */
  function Insert(m: Match, ms: seq<Match>): (r: seq<Match>)
    ensures multiset(r) == multiset(ms) + multiset{m}
    ensures |r| == |ms| + 1
  {
    if ms == [] || m.matchScore >= ms[0].matchScore then [m] + ms
    else
      assert ms == [ms[0]] + ms[1..];
      [ms[0]] + Insert(m, ms[1..])
  }

  /** A descending list stays descending under a head no smaller than any entry. */
  lemma HeadDescending(a: Match, rest: seq<Match>)
    requires Descending(rest)
    requires forall x :: x in rest ==> a.matchScore >= x.matchScore
    ensures Descending([a] + rest)
  {
    var s := [a] + rest;
    forall i, j | 0 <= i < j < |s|
      ensures s[i].matchScore >= s[j].matchScore
    {
      assert s[j] == rest[j - 1];
      if i == 0 {
        assert rest[j - 1] in rest;
      } else {
        assert s[i] == rest[i - 1];
      }
    }
  }

  lemma {:induction false} InsertKeeps(m: Match, ms: seq<Match>)
    requires Descending(ms)
    ensures Descending(Insert(m, ms))
    ensures multiset(Insert(m, ms)) == multiset(ms) + multiset{m}
    ensures |Insert(m, ms)| == |ms| + 1
    ensures forall x :: x in Insert(m, ms) ==> x == m || x in ms
  {
    forall x | x in Insert(m, ms)
      ensures x == m || x in ms
    {
      assert x in multiset(Insert(m, ms));
    }
    if ms == [] {
    } else if m.matchScore >= ms[0].matchScore {
      forall x | x in ms
        ensures m.matchScore >= x.matchScore
      {
        var j :| 0 <= j < |ms| && ms[j] == x;
        if j > 0 {
          assert ms[0].matchScore >= ms[j].matchScore;
        }
      }
      HeadDescending(m, ms);
    } else {
      var tail := ms[1..];
      assert Descending(tail) by {
        forall i, j | 0 <= i < j < |tail|
          ensures tail[i].matchScore >= tail[j].matchScore
        {
          assert tail[i] == ms[i + 1] && tail[j] == ms[j + 1];
        }
      }
      InsertKeeps(m, tail);
      var rest := Insert(m, tail);
      forall x | x in rest
        ensures ms[0].matchScore >= x.matchScore
      {
        if x != m {
          var j :| 0 <= j < |tail| && tail[j] == x;
          assert ms[j + 1] == x;
        }
      }
      HeadDescending(ms[0], rest);
    }
  }

  /** `.sort((a, b) => b.matchScore - a.matchScore)`: an insertion sort, stable as
      JavaScript's `sort` is, largest score first. */
  function SortByScore(ms: seq<Match>): (r: seq<Match>)
    ensures multiset(r) == multiset(ms)
  {
    if ms == [] then []
    else
      assert ms == [ms[0]] + ms[1..];
      Insert(ms[0], SortByScore(ms[1..]))
  }

  /** The sort orders the matches and is a permutation of them. */
  lemma {:induction false} SortByScoreSorts(ms: seq<Match>)
    ensures Descending(SortByScore(ms))
    ensures multiset(SortByScore(ms)) == multiset(ms)
  {
    if ms != [] {
      SortByScoreSorts(ms[1..]);
      InsertKeeps(ms[0], SortByScore(ms[1..]));
      assert ms == [ms[0]] + ms[1..];
    }
  }

  /** The `matches` list of `getMatches`. */
  function GetMatches(profile: Option<MatchingEngine.Profile>, projects: seq<ProjectDoc>): (r: seq<Match>)
    ensures forall m :: m in r ==>
      && m.project in projects && m.project.projectStatus == Active && MatchThreshold < m.matchScore <= 100
  {
    var active := ActiveProjects(projects);
    var scored := ScoreAll(profile, active);
    var kept := AboveThreshold(scored);
    ScoredProjects(profile, active);
    assert forall m :: m in SortByScore(kept) ==> m in multiset(kept);
    SortByScore(kept)
  }

  /** Every scored entry carries one of the scored projects. */
  lemma ScoredProjects(profile: Option<MatchingEngine.Profile>, projects: seq<ProjectDoc>)
    ensures forall m :: m in ScoreAll(profile, projects) ==> m.project in projects
  {
    var ms := ScoreAll(profile, projects);
    forall m | m in ms
      ensures m.project in projects
    {
      var i :| 0 <= i < |ms| && ms[i] == m;
    }
  }

  /** Every returned project is active and scores above 10, the list is best-first,
      and it holds each active project scoring above 10, with its score, exactly
      once. */
  lemma GetMatchesSpec(profile: Option<MatchingEngine.Profile>, projects: seq<ProjectDoc>)
    ensures var r := GetMatches(profile, projects);
      var scored := ScoreAll(profile, ActiveProjects(projects));
      && Descending(r)
      && (forall m :: m in r ==> MatchThreshold < m.matchScore <= 100 && m.project.projectStatus == Active)
      && (forall m :: multiset(r)[m] == (if m.matchScore > MatchThreshold then multiset(scored)[m] else 0))
  {
    var scored := ScoreAll(profile, ActiveProjects(projects));
    var kept := AboveThreshold(scored);
    SortByScoreSorts(kept);
    AboveThresholdCounts(scored);
    forall m | m in GetMatches(profile, projects)
      ensures MatchThreshold < m.matchScore <= 100 && m.project.projectStatus == Active
    {
      assert m in multiset(kept);
      assert m in scored;
    }
  }

  // ---------------------------------------------------------------------------
  // getDashboardStats

  datatype Stats = Stats(matchesReceived: nat, projectsJoined: nat, completedProjects: nat, matchScore: int)

  /** `Project.find({ projectStatus: { $ne: "draft" } })`. */
  function NonDraft(projects: seq<ProjectDoc>): (r: seq<ProjectDoc>)
    ensures |r| <= |projects|
    ensures forall d :: d in r ==> d.projectStatus != Draft
    ensures forall d :: multiset(r)[d] == if d.projectStatus != Draft then multiset(projects)[d] else 0
  {
    if projects == [] then []
    else
      assert projects == [projects[0]] + projects[1..];
      (if projects[0].projectStatus != Draft then [projects[0]] else []) + NonDraft(projects[1..])
  }

  /** `Project.find({ "applicants.user": userId })`. */
  function AppliedTo(projects: seq<ProjectDoc>, u: UserId): (r: seq<ProjectDoc>)
    ensures |r| <= |projects|
    ensures forall d :: d in r <==> d in projects && HasApplied(d.applicants, u)
  {
    if projects == [] then []
    else (if HasApplied(projects[0].applicants, u) then [projects[0]] else []) + AppliedTo(projects[1..], u)
  }

  /** The score `calculateMatchScore` gives one project. */
  function ScoreOf(profile: Option<MatchingEngine.Profile>, d: ProjectDoc): (s: int)
    ensures 0 <= s <= 100
  {
    MatchingEngine.CalculateMatchScore(profile, NeedsOf(d)).score
  }

  /** The score of each project, in order. */
  function ProjectScores(profile: Option<MatchingEngine.Profile>, projects: seq<ProjectDoc>): (s: seq<int>)
    ensures |s| == |projects|
    ensures forall i :: 0 <= i < |s| ==> s[i] == ScoreOf(profile, projects[i]) && 0 <= s[i] <= 100
  {
    seq(|projects|, i requires 0 <= i < |projects| => ScoreOf(profile, projects[i]))
  }

  /** The scores above the threshold, in order: `if (score > 10)` in the loop. */
  function MatchScores(scores: seq<int>): (m: seq<int>)
    ensures |m| <= |scores|
    ensures forall x :: x in m ==> x in scores && x > MatchThreshold
  {
    if scores == [] then []
    else (if scores[0] > MatchThreshold then [scores[0]] else []) + MatchScores(scores[1..])
  }

  lemma {:induction false} MatchScoresAppend(scores: seq<int>, x: int)
    ensures MatchScores(scores + [x]) == MatchScores(scores) + (if x > MatchThreshold then [x] else [])
  {
    if scores == [] {
      assert scores + [x] == [x];
      assert MatchScores([x]) == (if x > MatchThreshold then [x] else []) + MatchScores([]);
    } else {
      assert (scores + [x])[1..] == scores[1..] + [x];
      MatchScoresAppend(scores[1..], x);
    }
  }

  function Sum(xs: seq<int>): int
  {
    if xs == [] then 0 else xs[0] + Sum(xs[1..])
  }

  lemma {:induction false} SumAppend(xs: seq<int>, ys: seq<int>)
    ensures Sum(xs + ys) == Sum(xs) + Sum(ys)
  {
    if xs == [] {
      assert xs + ys == ys;
    } else {
      assert (xs + ys)[1..] == xs[1..] + ys;
      SumAppend(xs[1..], ys);
    }
  }

  /** `Math.round(total / count)`, or 0 when there is no match. */
  function RoundedMean(total: int, count: nat): (r: int)
    ensures count == 0 ==> r == 0
    ensures count > 0 ==> count * (2 * r - 1) <= 2 * total < count * (2 * r + 1)
  {
    if count == 0 then 0 else (2 * total + count) / (2 * count)
  }

  lemma {:induction false} SumWithin(xs: seq<int>, lo: int, hi: int)
    requires forall x :: x in xs ==> lo <= x <= hi
    ensures lo * |xs| <= Sum(xs) <= hi * |xs|
  {
    if xs == [] {
      assert lo * |xs| == 0 == hi * |xs|;
    } else {
      var t := xs[1..];
      assert xs[0] in xs;
      forall x | x in t
        ensures lo <= x <= hi
      {
        var j :| 0 <= j < |t| && t[j] == x;
        assert xs[j + 1] == x && xs[j + 1] in xs;
      }
      SumWithin(t, lo, hi);
      MulSucc(lo, |t|);
      MulSucc(hi, |t|);
    }
  }

  lemma MulSucc(a: int, n: nat)
    ensures a * (n + 1) == a + a * n
  {
  }

  /** The mean of match scores is itself a match score: in [11, 100]. */
  lemma MeanWithin(xs: seq<int>)
    requires xs != []
    requires forall x :: x in xs ==> MatchThreshold < x <= 100
    ensures MatchThreshold < RoundedMean(Sum(xs), |xs|) <= 100
  {
    var c := |xs|;
    SumWithin(xs, 11, 100);
    var q := RoundedMean(Sum(xs), c);
    MatchingEngine.DivBounds(2 * Sum(xs) + c, 2 * c);
    if q < 11 {
      MatchingEngine.MulLeftMono(2 * c, q, 10);
    }
    if q > 100 {
      MatchingEngine.MulLeftMono(2 * c, 101, q);
    }
  }

  /** `(applicant accepted or team member) && lifecycleStage !== 'completed'`. */
  predicate Joined(d: ProjectDoc, u: UserId)
  {
    && ((exists i :: 0 <= i < |d.applicants| && d.applicants[i].user == u && d.applicants[i].status == Accepted)
        || InTeam(d.team, u))
    && d.lifecycleStage != Finished
  }

  function CountJoined(ds: seq<ProjectDoc>, u: UserId): (n: nat)
    ensures n <= |ds|
    ensures n == 0 <==> forall d :: d in ds ==> !Joined(d, u)
  {
    if ds == [] then 0 else (if Joined(ds[0], u) then 1 else 0) + CountJoined(ds[1..], u)
  }

  function CountCompleted(ds: seq<ProjectDoc>): (n: nat)
    ensures n <= |ds|
    ensures n == 0 <==> forall d :: d in ds ==> d.lifecycleStage != Finished
  {
    if ds == [] then 0 else (if ds[0].lifecycleStage == Finished then 1 else 0) + CountCompleted(ds[1..])
  }

  /** A joined project is never a completed one, so the two counts never exceed
      the number of applications. */
  lemma {:induction false} JoinedAndCompletedDisjoint(ds: seq<ProjectDoc>, u: UserId)
    ensures CountJoined(ds, u) + CountCompleted(ds) <= |ds|
  {
    if ds != [] {
      JoinedAndCompletedDisjoint(ds[1..], u);
    }
  }

  lemma PrefixStep(s: seq<int>, i: nat)
    requires i < |s|
    ensures s[..i + 1] == s[..i] + [s[i]]
  {
  }

  /** The scores of one more project extend the scores so far by its score. */
  lemma ScoresPrefix(profile: Option<MatchingEngine.Profile>, ps: seq<ProjectDoc>, i: nat)
    requires i < |ps|
    ensures ProjectScores(profile, ps)[..i + 1] == ProjectScores(profile, ps)[..i] + [ScoreOf(profile, ps[i])]
  {
    var s := ProjectScores(profile, ps);
    assert s[i] == ScoreOf(profile, ps[i]);
    PrefixStep(s, i);
  }

  /** One pass of the `forEach` body: the project is scored, and a score above the
      threshold is added to the running total and counted. */
  method CountMatch(profile: Option<MatchingEngine.Profile>, project: ProjectDoc, ghost before: seq<int>,
                    totalScore: int, matchCount: nat)
    returns (totalScore': int, matchCount': nat)
    requires totalScore == Sum(MatchScores(before)) && matchCount == |MatchScores(before)|
    ensures var after := MatchScores(before + [ScoreOf(profile, project)]);
      totalScore' == Sum(after) && matchCount' == |after|
  {
    var result := MatchingEngine.ScoreMatch(profile, NeedsOf(project));
    MatchScoresAppend(before, result.score);
    totalScore', matchCount' := totalScore, matchCount;
    if result.score > MatchThreshold {
      SumAppend(MatchScores(before), [result.score]);
      totalScore' := totalScore' + result.score;
      matchCount' := matchCount' + 1;
    } else {
      assert MatchScores(before) + [] == MatchScores(before);
    }
  }

  /** The `forEach` of `getDashboardStats` over the non-draft projects. */
  method TallyScores(profile: Option<MatchingEngine.Profile>, allProjects: seq<ProjectDoc>)
    returns (totalScore: int, matchCount: nat)
    ensures var scores := MatchScores(ProjectScores(profile, allProjects));
      totalScore == Sum(scores) && matchCount == |scores|
  {
    ghost var scores := ProjectScores(profile, allProjects);
    totalScore, matchCount := 0, 0;
    var i := 0;
    while i < |allProjects|
      invariant 0 <= i <= |allProjects|
      invariant matchCount == |MatchScores(scores[..i])|
      invariant totalScore == Sum(MatchScores(scores[..i]))
    {
      ScoresPrefix(profile, allProjects, i);
      totalScore, matchCount := CountMatch(profile, allProjects[i], scores[..i], totalScore, matchCount);
      i := i + 1;
    }
    assert scores[..i] == scores;
  }

  /** `getDashboardStats`: the matches among the non-draft projects, their rounded
      mean, and the joined and completed projects among the user's applications. */
  method GetDashboardStats(profile: Option<MatchingEngine.Profile>, projects: seq<ProjectDoc>, u: UserId)
    returns (stats: Stats)
    ensures var scores := MatchScores(ProjectScores(profile, NonDraft(projects)));
      var applications := AppliedTo(projects, u);
      && stats.matchesReceived == |scores|
      && stats.matchScore == RoundedMean(Sum(scores), |scores|)
      && stats.projectsJoined == CountJoined(applications, u)
      && stats.completedProjects == CountCompleted(applications)
  {
    var allProjects := NonDraft(projects);
    var applications := AppliedTo(projects, u);
    var projectsJoined := CountJoined(applications, u);
    var totalScore, matchCount := TallyScores(profile, allProjects);
    stats := Stats(matchCount, projectsJoined, CountCompleted(applications), RoundedMean(totalScore, matchCount));
  }

  /** The dashboard's figures: `matchesReceived` counts the matches, the mean is 0
      without matches and a score in [11, 100] with some, and joined plus completed
      projects never exceed the applications. */
  lemma DashboardBounds(profile: Option<MatchingEngine.Profile>, projects: seq<ProjectDoc>, u: UserId)
    ensures var scores := MatchScores(ProjectScores(profile, NonDraft(projects)));
      var mean := RoundedMean(Sum(scores), |scores|);
      && (|scores| == 0 ==> mean == 0)
      && (|scores| > 0 ==> MatchThreshold < mean <= 100)
      && |scores| <= |NonDraft(projects)|
    ensures var applications := AppliedTo(projects, u);
      CountJoined(applications, u) + CountCompleted(applications) <= |applications|
  {
    var scores := MatchScores(ProjectScores(profile, NonDraft(projects)));
    if |scores| > 0 {
      MeanWithin(scores);
    }
    JoinedAndCompletedDisjoint(AppliedTo(projects, u), u);
  }

  // ---------------------------------------------------------------------------
  // getApplications

  /** The populated `owner` of a project: its `fullName` and `avatar`, "" when absent. */
  datatype OwnerView = OwnerView(fullName: string, avatar: string)

  /** A stored project with its owner populated (`None` when the owner is gone). */
  datatype Listed = Listed(doc: ProjectDoc, owner: Option<OwnerView>)

  /** The summary `getApplications` returns for one application. `company` and
      `isDeleted` are not schema fields, so their defaults always apply. */
  datatype Entry = Entry(
    applicationId: nat,
    projectId: nat,
    title: string,
    roles: seq<string>,
    company: string,
    ownerName: string,
    ownerAvatar: string,
    projectStatus: ProjectStatus,
    lifecycleStage: LifecycleStage,
    isDeleted: bool,
    status: Status,
    role: string,
    appliedAt: int,
    matchScore: int,
    message: string)

  /** The user's application in a project: `applicants.find(app => app.user == u)`. */
  function FirstApplication(apps: seq<Applicant>, u: UserId): (k: int)
    ensures -1 <= k < |apps|
    ensures k == -1 <==> !HasApplied(apps, u)
    ensures 0 <= k ==> apps[k].user == u
  {
    if apps == [] then -1
    else if apps[0].user == u then 0
    else
      var k := FirstApplication(apps[1..], u);
      if k == -1 then
        assert forall j :: 1 <= j < |apps| ==> apps[j] == apps[1..][j - 1];
        -1
      else k + 1
  }

  /** JavaScript's `s || default` on a string: the empty string is falsy. */
  function OrDefault(s: string, default: string): (r: string)
    ensures r != "" || default == ""
    ensures s != "" ==> r == s
    ensures s == "" ==> r == default
  {
    if s == "" then default else s
  }

  /** The entry for one project, or `None` when it holds no application by `u`. */
  function EntryFor(profile: Option<MatchingEngine.Profile>, p: Listed, u: UserId): (e: Option<Entry>)
    ensures e.Some? <==> HasApplied(p.doc.applicants, u)
    ensures e.Some? ==>
      var k := FirstApplication(p.doc.applicants, u);
      var a := p.doc.applicants[k];
      && e.value.applicationId == a.id
      && e.value.projectId == p.doc.id
      && e.value.status == a.status
      && e.value.role == OrDefault(a.roleAppliedFor, "collaborator") && e.value.role != ""
      && e.value.appliedAt == a.appliedAt && e.value.message == a.message
      && e.value.title == p.doc.title && e.value.roles == p.doc.rolesNeeded
      && e.value.company == "BuildGether" && !e.value.isDeleted
      && e.value.ownerName == (if p.owner.Some? then OrDefault(p.owner.value.fullName, "Unknown") else "Unknown")
      && e.value.matchScore == ScoreOf(profile, p.doc) && 0 <= e.value.matchScore <= 100
  {
    var k := FirstApplication(p.doc.applicants, u);
    if k < 0 then None
    else
      var a := p.doc.applicants[k];
      var d := p.doc;
      var score := MatchingEngine.CalculateMatchScore(profile, NeedsOf(d)).score;
      Some(Entry(
        a.id, d.id, d.title, d.rolesNeeded, "BuildGether",
        if p.owner.Some? then OrDefault(p.owner.value.fullName, "Unknown") else "Unknown",
        if p.owner.Some? then p.owner.value.avatar else "",
        d.projectStatus, d.lifecycleStage, false,
        a.status, OrDefault(a.roleAppliedFor, "collaborator"), a.appliedAt, score, a.message))
  }

  /** `projects.map(...).filter(app => app !== null)`. */
  function Present(es: seq<Option<Entry>>): (r: seq<Entry>)
    ensures |r| <= |es|
    ensures forall e :: e in r <==> Some(e) in es
  {
    if es == [] then [] else (if es[0].Some? then [es[0].value] else []) + Present(es[1..])
  }

  /** `getApplications`: the query keeps the projects holding an application by
      the user, and each yields its entry. */
  function GetApplications(profile: Option<MatchingEngine.Profile>, projects: seq<Listed>, u: UserId): (r: seq<Entry>)
    ensures forall e :: e in r ==>
      && e.company == "BuildGether" && !e.isDeleted && e.role != "" && 0 <= e.matchScore <= 100
  {
    var found := ListedAppliedTo(projects, u);
    Present(seq(|found|, i requires 0 <= i < |found| => EntryFor(profile, found[i], u)))
  }

  function ListedAppliedTo(projects: seq<Listed>, u: UserId): (r: seq<Listed>)
    ensures forall p :: p in r ==> HasApplied(p.doc.applicants, u)
    ensures forall p :: multiset(r)[p] == if HasApplied(p.doc.applicants, u) then multiset(projects)[p] else 0
  {
    if projects == [] then []
    else
      assert projects == [projects[0]] + projects[1..];
      (if HasApplied(projects[0].doc.applicants, u) then [projects[0]] else []) + ListedAppliedTo(projects[1..], u)
  }

  lemma {:induction false} PresentAll(es: seq<Option<Entry>>)
    requires forall i :: 0 <= i < |es| ==> es[i].Some?
    ensures |Present(es)| == |es|
    ensures forall i :: 0 <= i < |es| ==> Present(es)[i] == es[i].value
  {
    if es != [] {
      PresentAll(es[1..]);
    }
  }

  /** No entry is dropped: there is one per project holding an application by the
      user, in query order, naming that project and the user's first application
      in it. */
  lemma GetApplicationsOnePerProject(profile: Option<MatchingEngine.Profile>, projects: seq<Listed>, u: UserId)
    ensures var found := ListedAppliedTo(projects, u);
      var r := GetApplications(profile, projects, u);
      && |r| == |found|
      && forall i :: 0 <= i < |r| ==>
           && r[i].projectId == found[i].doc.id
           && r[i].applicationId == found[i].doc.applicants[FirstApplication(found[i].doc.applicants, u)].id
           && r[i].status == found[i].doc.applicants[FirstApplication(found[i].doc.applicants, u)].status
  {
    var found := ListedAppliedTo(projects, u);
    var es := seq(|found|, i requires 0 <= i < |found| => EntryFor(profile, found[i], u));
    assert forall i :: 0 <= i < |found| ==> found[i] in found;
    PresentAll(es);
  }
}
