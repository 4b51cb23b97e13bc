/** The match scorer of utils/matchingEngine.js: compares a collaborator profile with
    a project's declared needs and produces a percentage and an ordered list of
    reasons.

    The specification is declarative: each criterion (roles, tech stack, experience
    level) yields a `Contribution` (matched count, evaluated count, reasons), the
    availability check yields reasons only, and `CalculateMatchScore` combines them.
    `ScoreMatch` is the step-by-step scorer with the source's accumulators and its
    reason loop, proved equal to `CalculateMatchScore`. */
module MatchingEngine {
  import opened Common

  /** An entry of `profile.roles`: a bare role name, or an object whose `type` names
      the role ("" when the object has no `type`). */
  datatype RoleEntry = RoleName(name: string) | RoleObject(roleType: string)

  /** An entry of `profile.skills`: a bare skill name, or an object whose `name`
      names it ("" when it has none). */
  datatype SkillEntry = SkillName(name: string) | SkillObject(skillName: string)

  /** The profile fields the scorer reads; "" and [] stand for an absent field. */
  datatype Profile = Profile(
    roles: seq<RoleEntry>,
    skills: seq<SkillEntry>,
    experienceLevel: string,
    availability: string)

  /** The project fields the scorer reads: `rolesNeeded`, `techStack`,
      `projectDetails.experienceLevel` and `projectDetails.timeline`. */
  datatype Needs = Needs(
    rolesNeeded: seq<string>,
    techStack: seq<string>,
    experienceLevel: string,
    timeline: string)

  datatype ReasonKind = Strength | Consideration
  datatype Reason = Reason(kind: ReasonKind, text: string)
  datatype MatchResult = MatchResult(score: int, reasons: seq<Reason>)

  // ---------------------------------------------------------------------------
  // Normalisation and matching

  function RoleKey(r: RoleEntry): string
  {
    match r
    case RoleName(n) => Lower(n)
    case RoleObject(t) => Lower(t)
  }

  function SkillKey(s: SkillEntry): string
  {
    match s
    case SkillName(n) => Lower(n)
    case SkillObject(n) => Lower(n)
  }

  /** The profile's roles as lower-case strings, `{type}` objects unwrapped. */
  function RoleKeys(roles: seq<RoleEntry>): (keys: seq<string>)
    ensures |keys| == |roles|
  {
    seq(|roles|, i requires 0 <= i < |roles| => RoleKey(roles[i]))
  }

  /** The profile's skills as lower-case strings, `{name}` objects unwrapped. */
  function SkillKeys(skills: seq<SkillEntry>): (keys: seq<string>)
    ensures |keys| == |skills|
  {
    seq(|skills|, i requires 0 <= i < |skills| => SkillKey(skills[i]))
  }

  /** The entries of `needed`, in order, whose lower-case form is one of `keys`. */
  function Matched(needed: seq<string>, keys: seq<string>): (m: seq<string>)
    ensures |m| <= |needed|
    ensures forall x :: x in m ==> Lower(x) in keys
  {
    if needed == [] then []
    else (if Lower(needed[0]) in keys then [needed[0]] else []) + Matched(needed[1..], keys)
  }

  /** Every matching entry is kept as often as it occurs in `needed`, duplicates
      included, and no other entry is kept. */
  lemma {:induction false} MatchedCounts(needed: seq<string>, keys: seq<string>)
    ensures forall x ::
      multiset(Matched(needed, keys))[x] == (if Lower(x) in keys then multiset(needed)[x] else 0)
  {
    if needed != [] {
      assert needed == [needed[0]] + needed[1..];
      MatchedCounts(needed[1..], keys);
    }
  }

  /** Matching distributes over concatenation: it keeps the order of `needed`. */
  lemma {:induction false} MatchedAppend(a: seq<string>, b: seq<string>, keys: seq<string>)
    ensures Matched(a + b, keys) == Matched(a, keys) + Matched(b, keys)
  {
    if a == [] {
      assert a + b == b;
    } else {
      assert (a + b)[0] == a[0];
      assert (a + b)[1..] == a[1..] + b;
      MatchedAppend(a[1..], b, keys);
    }
  }

  /** Every needed entry matches: the match keeps all of `needed`. */
  lemma {:induction false} MatchedAll(needed: seq<string>, keys: seq<string>)
    requires forall x :: x in needed ==> Lower(x) in keys
    ensures |Matched(needed, keys)| == |needed|
  {
    var m := Matched(needed, keys);
    MatchedCounts(needed, keys);
    assert multiset(m) == multiset(needed);
    assert |multiset(m)| == |multiset(needed)|;
  }

  /** Matching looks only at the lower-case form of each needed entry. */
  lemma {:induction false} MatchedIgnoresCase(needed: seq<string>, needed': seq<string>, keys: seq<string>)
    requires |needed| == |needed'|
    requires forall i :: 0 <= i < |needed| ==> Lower(needed[i]) == Lower(needed'[i])
    ensures |Matched(needed, keys)| == |Matched(needed', keys)|
  {
    if needed != [] {
      MatchedIgnoresCase(needed[1..], needed'[1..], keys);
    }
  }

  // ---------------------------------------------------------------------------
  // Reasons

  function RoleReason(role: string): Reason
  {
    Reason(Strength, "Your " + role + " expertise aligns perfectly with this project's needs")
  }

  /** One strength reason per matched role, in order. */
  function RoleReasons(matched: seq<string>): (rs: seq<Reason>)
    ensures |rs| == |matched|
    ensures forall i :: 0 <= i < |matched| ==> rs[i] == RoleReason(matched[i])
  {
    if matched == [] then []
    else RoleReasons(matched[..|matched| - 1]) + [RoleReason(matched[|matched| - 1])]
  }

  const RolesDiffer: Reason :=
    Reason(Consideration, "While your primary roles differ, your diverse skill set could bring unique value")

  /** At most three names, then " and N more" for the N others. */
  function SkillsSummary(matched: seq<string>): (r: string)
    ensures |matched| <= 3 ==> r == Join(matched, ", ")
    ensures |matched| > 3 ==> r == Join(matched[..3], ", ") + " and " + NatToString(|matched| - 3) + " more"
    ensures |matched| > 3 ==> Join(matched[..3], ", ") <= r && |r| >= 5 && r[|r| - 5..] == " more"
  {
    var shown := Join(matched[..if |matched| < 3 then |matched| else 3], ", ");
    if |matched| > 3 then shown + " and " + NatToString(|matched| - 3) + " more" else shown
  }

  function TechReason(matched: seq<string>): Reason
  {
    Reason(Strength, "You have hands-on experience with " + SkillsSummary(matched))
  }

  function LevelMetReason(level: string): Reason
  {
    Reason(Strength, "Your " + level + " experience level meets the project requirements")
  }

  const GrowthReason: Reason :=
    Reason(Consideration, "This project seeks slightly more experience, but could be a great growth opportunity")

  function AvailabilityReason(timeline: string): Reason
  {
    Reason(Strength, "Your flexible availability matches the project's " + timeline + " timeline")
  }

  const TopCandidateReason: Reason :=
    Reason(Strength, "Based on your profile, you're among the top candidates for this opportunity")

  // ---------------------------------------------------------------------------
  // Criteria

  /** What one criterion adds: matched count, evaluated count and reasons. */
  datatype Contribution = Contribution(score: nat, total: nat, reasons: seq<Reason>)

  const Levels: seq<string> := ["beginner", "intermediate", "advanced", "expert"]
  const FlexibleAvailability: seq<string> := ["flexible", "part-time"]

  /** Ordinal of a level, case-insensitive; -1 for a string that is no level. */
  function LevelIndex(level: string): (i: int)
    ensures -1 <= i < 4
    ensures i == -1 <==> Lower(level) !in Levels
  {
    IndexOf(Levels, Lower(level))
  }

  /** Every needed role is evaluated and matched at most once. */
  function RoleContribution(p: Profile, n: Needs): (c: Contribution)
    ensures c.score <= c.total
    ensures c.total == |n.rolesNeeded|
  {
    if |n.rolesNeeded| == 0 then Contribution(0, 0, [])
    else
      var keys := RoleKeys(p.roles);
      var matched := Matched(n.rolesNeeded, keys);
      Contribution(|matched|, |n.rolesNeeded|,
        if |matched| > 0 then RoleReasons(matched)
        else if |keys| > 0 then [RolesDiffer]
        else [])
  }

  /** The role reasons: none when no role is needed; otherwise one strength reason
      per matched role, in `rolesNeeded` order, or else a single consideration when
      the profile names some role. */
  lemma RoleReasonRules(p: Profile, n: Needs)
    ensures var c := RoleContribution(p, n);
      && (|n.rolesNeeded| == 0 ==> c.reasons == [])
      && (c.score > 0 ==> c.reasons == RoleReasons(Matched(n.rolesNeeded, RoleKeys(p.roles))))
      && (|n.rolesNeeded| > 0 && c.score == 0 ==> c.reasons == if |p.roles| > 0 then [RolesDiffer] else [])
      && forall i :: 0 <= i < |c.reasons| ==> (c.reasons[i].kind == Strength <==> c.score > 0)
  {
  }

  /** Every tech-stack entry is evaluated; at most one reason, present exactly when
      some skill matched. */
  function TechContribution(p: Profile, n: Needs): (c: Contribution)
    ensures c.score <= c.total
    ensures c.total == |n.techStack|
    ensures |c.reasons| == (if c.score > 0 then 1 else 0)
    ensures c.score > 0 ==> c.reasons[0] == TechReason(Matched(n.techStack, SkillKeys(p.skills)))
  {
    if |n.techStack| == 0 then Contribution(0, 0, [])
    else
      var matched := Matched(n.techStack, SkillKeys(p.skills));
      Contribution(|matched|, |n.techStack|, if |matched| > 0 then [TechReason(matched)] else [])
  }

  /** Counted only when met; one level short gives a consideration and nothing else. */
  function ExperienceContribution(p: Profile, n: Needs): (c: Contribution)
    ensures c.score == c.total <= 1
    ensures c.score == 1 <==>
      p.experienceLevel != "" && n.experienceLevel != ""
      && LevelIndex(p.experienceLevel) >= LevelIndex(n.experienceLevel)
    ensures |c.reasons| <= 1
    ensures c.reasons == [GrowthReason] <==>
      p.experienceLevel != "" && n.experienceLevel != ""
      && LevelIndex(p.experienceLevel) == LevelIndex(n.experienceLevel) - 1
  {
    if p.experienceLevel == "" || n.experienceLevel == "" then Contribution(0, 0, [])
    else
      var userLevel := LevelIndex(p.experienceLevel);
      var projectLevel := LevelIndex(n.experienceLevel);
      if userLevel >= projectLevel then Contribution(1, 1, [LevelMetReason(p.experienceLevel)])
      else if userLevel == projectLevel - 1 then Contribution(0, 0, [GrowthReason])
      else Contribution(0, 0, [])
  }

  /** Advisory only: a reason when the availability is flexible or part-time. */
  function AvailabilityReasons(p: Profile, n: Needs): (rs: seq<Reason>)
    ensures |rs| <= 1
    ensures rs != [] <==>
      p.availability != "" && n.timeline != "" && Lower(p.availability) in FlexibleAvailability
  {
    if p.availability != "" && n.timeline != "" && Lower(p.availability) in FlexibleAvailability
    then [AvailabilityReason(n.timeline)]
    else []
  }

  /** All criteria together, reasons in the order the scorer emits them. */
  function Combined(p: Profile, n: Needs): (c: Contribution)
    ensures c.score <= c.total
  {
    var role := RoleContribution(p, n);
    var tech := TechContribution(p, n);
    var exp := ExperienceContribution(p, n);
    Contribution(role.score + tech.score + exp.score, role.total + tech.total + exp.total,
                 role.reasons + tech.reasons + exp.reasons + AvailabilityReasons(p, n))
  }

  /** The closing reason: more than 60% of the evaluated criteria matched. */
  function TopCandidate(score: nat, total: nat): (r: seq<Reason>)
    ensures |r| <= 1 && (r != [] ==> r[0] == TopCandidateReason)
    ensures r != [] <==> 5 * score > 3 * total
    ensures 0 < total <= score ==> r != []
    ensures 2 * score <= total ==> r == []
  {
    if 5 * score > 3 * total then [TopCandidateReason] else []
  }

  // ---------------------------------------------------------------------------
  // Percentage

  lemma MulLeftMono(k: int, x: int, y: int)
    requires k >= 0 && x <= y
    ensures k * x <= k * y
  {
    assert k * y - k * x == k * (y - x);
  }

  lemma MulLeftStrict(k: int, x: int, y: int)
    requires k > 0 && x < y
    ensures k * x < k * y
  {
    assert k * y - k * x == k * (y - x);
  }

  /** Euclidean division by a positive divisor. */
  lemma DivBounds(a: int, b: int)
    requires b > 0
    ensures b * (a / b) <= a < b * (a / b) + b
  {
    assert a == b * (a / b) + a % b;
  }

  lemma DivideWithin(a: int, b: int, q: int)
    requires b > 0 && b * q <= a < b * q + b
    ensures a / b == q
  {
    var d := a / b;
    DivBounds(a, b);
    if d < q {
      MulLeftMono(b, d + 1, q);
    } else if d > q {
      MulLeftMono(b, q + 1, d);
    }
  }

  /** `Math.round(score / total * 100)` in exact arithmetic, 0 when nothing was
      evaluated: the nearest integer to 100·score/total, halves rounded up. */
  function Percentage(score: nat, total: nat): (r: int)
    ensures total == 0 ==> r == 0
    ensures score <= total ==> 0 <= r <= 100
    ensures 0 < total == score ==> r == 100
  {
    if total == 0 then 0
    else
      var r := (200 * score + total) / (2 * total);
      PercentageFacts(score, total, r);
      r
  }

  /** The percentage is the integer nearest to 100·score/total, a half rounded up. */
  lemma PercentageIsNearest(score: nat, total: nat)
    requires total > 0
    ensures var r := Percentage(score, total);
      -(total as int) < 2 * total * r - 200 * score <= total
  {
    PercentageFacts(score, total, Percentage(score, total));
  }

  lemma PercentageFacts(score: nat, total: nat, r: int)
    requires 0 < total && r == (200 * score + total) / (2 * total)
    ensures -(total as int) < 2 * total * r - 200 * score <= total
    ensures score <= total ==> 0 <= r <= 100
    ensures score == total ==> r == 100
  {
    DivBounds(200 * score + total, 2 * total);
    if score <= total {
      if r < 0 {
        MulLeftMono(2 * total, r, -1);
      }
      if r > 100 {
        MulLeftMono(2 * total, 101, r);
      }
    }
    if score == total {
      DivideWithin(200 * score + total, 2 * total, 100);
    }
  }

  /** Round-half-up of a larger ratio is never smaller. */
  lemma PercentageMonotone(s1: nat, t1: nat, s2: nat, t2: nat)
    requires 0 < t1 && 0 < t2 && s1 * t2 <= s2 * t1
    ensures Percentage(s1, t1) <= Percentage(s2, t2)
  {
    var r1, r2 := Percentage(s1, t1), Percentage(s2, t2);
    PercentageIsNearest(s1, t1);
    PercentageIsNearest(s2, t2);
    // 2·t1·r1 <= 200·s1 + t1, scaled by t2 and bounded through s1·t2 <= s2·t1
    MulLeftMono(t2, 2 * t1 * r1, 200 * s1 + t1);
    assert t2 * (200 * s1 + t1) == 200 * (s1 * t2) + t1 * t2;
    assert t1 * (200 * s2 + t2) == 200 * (s2 * t1) + t1 * t2;
    assert t2 * (2 * t1 * r1) == t1 * (2 * t2 * r1);
    assert t1 * (2 * t2 * r1) <= t1 * (200 * s2 + t2);
    if 2 * t2 * r1 > 200 * s2 + t2 {
      MulLeftStrict(t1, 200 * s2 + t2, 2 * t2 * r1);
    }
    // so r1 lies below the next step of r2
    if r1 > r2 {
      MulLeftMono(2 * t2, r2 + 1, r1);
    }
  }

  // ---------------------------------------------------------------------------
  // The scorer

  /** `calculateMatchScore(profile, project)`. */
  function CalculateMatchScore(profile: Option<Profile>, project: Needs): (r: MatchResult)
    ensures profile.None? ==> r == MatchResult(0, [])
    ensures 0 <= r.score <= 100
  {
    match profile
    case None => MatchResult(0, [])
    case Some(p) =>
      var c := Combined(p, project);
      MatchResult(Percentage(c.score, c.total), c.reasons + TopCandidate(c.score, c.total))
  }

  // ---------------------------------------------------------------------------
  // Properties of the scorer

  /** The top-candidate reason is appended after every criterion's reasons exactly
      when more than 60% of the evaluated criteria matched. */
  lemma TopCandidateIsLast(p: Profile, n: Needs)
    ensures var c := Combined(p, n);
      var r := CalculateMatchScore(Some(p), n);
      && r.reasons[..|c.reasons|] == c.reasons
      && (|r.reasons| == |c.reasons| + 1 <==> 5 * c.score > 3 * c.total)
      && (|r.reasons| == |c.reasons| + 1 ==> r.reasons[|c.reasons|] == TopCandidateReason)
      && (|r.reasons| == |c.reasons| || |r.reasons| == |c.reasons| + 1)
  {
  }

  /** The experience criterion only ever raises the score: a profile with an
      experience level scores at least as much as the same profile without one. */
  lemma {:induction false} ExperienceNeverLowersScore(p: Profile, n: Needs)
    ensures CalculateMatchScore(Some(p), n).score >= CalculateMatchScore(Some(p.(experienceLevel := "")), n).score
  {
    var q := p.(experienceLevel := "");
    var c0, c1 := Combined(q, n), Combined(p, n);
    var e := ExperienceContribution(p, n).score;
    ExperienceAddsOnly(p, n);
    PercentageStep(c0, c1, e);
    assert CalculateMatchScore(Some(q), n).score == Percentage(c0.score, c0.total);
    assert CalculateMatchScore(Some(p), n).score == Percentage(c1.score, c1.total);
  }

  /** Removing the experience level leaves the other criteria as they were. */
  lemma ExperienceAddsOnly(p: Profile, n: Needs)
    ensures var c0, c1 := Combined(p.(experienceLevel := ""), n), Combined(p, n);
      var e := ExperienceContribution(p, n).score;
      c1.score == c0.score + e && c1.total == c0.total + e
  {
    var q := p.(experienceLevel := "");
    assert RoleContribution(q, n) == RoleContribution(p, n);
    assert TechContribution(q, n) == TechContribution(p, n);
    assert ExperienceContribution(q, n).score == 0 == ExperienceContribution(q, n).total;
  }

  /** Counting one more criterion, and matching it, never lowers the percentage. */
  lemma PercentageStep(c0: Contribution, c1: Contribution, e: nat)
    requires c0.score <= c0.total && e <= 1
    requires c1.score == c0.score + e && c1.total == c0.total + e
    ensures Percentage(c1.score, c1.total) >= Percentage(c0.score, c0.total)
  {
    var s, t := c0.score, c0.total;
    if e == 1 && t > 0 {
      assert s * (t + 1) <= (s + 1) * t;
      PercentageMonotone(s, t, s + 1, t + 1);
    }
  }

  /** Availability and timeline never change the score. */
  lemma AvailabilityNeverScores(p: Profile, n: Needs, availability: string, timeline: string)
    ensures CalculateMatchScore(Some(p.(availability := availability)), n.(timeline := timeline)).score
         == CalculateMatchScore(Some(p), n).score
  {
    var p', n' := p.(availability := availability), n.(timeline := timeline);
    CountedFields(p, p', n, n');
    CombinedCounts(p', n');
    CombinedCounts(p, n);
    assert Combined(p', n').score == Combined(p, n).score && Combined(p', n').total == Combined(p, n).total;
    ScoreIsPercentage(p', n');
    ScoreIsPercentage(p, n);
  }

  /** The three counted criteria read only roles, skills and experience levels. */
  lemma CountedFields(p: Profile, p': Profile, n: Needs, n': Needs)
    requires p.roles == p'.roles && p.skills == p'.skills && p.experienceLevel == p'.experienceLevel
    requires n.rolesNeeded == n'.rolesNeeded && n.techStack == n'.techStack
    requires n.experienceLevel == n'.experienceLevel
    ensures RoleContribution(p, n) == RoleContribution(p', n')
    ensures TechContribution(p, n) == TechContribution(p', n')
    ensures ExperienceContribution(p, n) == ExperienceContribution(p', n')
  {
  }

  /** The score of a profile is the percentage of the combined counts. */
  lemma ScoreIsPercentage(p: Profile, n: Needs)
    ensures CalculateMatchScore(Some(p), n).score == Percentage(Combined(p, n).score, Combined(p, n).total)
  {
  }

  /** The combined counts are the sums of the three counted criteria. */
  lemma CombinedCounts(p: Profile, n: Needs)
    ensures Combined(p, n).score
            == RoleContribution(p, n).score + TechContribution(p, n).score + ExperienceContribution(p, n).score
    ensures Combined(p, n).total
            == RoleContribution(p, n).total + TechContribution(p, n).total + ExperienceContribution(p, n).total
  {
  }

  /** Matching every needed role and every tech-stack entry gives 100 whenever some
      criterion was evaluated. */
  lemma FullMatchScoresHundred(p: Profile, n: Needs)
    requires forall x :: x in n.rolesNeeded ==> Lower(x) in RoleKeys(p.roles)
    requires forall x :: x in n.techStack ==> Lower(x) in SkillKeys(p.skills)
    requires Combined(p, n).total > 0
    ensures CalculateMatchScore(Some(p), n).score == 100
  {
    MatchedAll(n.rolesNeeded, RoleKeys(p.roles));
    MatchedAll(n.techStack, SkillKeys(p.skills));
    CombinedCounts(p, n);
    assert Combined(p, n).score == Combined(p, n).total;
    ScoreIsPercentage(p, n);
  }

  /** With no role and no tech-stack entry needed and a level missing on either side,
      no criterion is evaluated and the score is 0 whatever the profile holds. */
  lemma NoCriteriaScoresZero(p: Profile, n: Needs)
    requires n.rolesNeeded == [] && n.techStack == []
    requires p.experienceLevel == "" || n.experienceLevel == ""
    ensures Combined(p, n).total == 0
    ensures CalculateMatchScore(Some(p), n).score == 0
  {
    CombinedCounts(p, n);
    ScoreIsPercentage(p, n);
  }

  predicate SameUpToCase(a: seq<string>, b: seq<string>)
  {
    |a| == |b| && forall i :: 0 <= i < |a| ==> Lower(a[i]) == Lower(b[i])
  }

  /** Scoring is case-insensitive: changing the case of needed roles, tech-stack
      entries, profile roles and skills, or levels leaves the score and the number of
      reasons unchanged. */
  lemma ScoreIgnoresCase(p: Profile, p': Profile, n: Needs, n': Needs)
    requires RoleKeys(p.roles) == RoleKeys(p'.roles) && SkillKeys(p.skills) == SkillKeys(p'.skills)
    requires Lower(p.experienceLevel) == Lower(p'.experienceLevel)
    requires Lower(p.availability) == Lower(p'.availability)
    requires SameUpToCase(n.rolesNeeded, n'.rolesNeeded) && SameUpToCase(n.techStack, n'.techStack)
    requires Lower(n.experienceLevel) == Lower(n'.experienceLevel)
    requires n.timeline == "" <==> n'.timeline == ""
    ensures CalculateMatchScore(Some(p), n).score == CalculateMatchScore(Some(p'), n').score
    ensures |CalculateMatchScore(Some(p), n).reasons| == |CalculateMatchScore(Some(p'), n').reasons|
  {
    RolesIgnoreCase(p, p', n, n');
    TechIgnoresCase(p, p', n, n');
    ExperienceIgnoresCase(p, p', n, n');
    AvailabilityIgnoresCase(p, p', n, n');
    CombinedCounts(p, n);
    CombinedCounts(p', n');
    var c, c' := Combined(p, n), Combined(p', n');
    assert c.score == c'.score && c.total == c'.total;
    ScoreIsPercentage(p, n);
    ScoreIsPercentage(p', n');
    ReasonsLength(p, n);
    ReasonsLength(p', n');
  }

  /** Two contributions with the same counts and the same number of reasons. */
  predicate SameShape(c: Contribution, c': Contribution)
  {
    c.score == c'.score && c.total == c'.total && |c.reasons| == |c'.reasons|
  }

  lemma RolesIgnoreCase(p: Profile, p': Profile, n: Needs, n': Needs)
    requires RoleKeys(p.roles) == RoleKeys(p'.roles)
    requires SameUpToCase(n.rolesNeeded, n'.rolesNeeded)
    ensures SameShape(RoleContribution(p, n), RoleContribution(p', n'))
  {
    MatchedIgnoresCase(n.rolesNeeded, n'.rolesNeeded, RoleKeys(p.roles));
  }

  lemma TechIgnoresCase(p: Profile, p': Profile, n: Needs, n': Needs)
    requires SkillKeys(p.skills) == SkillKeys(p'.skills)
    requires SameUpToCase(n.techStack, n'.techStack)
    ensures SameShape(TechContribution(p, n), TechContribution(p', n'))
  {
    MatchedIgnoresCase(n.techStack, n'.techStack, SkillKeys(p.skills));
  }

  lemma ExperienceIgnoresCase(p: Profile, p': Profile, n: Needs, n': Needs)
    requires Lower(p.experienceLevel) == Lower(p'.experienceLevel)
    requires Lower(n.experienceLevel) == Lower(n'.experienceLevel)
    ensures SameShape(ExperienceContribution(p, n), ExperienceContribution(p', n'))
  {
    assert |p.experienceLevel| == |Lower(p.experienceLevel)| == |p'.experienceLevel|;
    assert |n.experienceLevel| == |Lower(n.experienceLevel)| == |n'.experienceLevel|;
  }

  lemma AvailabilityIgnoresCase(p: Profile, p': Profile, n: Needs, n': Needs)
    requires Lower(p.availability) == Lower(p'.availability)
    requires n.timeline == "" <==> n'.timeline == ""
    ensures |AvailabilityReasons(p, n)| == |AvailabilityReasons(p', n')|
  {
    assert |p.availability| == |Lower(p.availability)| == |p'.availability|;
  }

  /** The number of reasons: each criterion's, and the closing one when earned. */
  lemma ReasonsLength(p: Profile, n: Needs)
    ensures var c := Combined(p, n);
      |CalculateMatchScore(Some(p), n).reasons|
      == |RoleContribution(p, n).reasons| + |TechContribution(p, n).reasons|
         + |ExperienceContribution(p, n).reasons| + |AvailabilityReasons(p, n)|
         + |TopCandidate(c.score, c.total)|
  {
  }

  /** A worked case: a frontend developer who knows react and node, at advanced
      level, against a project needing a frontend role, react, node and python, at
      intermediate level. */
  const ExampleProfile: Profile :=
    Profile([RoleName("frontend")], [SkillName("react"), SkillName("node")], "advanced", "")
  const ExampleNeeds: Needs := Needs(["frontend"], ["react", "node", "python"], "intermediate", "")

  /** In the worked case the role and two of the three skills match. */
  lemma ExampleMatches()
    ensures Matched(ExampleNeeds.rolesNeeded, RoleKeys(ExampleProfile.roles)) == ["frontend"]
    ensures |Matched(ExampleNeeds.techStack, SkillKeys(ExampleProfile.skills))| == 2
  {
    LowerKeepsLowercase("frontend");
    LowerKeepsLowercase("react");
    LowerKeepsLowercase("node");
    LowerKeepsLowercase("python");
    assert RoleKeys(ExampleProfile.roles) == ["frontend"];
    var keys := SkillKeys(ExampleProfile.skills);
    assert keys == ["react", "node"];
    assert Matched(["python"], keys) == [];
    assert Matched(["node", "python"], keys) == ["node"];
    assert ExampleNeeds.techStack[1..] == ["node", "python"];
  }

  /** In the worked case the advanced level meets the intermediate one. */
  lemma ExampleLevels()
    ensures LevelIndex(ExampleProfile.experienceLevel) == 2
    ensures LevelIndex(ExampleNeeds.experienceLevel) == 1
  {
    LowerKeepsLowercase("advanced");
    LowerKeepsLowercase("intermediate");
  }

  /** In the worked case the role criterion matches its one role. */
  lemma ExampleRole()
    ensures RoleContribution(ExampleProfile, ExampleNeeds) == Contribution(1, 1, RoleReasons(["frontend"]))
  {
    ExampleMatches();
  }

  /** The tech-stack reason names at most the first three matched skills, and
      counts the rest as " and N more" only when there are more than three. */
  lemma SkillsSummaryExamples()
    ensures SkillsSummary(["react", "node"]) == "react, node"
    ensures SkillsSummary(["react", "node", "go", "sql", "css"]) == "react, node, go and 2 more"
  {
    var five := ["react", "node", "go", "sql", "css"];
    assert five[..3] == ["react", "node", "go"];
    assert five[..3][1..] == ["node", "go"];
    assert five[..3][1..][1..] == ["go"];
    assert Join(["node", "go"], ", ") == "node, go";
    assert Join(five[..3], ", ") == "react, node, go";
    assert SkillsSummary(five) == "react, node, go" + " and " + NatToString(2) + " more";
    assert NatToString(2) == "2";
    assert ["react", "node"][1..] == ["node"];
  }

  /** In the worked case two of the three skills match, giving one reason. */
  lemma ExampleTech()
    ensures var c := TechContribution(ExampleProfile, ExampleNeeds);
      c.score == 2 && c.total == 3 && |c.reasons| == 1
  {
    ExampleMatches();
  }

  /** In the worked case the level criterion is met. */
  lemma ExampleExperience()
    ensures var c := ExperienceContribution(ExampleProfile, ExampleNeeds);
      c.score == 1 && c.total == 1 && |c.reasons| == 1
  {
    ExampleLevels();
  }

  /** In the worked case 4 of the 5 evaluated criteria match, and the criteria give
      three reasons, the role's first. */
  lemma ExampleCombined()
    ensures var c := Combined(ExampleProfile, ExampleNeeds);
      c.score == 4 && c.total == 5 && |c.reasons| == 3 && c.reasons[0] == RoleReason("frontend")
  {
    ExampleRole();
    ExampleTech();
    ExampleExperience();
    assert AvailabilityReasons(ExampleProfile, ExampleNeeds) == [];
  }

  /** The worked case scores 80, with four reasons: the role's, the skills', the
      level's, and last the top-candidate reason. */
  lemma FrontendExample()
    ensures var r := CalculateMatchScore(Some(ExampleProfile), ExampleNeeds);
      && r.score == 80
      && |r.reasons| == 4
      && r.reasons[0] == RoleReason("frontend")
      && r.reasons[3] == TopCandidateReason
  {
    var c := Combined(ExampleProfile, ExampleNeeds);
    ExampleCombined();
    DivideWithin(805, 10, 80);
    assert Percentage(c.score, c.total) == 80;
    assert TopCandidate(c.score, c.total) == [TopCandidateReason];
  }

  /** The scorer as the source runs it: local accumulators `score`, `totalCriteria`
      and `reasons`, updated criterion by criterion. */
  method ScoreMatch(profile: Option<Profile>, project: Needs) returns (result: MatchResult)
    ensures result == CalculateMatchScore(profile, project)
  {
    if profile.None? {
      return MatchResult(0, []);
    }
    var p := profile.value;
    var score: nat, totalCriteria: nat, reasons: seq<Reason> := 0, 0, [];
    score, totalCriteria, reasons := CheckRoles(p, project, score, totalCriteria, reasons);
    score, totalCriteria, reasons := CheckTechStack(p, project, score, totalCriteria, reasons);
    score, totalCriteria, reasons := CheckExperience(p, project, score, totalCriteria, reasons);
    reasons := CheckAvailability(p, project, reasons);
    ghost var c := Combined(p, project);
    assert score == c.score && totalCriteria == c.total;
    EmptyPrefix(RoleContribution(p, project).reasons);
    assert reasons == c.reasons;
    if 5 * score > 3 * totalCriteria {
      reasons := reasons + [TopCandidateReason];
    }
    result := MatchResult(Percentage(score, totalCriteria), reasons);
  }

  lemma EmptyPrefix<T>(xs: seq<T>)
    ensures [] + xs == xs
  {
  }

  /** The role block: counts every needed role, then pushes one reason per matched
      role (the `forEach` loop) or the single mismatch consideration. */
  method CheckRoles(p: Profile, project: Needs, score: nat, totalCriteria: nat, reasons: seq<Reason>)
    returns (score': nat, totalCriteria': nat, reasons': seq<Reason>)
    ensures var c := RoleContribution(p, project);
      score' == score + c.score && totalCriteria' == totalCriteria + c.total && reasons' == reasons + c.reasons
  {
    score', totalCriteria', reasons' := score, totalCriteria, reasons;
    if |project.rolesNeeded| > 0 {
      totalCriteria' := totalCriteria' + |project.rolesNeeded|;
      var userRoles := RoleKeys(p.roles);
      var matchedRoles := Matched(project.rolesNeeded, userRoles);
      score' := score' + |matchedRoles|;
      if |matchedRoles| > 0 {
        reasons' := PushRoleReasons(matchedRoles, reasons');
      } else if |userRoles| > 0 {
        reasons' := reasons' + [RolesDiffer];
      }
    }
  }

  /** `matchedRoles.forEach(role => reasons.push(...))`. */
  method PushRoleReasons(matchedRoles: seq<string>, reasons: seq<Reason>) returns (reasons': seq<Reason>)
    ensures reasons' == reasons + RoleReasons(matchedRoles)
  {
    reasons' := reasons;
    var i := 0;
    while i < |matchedRoles|
      invariant 0 <= i <= |matchedRoles|
      invariant reasons' == reasons + RoleReasons(matchedRoles[..i])
    {
      assert matchedRoles[..i + 1][..i] == matchedRoles[..i];
      reasons' := reasons' + [RoleReason(matchedRoles[i])];
      i := i + 1;
    }
    assert matchedRoles[..i] == matchedRoles;
  }

  /** The tech-stack block: counts every entry, one summary reason if any matched. */
  method CheckTechStack(p: Profile, project: Needs, score: nat, totalCriteria: nat, reasons: seq<Reason>)
    returns (score': nat, totalCriteria': nat, reasons': seq<Reason>)
    ensures var c := TechContribution(p, project);
      score' == score + c.score && totalCriteria' == totalCriteria + c.total && reasons' == reasons + c.reasons
  {
    score', totalCriteria', reasons' := score, totalCriteria, reasons;
    if |project.techStack| > 0 {
      totalCriteria' := totalCriteria' + |project.techStack|;
      var userSkills := SkillKeys(p.skills);
      var matchedSkills := Matched(project.techStack, userSkills);
      score' := score' + |matchedSkills|;
      if |matchedSkills| > 0 {
        reasons' := reasons' + [TechReason(matchedSkills)];
      }
    }
  }

  /** The experience block: both counters move together, and only on a match. */
  method CheckExperience(p: Profile, project: Needs, score: nat, totalCriteria: nat, reasons: seq<Reason>)
    returns (score': nat, totalCriteria': nat, reasons': seq<Reason>)
    ensures var c := ExperienceContribution(p, project);
      score' == score + c.score && totalCriteria' == totalCriteria + c.total && reasons' == reasons + c.reasons
  {
    score', totalCriteria', reasons' := score, totalCriteria, reasons;
    if p.experienceLevel != "" && project.experienceLevel != "" {
      var userLevel := LevelIndex(p.experienceLevel);
      var projectLevel := LevelIndex(project.experienceLevel);
      if userLevel >= projectLevel {
        totalCriteria' := totalCriteria' + 1;
        score' := score' + 1;
        reasons' := reasons' + [LevelMetReason(p.experienceLevel)];
      } else if userLevel == projectLevel - 1 {
        reasons' := reasons' + [GrowthReason];
      }
    }
  }

  /** The availability block: a reason, never a counter. */
  method CheckAvailability(p: Profile, project: Needs, reasons: seq<Reason>) returns (reasons': seq<Reason>)
    ensures reasons' == reasons + AvailabilityReasons(p, project)
  {
    reasons' := reasons;
    if p.availability != "" && project.timeline != "" {
      var isFlexible := Lower(p.availability) in FlexibleAvailability;
      if isFlexible {
        reasons' := reasons' + [AvailabilityReason(project.timeline)];
      }
    }
  }
}
