# build_gether in Dafny

A model of the logic behind the build_gether collaboration marketplace API. Project
owners post projects, collaborators apply or are invited, and a match scorer
compares a collaborator's profile with each project's needs. The model covers:

- **The match scorer** (`MatchingEngine`, utils/matchingEngine.js). It matches
  roles and the tech stack case-insensitively and compares experience levels by
  rank. It gives the availability reason and the top-candidate reason, and rounds
  the final percentage half up. The criteria are specified declaratively
  (`RoleContribution`, `TechContribution`, `ExperienceContribution`,
  `AvailabilityReasons`, `Combined`, `CalculateMatchScore`). `ScoreMatch` keeps the
  scorer's own accumulators and its reason loop, and is proved equal to the
  declarative version.
- **The collaborator views** (`CollaboratorController`). `getMatches` filters
  above 10 and sorts best first. `getDashboardStats` has a counting loop, a rounded
  mean, and joined and completed counts. `getApplications` builds one entry per
  project.
- **The project record** (`ProjectModel`, models/CreateProject.js) and the handlers
  that change it in place:
  - `createProject`, `applyToProject`, `inviteCollaborator` and `archiveProject`
    (`ProjectController`);
  - `acceptApplicant`, `rejectApplicant`, `acceptInvite` and `rejectInvite`
    (`ApplicantController`).

  A stored project is a `class Project`, and each handler is a method with a
  `modifies` clause. It is proved against a function on the plain `ProjectDoc`
  snapshot.
- **The account flow** (`AuthController`): the ordered guards of `register`,
  `verifyOtp` and `resendOtp`, the user record they update, and the login
  verification gate.
- **The task board** (`TaskController`). Only the project owner creates or deletes
  a task. The owner or the assignee updates it. Notes are append-only, and each
  change notifies the other party.
- **The validators** (`Validation`, middleware/validation.js): the password rule,
  the email pattern as a predicate, and `validateExamData` with its ordered error
  list.

The database is an in-memory value. A record that a lookup finds is an object or
`Some` value, and a missing one is `null` or `None`. Time (`Date.now()`), the random
draw behind the one-time codes, the password comparison and the outcome of sending
mail are parameters. HTTP replies are outcome datatypes whose `Code()` gives the
status the handler sends.

Two details of the code shape the model:

- The experience criterion adds to `totalCriteria` only when the level is met
  (utils/matchingEngine.js:63-65).
- The dashboard averages over all non-draft projects
  (controllers/collaboratorController.js:41).

## Model

| member | source | states |
|---|---|---|
| MatchingEngine.RoleKeys | utils/matchingEngine.js:12-14 | one matching key per profile role |
| MatchingEngine.SkillKeys | utils/matchingEngine.js:39-41 | one matching key per profile skill |
| MatchingEngine.Matched | utils/matchingEngine.js:15-17 | the filter keeps at most the needed entries, and every kept entry's lower-case form is a profile key |
| MatchingEngine.MatchedCounts | utils/matchingEngine.js:15-17 | the filter keeps every matching entry as often as it occurs (duplicates counted) and no other entry |
| MatchingEngine.MatchedAppend | utils/matchingEngine.js:15-17 | matching keeps the order of `rolesNeeded`/`techStack`: it distributes over concatenation |
| MatchingEngine.MatchedAll | utils/matchingEngine.js:42-45 | when every needed entry is among the keys, all of them are matched |
| MatchingEngine.MatchedIgnoresCase | utils/matchingEngine.js:15-17 | two needed lists that agree entry by entry up to case have equally many matches |
| MatchingEngine.RoleReasons | utils/matchingEngine.js:21-26 | one strength reason per matched role, at the same position |
| MatchingEngine.LevelIndex | utils/matchingEngine.js:59-61 | the rank lies in -1..3, and it is -1 exactly when the lower-cased level is not one of the four levels |
| MatchingEngine.RoleContribution | utils/matchingEngine.js:9-18 | every needed role is counted, and the matched count never exceeds it |
| MatchingEngine.RoleReasonRules | utils/matchingEngine.js:9-32 | no role reason without needed roles; one strength reason per matched role in `rolesNeeded` order; otherwise one consideration exactly when the profile names a role |
| MatchingEngine.TechContribution | utils/matchingEngine.js:36-54 | every tech-stack entry is counted; there is one reason exactly when a skill matched, and it summarises the matched skills in `techStack` order |
| MatchingEngine.SkillsSummary | utils/matchingEngine.js:48-52 | up to three matched names are shown in full, joined by ", "; with N more, the first three joined by ", " are followed by " and N more" |
| MatchingEngine.ExperienceContribution | utils/matchingEngine.js:58-76 | score and total move together, by 1 exactly when both levels are set and the profile's rank is at least the project's; the growth consideration comes exactly when it is one rank short |
| MatchingEngine.AvailabilityReasons | utils/matchingEngine.js:79-89 | at most one reason, present exactly when availability and timeline are set and the availability is flexible or part-time |
| MatchingEngine.Combined | utils/matchingEngine.js:4-89 | across all criteria the raw score never exceeds `totalCriteria` |
| MatchingEngine.TopCandidate | utils/matchingEngine.js:92-97 | at most the top-candidate reason, present exactly when 5·score > 3·total; always on a full match of something evaluated, never at half or less |
| MatchingEngine.Percentage | utils/matchingEngine.js:99 | 0 when nothing was evaluated, within 0..100 when score ≤ total, 100 on a full match |
| MatchingEngine.PercentageIsNearest | utils/matchingEngine.js:99 | the percentage is the integer nearest to 100·score/total, with halves rounded up |
| MatchingEngine.PercentageMonotone | utils/matchingEngine.js:99 | a larger matched fraction never gives a smaller percentage |
| MatchingEngine.CalculateMatchScore | utils/matchingEngine.js:1-101 | an absent profile gives score 0 and no reasons; every score is in 0..100 |
| MatchingEngine.TopCandidateIsLast | utils/matchingEngine.js:92-97 | the criteria's reasons come first; one more reason, the top-candidate one, is appended last exactly when 5·score > 3·totalCriteria |
| MatchingEngine.ExperienceNeverLowersScore | utils/matchingEngine.js:63-65 | a profile with an experience level never scores less than the same profile without one |
| MatchingEngine.ExperienceAddsOnly | utils/matchingEngine.js:58-76 | the experience criterion adds its score to both the score and `totalCriteria` and changes nothing else |
| MatchingEngine.PercentageStep | utils/matchingEngine.js:63-65 | adding a criterion that is counted and matched never lowers the percentage |
| MatchingEngine.AvailabilityNeverScores | utils/matchingEngine.js:79-89 | the availability and the timeline never change the score |
| MatchingEngine.CountedFields | utils/matchingEngine.js:9-76 | the three counted criteria read only roles, skills and experience levels |
| MatchingEngine.ScoreIsPercentage | utils/matchingEngine.js:99 | the score is the rounded percentage of the combined counts |
| MatchingEngine.CombinedCounts | utils/matchingEngine.js:10-65 | the raw score and `totalCriteria` are the sums over the three counted criteria |
| MatchingEngine.FullMatchScoresHundred | utils/matchingEngine.js:99 | matching every needed role and tech-stack entry scores 100 whenever a criterion was evaluated |
| MatchingEngine.NoCriteriaScoresZero | utils/matchingEngine.js:99 | with no roles or stack needed and a level missing, nothing is evaluated and the score is 0 whatever the profile |
| MatchingEngine.ScoreIgnoresCase | utils/matchingEngine.js:12-81 | changing the case of roles, skills, levels or availability changes neither the score nor the number of reasons |
| MatchingEngine.RolesIgnoreCase | utils/matchingEngine.js:12-17 | the role criterion gives the same counts and number of reasons up to case |
| MatchingEngine.TechIgnoresCase | utils/matchingEngine.js:39-44 | the tech criterion gives the same counts and number of reasons up to case |
| MatchingEngine.ExperienceIgnoresCase | utils/matchingEngine.js:60-61 | the experience criterion gives the same counts and number of reasons up to case |
| MatchingEngine.AvailabilityIgnoresCase | utils/matchingEngine.js:81 | the availability reason does not depend on the case of the availability |
| MatchingEngine.ReasonsLength | utils/matchingEngine.js:20-97 | the number of reasons is the sum of each criterion's reasons plus the closing one when earned |
| MatchingEngine.ExampleMatches | utils/matchingEngine.js:12-45 | worked case: the frontend role and two of the three skills match |
| MatchingEngine.ExampleLevels | utils/matchingEngine.js:59-61 | worked case: "advanced" ranks 2 and "intermediate" ranks 1 |
| MatchingEngine.ExampleRole | utils/matchingEngine.js:9-26 | worked case: the role criterion scores 1 of 1 with one role reason |
| MatchingEngine.SkillsSummaryExamples | utils/matchingEngine.js:48-52 | worked cases of the tech reason text: two skills are listed as they are; five show the first three and "and 2 more" |
| MatchingEngine.ExampleTech | utils/matchingEngine.js:36-54 | worked case: the tech criterion scores 2 of 3 with one reason |
| MatchingEngine.ExampleExperience | utils/matchingEngine.js:58-69 | worked case: the experience criterion scores 1 of 1 with one reason |
| MatchingEngine.ExampleCombined | utils/matchingEngine.js:4-89 | worked case: 4 of 5 criteria match, with three criterion reasons, the role's first |
| MatchingEngine.FrontendExample | utils/matchingEngine.js:92-100 | worked case: the score is 80 with four reasons, the last the top-candidate reason |
| MatchingEngine.ScoreMatch | utils/matchingEngine.js:1-101 | the step-by-step scorer returns exactly `CalculateMatchScore` |
| MatchingEngine.CheckRoles | utils/matchingEngine.js:9-33 | the role block adds the role criterion's counts to the accumulators and appends its reasons |
| MatchingEngine.PushRoleReasons | utils/matchingEngine.js:21-26 | the `forEach` appends one reason per matched role, in order |
| MatchingEngine.CheckTechStack | utils/matchingEngine.js:36-55 | the tech block adds the tech criterion's counts and reasons |
| MatchingEngine.CheckExperience | utils/matchingEngine.js:58-76 | the experience block adds the experience criterion's counts and reasons |
| MatchingEngine.CheckAvailability | utils/matchingEngine.js:79-89 | the availability block appends its reason and leaves the counters alone |
| Common.Lower | utils/matchingEngine.js:13 | lower-casing keeps the length |
| Common.LowerIdempotent | utils/matchingEngine.js:16 | lower-casing twice is lower-casing once |
| Common.IndexOf | utils/matchingEngine.js:60 | `indexOf` gives -1 exactly for an absent value, else the first position holding it |
| Common.NatToString | utils/matchingEngine.js:52 | the decimal form of a number is non-empty, all digits, and has no leading zero |
| Common.Join | utils/matchingEngine.js:48 | joining a single name gives that name |
| ProjectModel.NeedsOf | utils/matchingEngine.js:9-79 | the scorer reads `rolesNeeded`, `techStack` and the level and timeline of `projectDetails` |
| ProjectModel.Project.constructor | controllers/projectController.js:44-51 | a new project holds the given fields; status "active", stage "team-search" and empty lists are the schema defaults |
| CollaboratorController.ActiveProjects | controllers/collaboratorController.js:12 | the candidates are the active projects: each active project is kept as often as it is stored, and no other |
| CollaboratorController.ScoreAll | controllers/collaboratorController.js:16-23 | one scored entry per project, in order, with the project, a score in 0..100, and exactly the score and reasons the matching engine gives that profile and the project's needs |
| CollaboratorController.AboveThreshold | controllers/collaboratorController.js:24 | every kept match scores above 10 |
| CollaboratorController.AboveThresholdCounts | controllers/collaboratorController.js:24 | every match above 10 is kept as often as it occurs, and no other |
| CollaboratorController.Insert | controllers/collaboratorController.js:25 | inserting adds exactly the one entry |
| CollaboratorController.InsertKeeps | controllers/collaboratorController.js:25 | inserting into a best-first list keeps it best-first and adds exactly that entry |
| CollaboratorController.SortByScore | controllers/collaboratorController.js:25 | the sort is a permutation of its input |
| CollaboratorController.SortByScoreSorts | controllers/collaboratorController.js:25 | the sort orders by non-increasing score and is a permutation of its input |
| CollaboratorController.GetMatches | controllers/collaboratorController.js:12-25 | every returned match is a stored active project scoring in 11..100 |
| CollaboratorController.GetMatchesSpec | controllers/collaboratorController.js:12-25 | `matches` is best-first; each entry is an active project scoring in 11..100; it holds each scored active project above 10 as often as it was scored, and nothing else |
| CollaboratorController.NonDraft | controllers/collaboratorController.js:41 | the dashboard considers every non-draft project, as often as it is stored, and no draft |
| CollaboratorController.AppliedTo | controllers/collaboratorController.js:42 | the applications are exactly the projects with an applicant entry of the user |
| CollaboratorController.ScoreOf | controllers/collaboratorController.js:57 | a project's score is in 0..100 |
| CollaboratorController.ProjectScores | controllers/collaboratorController.js:56-57 | one score per project, in order |
| CollaboratorController.MatchScores | controllers/collaboratorController.js:58 | the counted scores are scores of the projects, and each is above 10 |
| CollaboratorController.MatchScoresAppend | controllers/collaboratorController.js:56-62 | one more project extends the counted scores exactly when its score is above 10 |
| CollaboratorController.RoundedMean | controllers/collaboratorController.js:64 | 0 without matches; otherwise the integer nearest `total / count`, a half rounded up |
| CollaboratorController.MeanWithin | controllers/collaboratorController.js:64 | the rounded mean of scores in 11..100 is itself in 11..100 |
| CollaboratorController.CountJoined | controllers/collaboratorController.js:46-50 | at most one per application, and 0 exactly when the user has joined none of them |
| CollaboratorController.CountCompleted | controllers/collaboratorController.js:69 | at most one per application, and 0 exactly when none of them is completed |
| CollaboratorController.JoinedAndCompletedDisjoint | controllers/collaboratorController.js:46-69 | joined plus completed projects never exceed the applications |
| CollaboratorController.CountMatch | controllers/collaboratorController.js:57-61 | one pass of the loop adds the project's score to the total and counts it exactly when it is above 10 |
| CollaboratorController.TallyScores | controllers/collaboratorController.js:53-62 | the loop's `totalScore` and `matchCount` are the sum and number of the scores above 10 |
| CollaboratorController.GetDashboardStats | controllers/collaboratorController.js:41-71 | matches, joined and completed counts and the rounded mean of the non-draft projects' scores above 10 |
| CollaboratorController.DashboardBounds | controllers/collaboratorController.js:53-69 | the mean is 0 without matches and in 11..100 with some; matches never exceed non-draft projects; joined plus completed never exceed applications |
| CollaboratorController.FirstApplication | controllers/collaboratorController.js:97-99 | the user's first application in the project, or -1 exactly when there is none |
| CollaboratorController.OrDefault | controllers/collaboratorController.js:122 | JavaScript `s \|\| default` on strings: `s` when non-empty, the default otherwise |
| CollaboratorController.EntryFor | controllers/collaboratorController.js:96-126 | an entry exactly when the project holds an application by the user; it carries the first such application's id, status, appliedAt and message, its `roleAppliedFor` or "collaborator", the project's id, title and roles, company "BuildGether", not deleted, the owner's name or "Unknown", and the project's score from `calculateMatchScore` |
| CollaboratorController.ListedAppliedTo | controllers/collaboratorController.js:90 | keeps exactly the listed projects holding an application by the user, each as often as in the input, dropping the rest |
| CollaboratorController.Present | controllers/collaboratorController.js:128 | the filter keeps exactly the non-null entries, never more entries than it got |
| CollaboratorController.PresentAll | controllers/collaboratorController.js:128 | when no entry is null the filter drops nothing |
| CollaboratorController.GetApplications | controllers/collaboratorController.js:80-128 | every returned entry names company "BuildGether", is not deleted, has a non-empty role and a score in 0..100 |
| CollaboratorController.GetApplicationsOnePerProject | controllers/collaboratorController.js:90-128 | one entry per project holding an application by the user, in query order, with that project, its first such application and its status |
| ApplicantController.AddIfAbsent | controllers/applicantController.js:140-142 | the user is then a collaborator; the old list stays as a prefix with at most one entry added; the user is listed once if absent before, and no more often than before otherwise |
| ApplicantController.JoinTeam | controllers/applicantController.js:146-153 | the user is then a team member; the old team stays as a prefix with at most one entry added, which for a new member carries `roleAppliedFor` or "Collaborator" |
| ApplicantController.JoinTeamKeepsUnique | controllers/applicantController.js:146-153 | joining keeps one team entry per user |
| ApplicantController.AddIfAbsentKeepsNoDuplicates | controllers/applicantController.js:140-142 | adding keeps `collaborators` free of duplicates |
| ApplicantController.ApplicantIndex | controllers/applicantController.js:134 | `applicants.id(id)`: the first sub-document with that id, or -1 exactly when none has it |
| ApplicantController.AcceptState | controllers/applicantController.js:139-153 | only that applicant's status (now "accepted"), `collaborators` and `team` change; `collaborators` becomes `AddIfAbsent` and `team` becomes `JoinTeam` of the applicant's user and `roleAppliedFor` |
| ApplicantController.AcceptMakesMember | controllers/applicantController.js:139-153 | after accepting, the user is a collaborator and a team member, listed once if not listed before; the old collaborators and team are kept in front; a new team entry carries `roleAppliedFor`, or "Collaborator" when it is empty; both lists stay free of duplicates |
| ApplicantController.AcceptIdempotent | controllers/applicantController.js:139-153 | accepting the same applicant again changes nothing |
| ApplicantController.AcceptApplicant | controllers/applicantController.js:129-164 | a missing project or applicant gives 404 and changes nothing; otherwise the project becomes `AcceptState` and the applicant is notified |
| ApplicantController.AddCollaborator | controllers/applicantController.js:140-142 | the project's `collaborators` become `AddIfAbsent` of the user and nothing else changes |
| ApplicantController.AddTeamMember | controllers/applicantController.js:146-153 | the project's `team` becomes `JoinTeam` and nothing else changes |
| ApplicantController.RejectApplicant | controllers/applicantController.js:106-119 | 404 when no project or sub-document matches; otherwise only that applicant's status changes, to "rejected" |
| ApplicantController.InviteUsers | controllers/applicantController.js:183-185 | the invited users, position by position |
| ApplicantController.FirstInvite | controllers/applicantController.js:183-185 | `invites.find`: the user's first invite, or -1 exactly when there is none |
| ApplicantController.FirstPendingInvite | controllers/applicantController.js:183-191 | the user's first pending invite, or -1 exactly when none is pending |
| ApplicantController.FirstPendingIsFirst | controllers/applicantController.js:183-191 | no pending invite of the user comes before the one chosen |
| ApplicantController.InviteToAnswer | controllers/applicantController.js:183-191 | the invite answered is the user's, -1 exactly when the user has none, and a non-pending one is chosen only when none is pending |
| ApplicantController.InviteToAnswerAgrees | controllers/applicantController.js:183-191 | when the user has no pending invite, or the first invite is the pending one, the corrected lookup picks the same invite as `find` |
| ApplicantController.AcceptInviteCheckAt | controllers/applicantController.js:187-191 | 404 exactly when there is no invite; it is accepted exactly when the chosen invite is pending |
| ApplicantController.AcceptInviteAsWritten | controllers/applicantController.js:179-191 | as written, a missing project gives 404 and the user's first invite decides |
| ApplicantController.ReinvitedUserCannotAccept | controllers/applicantController.js:183-191 | a user whose invite was rejected can be invited again, but as written is then told "already processed" |
| ApplicantController.InvitedUserCanAccept | controllers/applicantController.js:183-193 | with the corrected lookup, every invite `inviteCollaborator` sends can be accepted |
| ApplicantController.AcceptInviteState | controllers/applicantController.js:193-196 | only the invite (now "accepted") and `collaborators` change; `collaborators` is the old list with the user appended, whether or not already listed |
| ApplicantController.InviteAndApplicationDuplicate | controllers/applicantController.js:196 | invite, then accept the user's application, then accept the invite: the user is listed twice in `collaborators` |
| ApplicantController.AcceptInvite | controllers/applicantController.js:179-200 | the outcome is the guard's verdict on the chosen invite; on success the project becomes `AcceptInviteState`, otherwise it is unchanged |
| ApplicantController.RejectInvite | controllers/applicantController.js:205-226 | the corrected handler: a missing project gives 500; no invite gives 404; otherwise the project becomes `RejectInviteState` of the invite `InviteToAnswer` picks |
| ApplicantController.RejectInviteState | controllers/applicantController.js:218 | only the chosen invite changes, to "rejected", keeping its user; every other invite and field is kept |
| ApplicantController.RejectInviteAsWritten | controllers/applicantController.js:205-218 | as written, a missing project gives 500, no invite of the user gives 404, and otherwise the user's first invite is rejected whatever its status |
| ApplicantController.ReinvitedUserCannotReject | controllers/applicantController.js:212-218 | a user whose invite was rejected can be invited again, but as written rejecting then answers 200, changes nothing and leaves the new invite pending |
| ApplicantController.InvitedUserCanReject | controllers/applicantController.js:212-218 | with the corrected lookup, the invite `inviteCollaborator` sends is the one answered, and rejecting it leaves the user no pending invite |
| ProjectController.CreateCheck | controllers/projectController.js:16-42 | created exactly when every required field is truthy, the owner is the caller and any named applicant exists; a missing `projectDetails` is read and throws only after title, description, roles and stack passed |
| ProjectController.CreateProject | controllers/projectController.js:44-56 | a fresh project exactly on success, holding the request's fields and the caller as owner, every other field at its default |
| ProjectController.ApplyCheck | controllers/projectController.js:201-213 | 404 exactly for a missing project; submitted exactly when the user has no applicant entry |
| ProjectController.ApplyState | controllers/projectController.js:215-218 | exactly one entry `{user, roleAppliedFor}` is appended, status pending, and nothing else changes |
| ProjectController.ApplyKeepsOneEntry | controllers/projectController.js:207-218 | applying keeps one applicant entry per user, and a second application is refused |
| ProjectController.ApplyToProject | controllers/projectController.js:196-223 | the outcome is `ApplyCheck`; on success the project becomes `ApplyState`, otherwise it is unchanged |
| ProjectController.ApplyAsWritten | controllers/projectController.js:198-218 | as written, a project with applicants makes the handler throw; the handler has no `try`, so it sends no answer of its own; an empty one stores an entry without a user |
| ProjectController.ApplyAsWrittenLosesCaller | controllers/projectController.js:198-218 | as written, the first application is stored without the caller and every later one throws, and the handler has no `try`, so it sends no answer of its own, while the corrected check accepts it and records the caller |
| ProjectController.InviteCheck | controllers/projectController.js:230-251 | each outcome exactly when the guards before it pass and its own fails, in order: 404 for a missing project, 403 for a caller who is not the owner, 400 for a user already a collaborator, 400 for a user with a pending invite; sent otherwise; accepted or rejected invites never block |
| ProjectController.InviteState | controllers/projectController.js:253 | exactly one invite `{user}` is appended, status pending, and nothing else changes |
| ProjectController.InviteKeepsOnePending | controllers/projectController.js:244-253 | inviting keeps one pending invite per user, and a repeat invitation is refused |
| ProjectController.InviteCollaborator | controllers/projectController.js:230-257 | the outcome is `InviteCheck`; on success the project becomes `InviteState`, otherwise it is unchanged |
| ProjectController.ArchiveProject | controllers/projectController.js:169-177 | 404 exactly when no project is found; otherwise only `projectStatus` changes, to "archived", a value of the schema enum |
| AuthController.RoleOf | models/User.js:18-22 | an absent role is "collaborator"; only "collaborator" and "project_owner" are roles |
| AuthController.User.constructor | controllers/authController.js:63-71 | the new user record holds exactly the given state |
| AuthController.GenerateOtp | controllers/authController.js:49 | every generated code lies in 100000..999999 |
| AuthController.OtpHasSixDigits | controllers/authController.js:161 | every generated code is written with six digits and no leading zero |
| AuthController.RegisterCheck | controllers/authController.js:29-101 | each outcome exactly when the guards before it pass and its own fails, in order: invalid email, short password, mismatch, taken email, failed mail, rejected save; registered exactly when all pass; 201 only then |
| AuthController.RegisterAsWritten | controllers/authController.js:29-60 | as written, never registered; "Failed to send OTP email." exactly when the four guards pass |
| AuthController.RegisterAsWrittenNeverRegisters | controllers/authController.js:52-60 | as written, every request that passes the guards fails as if the mail had failed, so none registers |
| AuthController.Register | controllers/authController.js:49-71 | on success a fresh unverified user holding the email lower-cased (as the schema stores it), the role, the generated code and an expiry ten minutes ahead; no user otherwise |
| AuthController.VerifyCheck | controllers/authController.js:116-130 | each outcome exactly when the guards before it pass and its own fails, in order: missing fields, unknown user (the only 404), already verified, wrong code, expired (`otpExpires < now`, so an expiry equal to now is accepted); verified exactly when all pass |
| AuthController.VerifiedState | controllers/authController.js:133-135 | after verification the account is verified with code and expiry cleared, and other fields are kept |
| AuthController.VerifyOtp | controllers/authController.js:112-145 | the outcome is `VerifyCheck`; the record becomes `VerifiedState` on success and is unchanged otherwise |
| AuthController.VerifyOnlyOnce | controllers/authController.js:123-135 | after a verification, every further attempt with any code is told "already verified" |
| AuthController.RegisterThenVerify | controllers/authController.js:49-130 | a newly registered user who sends the mailed code within ten minutes is verified |
| AuthController.ResendCheck | controllers/authController.js:151-158 | each outcome exactly when its guard is the first to fire: 400 for a missing email, 404 for an unknown user, 400 for an already verified user, 500 when the mail fails, and resent otherwise |
| AuthController.ResendAsWritten | controllers/authController.js:148-187 | as written, never answers 200; 500 exactly when the email is given and the user exists unverified |
| AuthController.ResendAsWrittenNeverSucceeds | controllers/authController.js:170-186 | as written, no resend answers 200; it fails with 500 exactly where the corrected handler succeeds |
| AuthController.ReissuedState | controllers/authController.js:161-165 | the new code with an expiry fifteen minutes ahead, other fields kept |
| AuthController.ResendOtp | controllers/authController.js:147-188 | the outcome is `ResendCheck`; past the guards the new code is saved whether or not the mail then fails; otherwise the record is unchanged |
| AuthController.ResendThenVerify | controllers/authController.js:161-165 | the re-issued code verifies for fifteen minutes, and the old one no longer does |
| AuthController.GateAsWritten | controllers/authController.js:205-208 | the written condition refuses exactly the project owners and the unverified |
| AuthController.Gate | controllers/authController.js:205-208 | the intended condition refuses exactly the unverified collaborators |
| AuthController.LoginAsWritten | controllers/authController.js:190-212 | as written, 404 exactly without a user; logged in exactly as a verified collaborator with the right password; refused as unverified exactly for project owners and the unverified |
| AuthController.Login | controllers/authController.js:196-212 | 404 exactly when no user is found and 400 exactly for a wrong password; with the evidently intended gate, a found user with the right password logs in exactly when a project owner or verified; 403 exactly for an unverified collaborator |
| AuthController.OwnersLockedOut | controllers/authController.js:205-212 | as written, every project owner with the right password is refused with 403; the intended gate admits them |
| AuthController.CollaboratorsAgree | controllers/authController.js:205-212 | for collaborators the written gate and the intended one agree: they log in exactly when verified |
| TaskController.Task.constructor | controllers/taskController.js:17-24 | a new task holds exactly the given fields |
| TaskController.Shown | controllers/taskController.js:80 | an absent status shows as "undefined" in the notification text |
| TaskController.OwnerOf | controllers/taskController.js:10-13 | the owner of a found project, `None` exactly for a missing one |
| TaskController.CreateCheck | controllers/taskController.js:10-15 | 404 exactly for a missing project, 403 exactly when the caller does not own it, created otherwise |
| TaskController.AssignedNotice | controllers/taskController.js:29-37 | a "task_assigned" notice exactly when there is an assignee, addressed to the assignee and sent by the caller |
| TaskController.CreateTask | controllers/taskController.js:5-43 | the outcome is `CreateCheck`; on success a fresh task with the given fields and no notes, and the assignment notice; otherwise no task and no notice |
| TaskController.MayUpdate | controllers/taskController.js:54-60 | only a task whose project exists may be updated, and then both its project's owner and its assignee may |
| TaskController.UpdateCheck | controllers/taskController.js:51-60 | 404 exactly for a missing task; 500 when its project is gone; allowed exactly for the project owner or the assignee |
| TaskController.Update | controllers/taskController.js:62-68 | the status is replaced only by a provided one; a provided note `{user, text}` is appended after the unchanged old notes; nothing else changes |
| TaskController.Recipient | controllers/taskController.js:73 | the assignee when the owner updates, the owner otherwise |
| TaskController.RecipientIsOtherParty | controllers/taskController.js:73-74 | an update notifies its own author only when the owner assigned the task to themselves; an assignee's update always reaches the owner; nobody is notified only for an owner's update of an unassigned task |
| TaskController.UpdatedNotice | controllers/taskController.js:73-82 | a "task_updated" notice exactly when there is a recipient, sent by the caller about the task's project |
| TaskController.UpdateTaskStatus | controllers/taskController.js:45-88 | the outcome is `UpdateCheck`; on success the task becomes `Update` and the notice is `UpdatedNotice`; otherwise the task is unchanged and no notice is sent |
| TaskController.Step | controllers/taskController.js:51-68 | a request never changes a task's project, assignee or title |
| TaskController.Replay | controllers/taskController.js:51-68 | any series of requests keeps the task's project, assignee and title |
| TaskController.NotesAppendOnly | controllers/taskController.js:62-68 | over any series of requests the old notes stay at the front, and every added note was written by the owner or the assignee |
| TaskController.OutsidersChangeNothing | controllers/taskController.js:55-60 | requests from anyone but the owner and the assignee leave the task as it was |
| TaskController.DeleteTask | controllers/taskController.js:105-112 | 404 for a missing task, 500 when its project is gone; deleted exactly for the project owner, removing only that task; otherwise the tasks are unchanged |
| TaskController.DeleteNarrowerThanUpdate | controllers/taskController.js:105-110 | whoever may delete may update, while an assignee who does not own the project may update but never delete |
| Validation.PasswordRule | middleware/validation.js:6-8 | six characters always pass and fewer than three never do, since a character takes one or two UTF-16 units |
| Validation.ValidatePassword | middleware/validation.js:6-8 | a password passes exactly when its JavaScript `length` (UTF-16 code units) is at least 6 |
| Validation.Utf16Length | middleware/validation.js:7 | the UTF-16 length lies between the number of characters and twice that, and is 0 exactly for the empty string |
| Validation.BmpLength | middleware/validation.js:7 | without characters beyond the Basic Multilingual Plane the length is the number of characters |
| Validation.PasswordExamples | middleware/validation.js:6-8 | three emoji (six code units) pass; five ASCII letters do not |
| Validation.ValidateEmail | middleware/validation.js:1-4 | an accepted email has at least six characters, starts with a word character and holds an '@' |
| Validation.SuffixShape | middleware/validation.js:2 | the `(\.\w{2,3})+` part starts with a dot, holds only dots and word characters, never two separators in a row, and ends with a dot and 2 or 3 word characters |
| Validation.DomainShape | middleware/validation.js:2 | the part after '@' starts and ends with a word character and holds no '@' and no doubled separator |
| Validation.EmailShape | middleware/validation.js:1-4 | every accepted email has exactly one '@' with a word character on each side, starts and ends with a word character, never has two '.'/'-' in a row, and ends with '.' and 2 or 3 word characters |
| Validation.Listed | middleware/validation.js:24-34 | each rule contributes at most one error |
| Validation.Checked | middleware/validation.js:24-34 | the first k rules contribute at most k errors |
| Validation.Messages | middleware/validation.js:24-34 | one message per error |
| Validation.CheckedSpec | middleware/validation.js:24-34 | among the first k rules, a rule is listed exactly when broken, in checking order |
| Validation.ExamErrorsSpec | middleware/validation.js:24-36 | every rule is checked, and the errors are the broken rules, in the fixed order, none twice, at most 8; the list is empty exactly when every check passes; the passing-marks error comes exactly when neither mark is `undefined` and passing > total, a `null` counting as 0 |
| Validation.ToNumber | middleware/validation.js:33 | the comparison reads a `null` field as 0, a number as itself and `undefined` as NaN |
| Validation.NullTotalMarks | middleware/validation.js:31-34 | with passing marks 5, a `null` total breaks both the total-marks and the passing-marks rules, an absent total only the first |
| Validation.MessagesUpToBroken | middleware/validation.js:24-34 | the pushed messages are those of the broken rules, in order |
| Validation.TestsAreRules | middleware/validation.js:24-34 | each test the validator writes is exactly the breach of its rule |
| Validation.CheckRule | middleware/validation.js:24-34 | one test pushes its rule's message exactly when the rule is broken |
| Validation.ValidateExamData | middleware/validation.js:11-37 | the returned errors are the messages of every broken rule, in the fixed order |

## Left out

- Database access (`findById`, `findOne`, `populate`, `save`, `create`, `findByIdAndDelete`): each record is an in-memory value or object passed in. A cast error on a malformed id, a failing save and the 500 replies these raise are not modelled.
- HTTP wiring, request parsing and the JSON bodies: outcomes are datatypes with their status code; the messages are named by the constructors.
- JWT signing (`generateToken`) and bcrypt hashing: the password comparison is the boolean parameter `passwordMatches`, and no password is stored in the user record.
- Sending mail (`sendOtpEmail`, `transporter.sendMail`) is the boolean parameter `mailSent`. The mail's content is not modelled.
- `Date.now()` is the parameter `now`. `Math.random()` is a fraction `draw/range` with `draw < range`.
- Notification records are values returned by the handlers. `Notification.create` and its failure are not modelled. The acceptance notification of `acceptApplicant` is reduced to its recipient.
- models/Task.js is not part of this model: the status a new task gets from that schema is the parameter `defaultStatus`.
- `getProjectTasks` is a single database query with nothing to model.
- `register`'s `CollaboratorProfile.create` calls and the `fullName` trimming done by the schema are not modelled. `Storable` stands for the schema's required-field and enum checks at save time.
- `createProject`: attaching the found applicant record to the new project is not modelled. The applicant lookup is the parameter `applicantFound`.
- `archiveProject` looks a project up by id only. The `owner` written into the lookup object has no effect on the search and is not modelled.
- Module-level breakage is not modelled: the duplicate `const` declarations at controllers/projectController.js:61-62, and route files importing handlers that are not exported. The undefined `schoolName` and the unexported `transporter` are findings below; `Register` and `ResendOtp` take the outcome of sending the mail as a parameter.
- Schema fields no handler here reads (`views`, `isActive`, timestamps) are left out.
- The `otp` in a `verifyOtp` request is a string compared with the stored string. A number sent in JSON would never equal the stored string, so that case always gets "Invalid OTP". The model does not represent it.
- Validation.ValidateExamData: numeric fields are `undefined`, `null` or an integer. Fractional numbers, numeric strings, `NaN` sent as a value and other loose comparisons are not modelled. A `null` string field behaves like an absent one and is modelled as "".
- CollaboratorController.EntryFor: `appliedAt` is always the application's own. The source falls back to the project's `createdAt` when it is missing, which cannot happen once the schema default `Date.now` has filled it (models/CreateProject.js:71-73).
- AuthController.RoleOf: "" stands for an absent role, which takes the schema default. A role sent explicitly as the empty string is not modelled; the enum refuses it at save (models/User.js:18-22).
- `getMatches` and `getApplications` attach the reasons and the populated owner view. The rest of `project.toObject()` is not spelt out.
- MatchingEngine.Percentage: computed in exact arithmetic. The source divides in floating point before `Math.round`, so a few inputs land just below a half and round down (23 of 40 gives 57, where the exact value 57.5 gives 58). The threshold 5·score > 3·total agrees with `score > totalCriteria * 0.6` for totals below 400.
- CollaboratorController.RoundedMean: exact round-half-up of `totalScore / matchCount`. It agrees with the floating-point `Math.round` for fewer than 300 matches.
- Common.Lower: ASCII letters only. `toLowerCase` also folds non-ASCII letters.
- CollaboratorController.GetMatchesSpec: states ordering and contents; the order among equal scores, which JavaScript's stable sort keeps, is not stated.

## Findings

| source | as written | input that shows it | evidently intended | confidence | as-written member | corrected member |
|---|---|---|---|---|---|---|
| controllers/authController.js:205-212 | the login gate is `role !== "collaborator" \|\| (role !== "project_owner" && !isVerified)`, true for every project owner | a verified project owner with the right password gets 403 "Your email is not verified" | refuse only unverified users who are not project owners | high, not executed | AuthController.OwnersLockedOut | AuthController.Login |
| controllers/projectController.js:198 | the caller's id is read from `req.user_id`, which the authentication middleware never sets | the first application stores an entry with no user and answers 200; every later application throws inside the `some` callback; the handler has no `try`, so it sends no answer of its own (what the server then does depends on the Express version: a 500 from the error handler, or an unhandled rejection) | read the caller from the authenticated user | high, not executed | ProjectController.ApplyAsWrittenLosesCaller | ProjectController.ApplyKeepsOneEntry |
| controllers/applicantController.js:183-191 | `acceptInvite` answers the user's first invite, while `inviteCollaborator` blocks only pending invites (controllers/projectController.js:245-247) | invite a user, reject, invite again: accepting answers 400 "Invite already processed" | answer the user's pending invite, which the model does throughout | medium, not executed | ApplicantController.ReinvitedUserCannotAccept | ApplicantController.InvitedUserCanAccept |
| controllers/applicantController.js:212-218 | `rejectInvite` rejects the user's first invite, whatever its status | invite a user, reject, invite again, reject again: the answer is 200 "Invite rejected", the first invite is rejected once more and the new invite stays pending | reject the user's pending invite | medium, not executed | ApplicantController.ReinvitedUserCannotReject | ApplicantController.InvitedUserCanReject |
| controllers/authController.js:53 | the OTP mail is sent with `schoolName`, a name declared nowhere | any valid new registration gets 500 "Failed to send OTP email." and no account is created | send the user's own `fullName` | high, not executed | AuthController.RegisterAsWrittenNeverRegisters | AuthController.RegisterThenVerify |
| controllers/authController.js:170 | the new code is mailed with `transporter`, which middleware/sendEmail.js does not export | any resend for an unverified user saves the new code and then answers 500 | send through the exported mail helper | high, not executed | AuthController.ResendAsWrittenNeverSucceeds | AuthController.ResendThenVerify |
