# EventBuzz core in Dafny

A model of the EventBuzz front end's state logic (the EventWall React app) and of the back end's
`/signup` and `/login` routes, with proofs about them. The model has four groups.

- **Feed.**
  - The `HomeFeed` post list, a class over `seq<Post>`. Its handlers prepend, toggle a like, append a comment and cast a vote.
  - The simulated-activity tick. It takes an injected draw per post and fires the notification callback once per like it adds.
  - The guards and labels of `Post`: the comment box, the write-once vote buttons, the percentage's zero guard and the "time ago" label.
  - The `PostForm` composer. It checks a submission, builds the new post and edits a list of two to four poll options.
- **Session.**
  - The `AuthContext` provider. Its user is mirrored into an `Option` slot that stands for `localStorage`.
  - The `AuthWrapper` onboarding machine, signup → profile → welcome → complete.
  - The `App` gate (spinner, onboarding or main app), its view dispatch and its unread counter. It owns the feed and the team page, and a view switch remounts whichever of them it leaves.
  - The `SignInForm` submit handler.
- **Validators and list editors.**
  - `SignUpForm`: validation, including the unanchored e-mail pattern `/\S+@\S+\.\S+/`, the payload and `updateField`.
  - `ProfileSetup`: the skill editor.
  - `WelcomeScreen`: the tip carousel, the skill preview with its "+k more" badge, and the subtitle.
  - `EventCreateModal`: the 48-slot time table, the validator, the venue that is sent, the tag editor and `updateField`.
  - `Navigation`: the notification age label and the unread badge.
  - `TeamsView` and `AddTeamForm`: the team list and the team form.
- **Back end.** The `/signup` and `/login` decisions, over a user collection seen as a map from e-mail to record. Password comparison and token signing are parameters.

Shared modules:
- `Text`: JavaScript whitespace, `trim`, decimal rendering, `padStart` and string `<`.
- `Records`: loosely typed objects as `map<string, Value>`. Object spread is right-biased map union.
- `Lists`: `filter(y => y !== x)` and freedom from duplicates.
- `FormErrors`: the "blank a shown error" step of `updateField`.
- `TimeAgo`: the age bucketing that `Post` and `Navigation` share.
- `Wrappers`: `Option`.

Components that mutate React state are classes whose methods state their new state. Pure
expressions are functions. The scenario methods (`App.FirstVisit`, `AuthContext.ReloadAfterLogin`,
`WelcomeScreen.TipAfterClicks` and others) drive those classes and state the outcome.
`isAuthenticated` is `AuthContext.AuthProvider.IsAuthenticated`, true exactly when a user is
present. The provider's method contracts say when the slot mirrors the user.

Where the documented design of the system and its code differ, the model follows the code:
- Unknown post ids are silent no-ops, not errors.
- The double-vote guard exists only in `Post`'s buttons, not in `handleVote`.
- Notifications are a bare counter, and "Mark all read" has no handler.
- Onboarding starts at sign-up, and `SignInForm` is not wired into the onboarding machine.

## Model

| member | source | states |
|---|---|---|
| HomeFeed.BumpOption | frontend/src/components/HomeFeed.tsx:175-179 | every option whose id is the voted id gains exactly one vote; all other options, and every id and text, are unchanged |
| HomeFeed.SumAfterBump | frontend/src/components/HomeFeed.tsx:175-179 | the vote sum grows by the number of options carrying the voted id |
| HomeFeed.DistinctIdsCountOnce | frontend/src/components/HomeFeed.tsx:176 | with distinct option ids, each option's id is carried by exactly one option |
| HomeFeed.CountAbsent | frontend/src/components/HomeFeed.tsx:176 | an id that no option carries is counted zero times |
| HomeFeed.VoteOn | frontend/src/components/HomeFeed.tsx:173-189 | on the matching poll with options: the bumped options, a total (absent read as 0) plus one, and the recorded choice; every other field is kept and any other post is unchanged |
| HomeFeed.VotePreservesConsistency | frontend/src/components/HomeFeed.tsx:172-190 | a vote for an id held by exactly one option keeps the total equal to the sum of votes |
| HomeFeed.VoteForMissingOptionBreaksTotal | frontend/src/components/HomeFeed.tsx:176-184 | a vote for an id that no option holds still raises the total, so the total no longer equals the sum |
| HomeFeed.VoteTwiceCountsTwice | frontend/src/components/HomeFeed.tsx:173-186 | `handleVote` has no guard of its own: a second vote adds a second unit to the total and overwrites the choice |
| HomeFeed.LikeOn | frontend/src/components/HomeFeed.tsx:144-154 | the matching post's flag flips (absent read as false) and its likes move by one in the flag's direction; nothing else changes |
| HomeFeed.LikeTwice | frontend/src/components/HomeFeed.tsx:144-154 | liking twice restores the like count and the flag's meaning, and restores the post exactly once a flag is set |
| HomeFeed.CommentOn | frontend/src/components/HomeFeed.tsx:165-169 | the matching post gets the comment appended; any other post is unchanged |
| HomeFeed.LikeIn | frontend/src/components/HomeFeed.tsx:145-153 | same length and ids in order, and each post is rewritten by `LikeOn` |
| HomeFeed.CommentIn | frontend/src/components/HomeFeed.tsx:165-169 | same length and ids in order, and each post is rewritten by `CommentOn` |
| HomeFeed.VoteIn | frontend/src/components/HomeFeed.tsx:173-189 | same length and ids in order, and each post is rewritten by `VoteOn` |
| HomeFeed.LikeInTwice | frontend/src/components/HomeFeed.tsx:144-154 | over the whole feed, liking twice restores every post's likes and flag meaning |
| HomeFeed.UnknownIdIsNoOp | frontend/src/components/HomeFeed.tsx:145-189 | for an id no post has, like, comment and vote leave the feed unchanged |
| HomeFeed.VoteOnNonPollIsNoOp | frontend/src/components/HomeFeed.tsx:174 | a vote aimed at a post that is not a poll with options changes nothing |
| HomeFeed.CommentAppends | frontend/src/components/HomeFeed.tsx:156-170 | the target gains exactly the new comment at the end, and its earlier comments keep their content and order |
| HomeFeed.VoteInPreservesConsistency | frontend/src/components/HomeFeed.tsx:172-190 | across the feed, a vote for a single-option id keeps every poll's total equal to its sum |
| HomeFeed.BumpKeepsIdCounts | frontend/src/components/HomeFeed.tsx:175-179 | bumping keeps every id's option count, so the ids an option carries never change |
| HomeFeed.VoteInKeepsIdCounts | frontend/src/components/HomeFeed.tsx:172-190 | a vote keeps which posts have options and how many options carry each id, so a single-option id stays single for the next vote |
| HomeFeed.PrependKeepsWellFormed | frontend/src/components/HomeFeed.tsx:140-142 | a well formed new post in front of a well formed feed gives a well formed feed |
| HomeFeed.LikeInKeepsWellFormed | frontend/src/components/HomeFeed.tsx:144-154 | a like keeps every total equal to its sum and every poll's option ids distinct |
| HomeFeed.CommentInKeepsWellFormed | frontend/src/components/HomeFeed.tsx:156-170 | a comment keeps every total equal to its sum and every poll's option ids distinct |
| HomeFeed.VoteInKeepsWellFormed | frontend/src/components/HomeFeed.tsx:172-190 | a vote for an option the poll shows keeps every total equal to its sum and the option ids distinct |
| HomeFeed.TickOnlyAddsLikes | frontend/src/components/HomeFeed.tsx:116-133 | a tick keeps the same posts in the same order; each like count stays or grows by one, exactly where its draw came out true; every other field is untouched |
| HomeFeed.TickPreservesConsistency | frontend/src/components/HomeFeed.tsx:116-133 | a tick keeps every poll's total equal to its sum |
| HomeFeed.TickKeepsWellFormed | frontend/src/components/HomeFeed.tsx:116-133 | a tick keeps the feed well formed |
| HomeFeed.TickUpdate | frontend/src/components/HomeFeed.tsx:116-133 | the tick's updater loop: the posts it returns are the ticked posts, and with a callback present it fires once for each post whose likes grew |
| HomeFeed.InitialPollConsistent | frontend/src/components/HomeFeed.tsx:82-88 | the mock poll's total of 50 is the sum 15+8+23+4, and its choice 2 names exactly one option |
| HomeFeed.InitialPostsWellFormed | frontend/src/components/HomeFeed.tsx:42-102 | the three mock posts are newest first, have distinct ids and consistent totals, their recorded vote names one option, and the feed is well formed |
| HomeFeed.FeedStore.constructor | frontend/src/components/HomeFeed.tsx:109 | the feed starts as the mock posts, well formed |
| HomeFeed.FeedStore.NewPost | frontend/src/components/HomeFeed.tsx:140-142 | the new post is at index 0, and the old posts follow in their original order; a well formed post keeps a well formed feed so |
| HomeFeed.FeedStore.Like | frontend/src/components/HomeFeed.tsx:144-154 | the posts become `LikeIn` of the old posts; a well formed feed stays so |
| HomeFeed.FeedStore.AddComment | frontend/src/components/HomeFeed.tsx:156-170 | appends a comment by "Current User" with the given text, id and time; a well formed feed stays so |
| HomeFeed.FeedStore.Vote | frontend/src/components/HomeFeed.tsx:172-190 | the posts become `VoteIn` of the old posts; a well formed feed stays so when the vote names an option the poll shows |
| HomeFeed.FeedStore.Tick | frontend/src/components/HomeFeed.tsx:113-135 | one interval firing: the ticked posts, and the number of callback calls; a well formed feed stays so |
| PostView.SubmitComment | frontend/src/components/Post.tsx:51-56 | forwards exactly when the trimmed draft is non-empty, passes the untrimmed text and clears the box; otherwise the draft stays |
| PostView.CommentBox.constructor | frontend/src/components/Post.tsx:49 | the comment box starts empty |
| PostView.CommentBox.Type | frontend/src/components/Post.tsx:201 | typing replaces the draft |
| PostView.CommentBox.Submit | frontend/src/components/Post.tsx:51-56 | what is forwarded and what is left in the box are both `SubmitComment` of the old draft |
| PostView.ForwardedCommentIsAppended | frontend/src/components/Post.tsx:53 | a forwarded comment lands on the feed as an appended comment with the typed text |
| PostView.ClickVote | frontend/src/components/Post.tsx:101-102 | a click forwards the post's and the option's id only while no choice is recorded; after that it is ignored |
| PostView.FirstClickRecordsChoice | frontend/src/components/Post.tsx:99-124 | the first click records the chosen option, disables the buttons and reveals the counts and the total line |
| PostView.ChoiceIsWriteOnce | frontend/src/components/Post.tsx:101-102 | after the first click, any further click on any option of that post changes nothing |
| PostView.ClickKeepsTotalsConsistent | frontend/src/components/Post.tsx:101 | with distinct post and option ids, a click keeps every total equal to its sum |
| PostView.VotePercentage | frontend/src/components/Post.tsx:68-71 | 0 when the total is missing or 0; between 0 and 100 when the votes lie within the total; 100 when they equal it |
| PostView.FormatTimeReadsBack | frontend/src/components/Post.tsx:58-66 | the age label reads back as the bucket of the age rounded down to whole seconds |
| TimeAgo.Bucket | frontend/src/components/Post.tsx:60-65 | seconds below 60, minutes below 3600, hours below 86400, days otherwise; each amount is the age divided by the unit and rounded down |
| TimeAgo.ParseRender | frontend/src/components/Post.tsx:62-65 | a rendered bucket parses back to itself |
| PostForm.NewPollOptions | frontend/src/components/PostForm.tsx:38-42 | option ids run 0..n-1 in input order, with the option texts and no votes |
| PostForm.BuildPost | frontend/src/components/PostForm.tsx:26-45 | the new post has likes 0 and no comments; it has an image URL only for an image post with a non-empty URL; it has poll fields exactly for a poll, with total 0 |
| PostForm.SumOfUnvoted | frontend/src/components/PostForm.tsx:41 | options without votes sum to 0 |
| PostForm.NewPostConsistent | frontend/src/components/PostForm.tsx:36-44 | a created poll's total equals its sum; its option ids are distinct, and each index names exactly one option |
| PostForm.Submission | frontend/src/components/PostForm.tsx:23-47 | nothing is posted exactly when the form is refused; otherwise the built post |
| PostForm.AcceptedMeansFilledIn | frontend/src/components/PostForm.tsx:23-24 | an accepted text post has non-blank content; an accepted poll has a non-blank question and non-blank options; image posts are not checked |
| PostForm.RemoveAt | frontend/src/components/PostForm.tsx:69 | drops exactly the given index and keeps the others in order |
| PostForm.ApplyEdit | frontend/src/components/PostForm.tsx:55-71 | add grows the list only below 4; update overwrites one index only; remove shrinks only above 2 |
| PostForm.EditsKeepOptionCount | frontend/src/components/PostForm.tsx:18-71 | starting from 2 to 4 options, no run of edits leaves that range |
| PostForm.Composer.constructor | frontend/src/components/PostForm.tsx:14-18 | the form starts as an empty text post with two empty options |
| PostForm.Composer.Reset | frontend/src/components/PostForm.tsx:48-52 | the reset after a post: an empty text post with two empty options |
| PostForm.Composer.SetType | frontend/src/components/PostForm.tsx:77 | a tab switch changes only the type |
| PostForm.Composer.SetContent | frontend/src/components/PostForm.tsx:88 | changes only the content |
| PostForm.Composer.SetImageUrl | frontend/src/components/PostForm.tsx:103 | changes only the URL |
| PostForm.Composer.SetPollQuestion | frontend/src/components/PostForm.tsx:120 | changes only the question |
| PostForm.Composer.AddPollOption | frontend/src/components/PostForm.tsx:55-59 | one more empty option, only below four; the count stays within 2..4 |
| PostForm.Composer.UpdatePollOption | frontend/src/components/PostForm.tsx:61-65 | only the given index changes |
| PostForm.Composer.RemovePollOption | frontend/src/components/PostForm.tsx:67-71 | one option fewer, only above two |
| PostForm.Composer.Submit | frontend/src/components/PostForm.tsx:20-53 | a refused form posts nothing and keeps its contents; an accepted one posts the built post and resets |
| PostForm.ComposeAndPost | frontend/src/components/PostForm.tsx:47 | an accepted post lands first in the feed, consistent, with the old posts behind it; a refused one leaves the feed alone; a well formed feed stays so |
| AuthContext.CreatedUser | frontend/src/components/auth/AuthContext.tsx:139-144 | all supplied fields are kept; a supplied id overrides the fresh one; `createdAt` is always the creation time |
| AuthContext.AuthProvider.constructor | frontend/src/components/auth/AuthContext.tsx:59-60 | no user, loading, and whatever storage holds |
| AuthContext.AuthProvider.CheckAuthStatus | frontend/src/components/auth/AuthContext.tsx:62-86 | a present slot that parses restores the user; otherwise the user is unchanged; loading ends in every case |
| AuthContext.AuthProvider.Login | frontend/src/components/auth/AuthContext.tsx:88-114 | succeeds iff the e-mail is the mock e-mail, whatever the password; it then installs and stores the mock user; a failure changes nothing |
| AuthContext.AuthProvider.Logout | frontend/src/components/auth/AuthContext.tsx:116-122 | no user, an empty slot, not authenticated |
| AuthContext.AuthProvider.UpdateUser | frontend/src/components/auth/AuthContext.tsx:124-137 | a no-op without a user; otherwise the given fields override the user's and the result is stored |
| AuthContext.AuthProvider.CreateUser | frontend/src/components/auth/AuthContext.tsx:139-147 | installs and stores the created user; authenticated afterwards |
| AuthContext.ReloadAfterCreate | frontend/src/components/auth/AuthContext.tsx:62-147 | after creating and editing an account, a reload restores exactly the same user |
| AuthContext.ReloadAfterLogin | frontend/src/components/auth/AuthContext.tsx:62-122 | after a reload: the mock user following a matching login, the stored session following a failed one (nobody when the stored text does not parse, on either load); logging out first leaves the next page signed out |
| AuthWrapper.RenderStep | frontend/src/components/auth/AuthWrapper.tsx:53-64 | signup shows the sign-up form; profile and welcome show their components with the data; complete shows nothing |
| AuthWrapper.Deliver | frontend/src/components/auth/AuthWrapper.tsx:36-60 | an event either changes nothing or advances exactly one step; only the welcome step sends, and it sends its accumulated data; a complete flow ignores everything |
| AuthWrapper.RunMovesForward | frontend/src/components/auth/AuthWrapper.tsx:33-60 | over any run of events the flow only moves forward, at most one step per event; it sends its final data exactly once, exactly when it ends complete |
| AuthWrapper.StepsInOrder | frontend/src/components/auth/AuthWrapper.tsx:36-51 | no event skips a step or moves back |
| AuthWrapper.HappyPath | frontend/src/components/auth/AuthWrapper.tsx:33-51 | the three steps send the sign-up data overlaid with the profile data, once |
| AuthWrapper.Onboarding.constructor | frontend/src/components/auth/AuthWrapper.tsx:33-34 | the flow starts at signup with no data |
| AuthWrapper.Onboarding.HandleSignUpComplete | frontend/src/components/auth/AuthWrapper.tsx:36-39 | merges the sign-up data and moves to profile |
| AuthWrapper.Onboarding.HandleProfileComplete | frontend/src/components/auth/AuthWrapper.tsx:41-44 | merges the profile data and moves to welcome |
| AuthWrapper.Onboarding.HandleWelcomeComplete | frontend/src/components/auth/AuthWrapper.tsx:46-51 | moves to complete and hands on exactly the accumulated data |
| AuthWrapper.Onboarding.Dispatch | frontend/src/components/auth/AuthWrapper.tsx:53-60 | the new state and what is sent are as `Deliver` gives them |
| Records.Merge | frontend/src/components/auth/AuthWrapper.tsx:37-42 | the merge keeps all earlier keys, and the new step's same-named fields override |
| App.GateFor | frontend/src/App.tsx:24-38 | the spinner exactly while loading; then onboarding exactly when not authenticated; otherwise the main app |
| App.RenderView | frontend/src/App.tsx:43-55 | "teams" gives the teams page; "events" and "trending" give the placeholder; "home" and every other name give the feed |
| App.AppContent.constructor | frontend/src/App.tsx:12-13 | the view starts at "home" and the counter at 2; the feed holds the mock posts and the team page is empty with its form closed |
| App.AppContent.SetCurrentView | frontend/src/App.tsx:43-62 | selects the view; leaving the feed remounts it from the mock posts, leaving "teams" remounts the team page empty; otherwise both are kept as they are |
| App.AppContent.HandleNewNotification | frontend/src/App.tsx:15-17 | the counter grows by exactly one |
| App.AppContent.HandleAuthComplete | frontend/src/App.tsx:19-21 | the collected data becomes the created user |
| App.AppContent.FeedTick | frontend/src/App.tsx:46 | only while the feed is shown: a tick raises the counter by the number of likes it added, and a well formed feed stays so |
| App.FeedLostOnViewSwitch | frontend/src/App.tsx:43-55 | a like made on the feed is gone after a visit to another view: the feed shows the mock posts again |
| App.TeamsLostOnViewSwitch | frontend/src/App.tsx:43-55 | a team added on "teams" is gone after a visit to another view: the page comes back empty with the form closed |
| App.UnreadAfter | frontend/src/App.tsx:13-17 | after n notifications the counter is 2 + n |
| App.StartupGates | frontend/src/App.tsx:24-38 | the spinner first; then the main app exactly when a stored session parses |
| App.CompleteOnboarding | frontend/src/components/auth/AuthWrapper.tsx:33-51 | the three onboarding steps, completed in order, hand on the sign-up data overlaid with the profile data |
| App.FirstVisit | frontend/src/App.tsx:19-38 | onboarding first; the collected data becomes the user; the main app opens on the feed |
| SignInForm.SubmitError | frontend/src/components/auth/SignInForm.tsx:27-46 | the required message iff a field is empty; the rejection message iff login throws; no message after a successful login |
| SignInForm.Form.constructor | frontend/src/components/auth/SignInForm.tsx:17-21 | empty fields, not loading, no error |
| SignInForm.Form.SetEmail | frontend/src/components/auth/SignInForm.tsx:78 | sets the e-mail |
| SignInForm.Form.SetPassword | frontend/src/components/auth/SignInForm.tsx:104 | sets the password |
| SignInForm.Form.Submit | frontend/src/components/auth/SignInForm.tsx:23-50 | clears the error first; calls login only with both fields filled; loading is off after every attempt; `onComplete` is called iff the login succeeded and it was provided |
| SignUpForm.EmailPatternMinimal | frontend/src/components/auth/SignUpForm.tsx:48 | anything the pattern accepts has at least five characters, including '@' and '.' |
| SignUpForm.EmailPatternExamples | frontend/src/components/auth/SignUpForm.tsx:48 | the pattern is unanchored, and it needs a user part, a dot after the '@' and no space in the domain |
| SignUpForm.EmailError | frontend/src/components/auth/SignUpForm.tsx:46-50 | required when empty, invalid when the pattern fails, otherwise none |
| SignUpForm.PasswordError | frontend/src/components/auth/SignUpForm.tsx:52-56 | required when empty, too short below 8, otherwise none |
| SignUpForm.ValidateForm | frontend/src/components/auth/SignUpForm.tsx:43-80 | the dictionary holds exactly the failed rules with their messages; valid iff it is empty |
| SignUpForm.RuleMessages | frontend/src/components/auth/SignUpForm.tsx:46-76 | each property's rule and message; the student id is never checked |
| SignUpForm.ValidIffAcceptable | frontend/src/components/auth/SignUpForm.tsx:79 | valid exactly for acceptable forms, whatever the student id |
| SignUpForm.NoErrorsIffAcceptable | frontend/src/components/auth/SignUpForm.tsx:43-80 | a dictionary holding exactly the failed rules is empty exactly for an acceptable form |
| SignUpForm.Payload | frontend/src/components/auth/SignUpForm.tsx:106-112 | exactly e-mail, names, university and student id; never the password, its confirmation or the terms flag |
| SignUpForm.PayloadIgnoresPassword | frontend/src/components/auth/SignUpForm.tsx:106-112 | the payload does not depend on either password field |
| SignUpForm.WithSetsOnlyThatField | frontend/src/components/auth/SignUpForm.tsx:121 | setting a property sets it and no other |
| SignUpForm.Form.constructor | frontend/src/components/auth/SignUpForm.tsx:16-29 | empty form, no errors, not loading |
| SignUpForm.Form.UpdateField | frontend/src/components/auth/SignUpForm.tsx:120-125 | sets one property and blanks its error if one is shown |
| SignUpForm.Form.UpdateAgreeToTerms | frontend/src/components/auth/SignUpForm.tsx:280 | sets the terms flag and blanks its error if one is shown |
| SignUpForm.Form.Submit | frontend/src/components/auth/SignUpForm.tsx:82-118 | records the errors; the payload is sent iff the form is acceptable; loading is off afterwards |
| FormErrors.ClearShownError | frontend/src/components/auth/SignUpForm.tsx:122-124 | a shown error is blanked to '' and nothing else changes; no key is added or removed |
| FormErrors.RequiredError | frontend/src/components/auth/SignUpForm.tsx:62-76 | the message exactly when the value is missing |
| FormErrors.EmptyIffNoKeys | frontend/src/components/auth/SignUpForm.tsx:79 | a dictionary has no keys exactly when it is empty |
| ProfileSetup.WithSkill | frontend/src/components/auth/ProfileSetup.tsx:43-49 | appends only a non-empty, new skill; otherwise the list is unchanged |
| ProfileSetup.Toggled | frontend/src/components/auth/ProfileSetup.tsx:180 | a present skill is removed and an absent one added; other skills keep their membership |
| ProfileSetup.WithSkillKeepsNoDuplicates | frontend/src/components/auth/ProfileSetup.tsx:44 | adding never creates a duplicate |
| ProfileSetup.ToggledKeepsNoDuplicates | frontend/src/components/auth/ProfileSetup.tsx:180 | toggling never creates a duplicate |
| ProfileSetup.RemoveUndoesAdd | frontend/src/components/auth/ProfileSetup.tsx:43-58 | removing a skill just added gives back the list before |
| ProfileSetup.ToggleTwice | frontend/src/components/auth/ProfileSetup.tsx:180 | two clicks restore an unchosen skill's list exactly, and a chosen skill's membership |
| ProfileSetup.BlankSkillAccepted | frontend/src/components/auth/ProfileSetup.tsx:44 | a whitespace-only skill is accepted, because there is no trim |
| ProfileSetup.WithDetail | frontend/src/components/auth/ProfileSetup.tsx:123-262 | the input's field now holds the value; every other text field, the skills and the image keep theirs |
| ProfileSetup.Profile.constructor | frontend/src/components/auth/ProfileSetup.tsx:29-41 | empty profile, empty input, not loading |
| ProfileSetup.Profile.SetNewSkill | frontend/src/components/auth/ProfileSetup.tsx:195 | sets the custom input |
| ProfileSetup.Profile.SetDetail | frontend/src/components/auth/ProfileSetup.tsx:123-262 | sets one text field to the value (and nothing else, through `WithDetail`), keeping the list free of duplicates |
| ProfileSetup.Profile.AddSkill | frontend/src/components/auth/ProfileSetup.tsx:43-51 | adds as `WithSkill` does, clears the custom input in every case and keeps the list free of duplicates |
| ProfileSetup.Profile.AddCustomSkill | frontend/src/components/auth/ProfileSetup.tsx:197-202 | adds the typed skill and clears the input |
| ProfileSetup.Profile.RemoveSkill | frontend/src/components/auth/ProfileSetup.tsx:53-58 | drops every equal skill and keeps the rest in order |
| ProfileSetup.Profile.TogglePreset | frontend/src/components/auth/ProfileSetup.tsx:180 | removes a present skill or adds an absent one |
| ProfileSetup.Profile.Submit | frontend/src/components/auth/ProfileSetup.tsx:60-78 | hands on the profile data; loading is off afterwards |
| ProfileSetup.PresetsDistinct | frontend/src/components/auth/ProfileSetup.tsx:18-24 | no category lists a skill twice |
| ProfileSetup.ChooseCategory | frontend/src/components/auth/ProfileSetup.tsx:18-58 | clicking every preset of a category once chooses exactly that category, in order |
| Lists.RemoveAll | frontend/src/components/auth/ProfileSetup.tsx:56 | keeps exactly the elements other than the removed one |
| Lists.RemoveAllDistributes | frontend/src/components/auth/ProfileSetup.tsx:56 | filtering works part by part, so order is kept |
| Lists.RemoveAllKeepsNoDuplicates | frontend/src/components/auth/ProfileSetup.tsx:56 | filtering never creates a duplicate |
| WelcomeScreen.AdvanceIsRotation | frontend/src/components/auth/WelcomeScreen.tsx:41-43 | n clicks move n places round the ring of four tips, staying in range |
| WelcomeScreen.FourClicksReturn | frontend/src/components/auth/WelcomeScreen.tsx:31-43 | four clicks return to the starting tip |
| WelcomeScreen.AdvanceSteps | frontend/src/components/auth/WelcomeScreen.tsx:42 | one click more after k clicks is k + 1 clicks |
| WelcomeScreen.TipCarousel.constructor | frontend/src/components/auth/WelcomeScreen.tsx:39 | the first tip is shown |
| WelcomeScreen.TipCarousel.NextTip | frontend/src/components/auth/WelcomeScreen.tsx:41-43 | one place on, staying in range |
| WelcomeScreen.TipAfterClicks | frontend/src/components/auth/WelcomeScreen.tsx:39-43 | after n clicks the tip shown is number n mod 4 |
| WelcomeScreen.Preview | frontend/src/components/auth/WelcomeScreen.tsx:74 | at most the first four skills, in order |
| WelcomeScreen.MoreBadge | frontend/src/components/auth/WelcomeScreen.tsx:79-83 | shown exactly above four skills, reading "+k more" with k the count minus 4 |
| WelcomeScreen.PreviewAndBadgeCountAll | frontend/src/components/auth/WelcomeScreen.tsx:72-83 | the preview and the badge's number together account for every skill |
| WelcomeScreen.SkillsBlock | frontend/src/components/auth/WelcomeScreen.tsx:72 | the block is shown only for a non-empty skill list |
| WelcomeScreen.SubtitleFor | frontend/src/components/auth/WelcomeScreen.tsx:67 | "year • major" exactly when both are truthy; the university otherwise |
| WelcomeScreen.EmptyYearOrMajorShowsUniversity | frontend/src/components/auth/WelcomeScreen.tsx:67 | an empty year or major falls back to the university |
| WelcomeScreen.YearAndMajorShown | frontend/src/components/auth/WelcomeScreen.tsx:67 | a filled-in year and major are both shown, in that order |
| EventTimes.DisplayHour | frontend/src/components/EventCreateModal.tsx:25 | hour 0 shows as 12; 1..12 as themselves; later hours minus 12 |
| EventTimes.PaddedHour | frontend/src/components/EventCreateModal.tsx:27 | the padded hour is its two decimal digits |
| EventTimes.ValueChars | frontend/src/components/EventCreateModal.tsx:22-27 | slot i's value is the two hour digits of i/2, ':', then '00' for even slots and '30' for odd ones |
| EventTimes.ValueOrderIsSlotOrder | frontend/src/components/EventCreateModal.tsx:21-30 | string order of two slot values is the order of their indices, and equal values mean equal slots |
| EventTimes.TimeOptionsAscending | frontend/src/components/EventCreateModal.tsx:21-30 | 48 entries with strictly ascending values |
| EventTimes.LabelNamesHour | frontend/src/components/EventCreateModal.tsx:24-28 | the label is the 12-hour clock reading; AM iff the hour is below 12; the label's hour and period give back the hour |
| EventCreateModal.EndTimeError | frontend/src/components/EventCreateModal.tsx:94-100 | fails iff the end is empty or not after a set start; required exactly when the end is empty |
| EventCreateModal.TrimsToEmpty | frontend/src/components/EventCreateModal.tsx:82 | the trimmed title is empty exactly when it is blank |
| EventCreateModal.ValidateForm | frontend/src/components/EventCreateModal.tsx:79-112 | the dictionary holds exactly the failed rules with their messages; valid iff it is empty |
| EventCreateModal.ValidIffAcceptable | frontend/src/components/EventCreateModal.tsx:79-111 | valid exactly when the title is not blank, the date and both times are set, the end is after the start, a venue is given and the type is chosen |
| EventCreateModal.EndRuleOnSlots | frontend/src/components/EventCreateModal.tsx:98 | with table times, the end rule fails exactly when the end slot is not later than the start slot |
| EventCreateModal.SubmittedVenue | frontend/src/components/EventCreateModal.tsx:126 | the custom venue when "Other" is chosen, otherwise the venue |
| EventCreateModal.OtherWithoutCustomVenuePasses | frontend/src/components/EventCreateModal.tsx:102-126 | "Other" with an empty custom venue passes, and the event is sent with an empty venue |
| EventCreateModal.WithTag | frontend/src/components/EventCreateModal.tsx:184-189 | appends the trimmed input only when it is non-empty and new |
| EventCreateModal.TagEditsKeepWellFormed | frontend/src/components/EventCreateModal.tsx:184-193 | adding and removing keep the tags trimmed, non-empty and distinct |
| EventCreateModal.AddTagKeepsWellFormed | frontend/src/components/EventCreateModal.tsx:184-189 | adding a tag keeps the tags trimmed, non-empty and distinct |
| EventCreateModal.RemoveTagKeepsWellFormed | frontend/src/components/EventCreateModal.tsx:191-193 | removing a tag keeps the tags trimmed, non-empty and distinct |
| EventCreateModal.AddThenRemoveTag | frontend/src/components/EventCreateModal.tsx:184-193 | removing a tag just added from padded input gives the old list back |
| EventCreateModal.WithText | frontend/src/components/EventCreateModal.tsx:178 | the edited text field now holds the value; every other text field, the tags, the date, the owner and the flag keep theirs |
| EventCreateModal.EditKeepsOtherRules | frontend/src/components/EventCreateModal.tsx:177-182 | editing a field leaves the rules of the fields it does not feed unchanged |
| EventCreateModal.Modal.constructor | frontend/src/components/EventCreateModal.tsx:61-77 | a blank form owned by the signed-in user, no errors |
| EventCreateModal.Modal.UpdateText | frontend/src/components/EventCreateModal.tsx:177-182 | sets one field to the value (and nothing else, through `WithText`) and blanks its error if one is shown |
| EventCreateModal.Modal.UpdateDate | frontend/src/components/EventCreateModal.tsx:177-182 | sets the date and blanks its error if one is shown |
| EventCreateModal.Modal.SetNewTag | frontend/src/components/EventCreateModal.tsx:77 | sets the tag input |
| EventCreateModal.Modal.AddTag | frontend/src/components/EventCreateModal.tsx:184-189 | a taken tag is appended and the input cleared; a refused one changes nothing; the tags stay well formed |
| EventCreateModal.Modal.RemoveTag | frontend/src/components/EventCreateModal.tsx:191-193 | drops every equal tag and keeps the rest in order |
| EventCreateModal.Modal.Submit | frontend/src/components/EventCreateModal.tsx:114-175 | an event is sent iff the form is acceptable, with the venue resolved, stamped with the clock reading and given that reading in decimal as its id; then the form and errors reset; otherwise only the errors are recorded; a sent event always has the registration flag off and the mount-time owner |
| Navigation.FormatNotificationTime | frontend/src/components/Navigation.tsx:69-77 | "Ns ago" below a minute, then minutes, hours and days rounded down, each followed by " ago" |
| Navigation.NotificationTimeReadsBack | frontend/src/components/Navigation.tsx:69-77 | the label reads back as the bucket of the age |
| Navigation.Badge | frontend/src/components/Navigation.tsx:134-141 | shown exactly for a positive count |
| Navigation.BadgeShowsCount | frontend/src/components/Navigation.tsx:139 | the badge text reads back as the count, with no sign |
| Navigation.NavItemsOpenTheirViews | frontend/src/components/Navigation.tsx:89-116 | each item opens its own page |
| Navigation.BadgeAfter | frontend/src/components/Navigation.tsx:134-141 | after n notifications the bell shows 2 + n |
| AddTeamForm.Changed | frontend/src/components/AddTeamForm.tsx:13-18 | an input changes its own field and leaves the other |
| AddTeamForm.Submission | frontend/src/components/AddTeamForm.tsx:20-25 | refused exactly for a blank name, and the data is then kept; otherwise the data is sent untrimmed and the form resets |
| AddTeamForm.ChangesCommute | frontend/src/components/AddTeamForm.tsx:17 | edits to the two fields commute |
| AddTeamForm.PaddingIsKept | frontend/src/components/AddTeamForm.tsx:22-23 | a padded name is sent as typed, and a blank one is refused |
| AddTeamForm.Form.constructor | frontend/src/components/AddTeamForm.tsx:11 | both fields start empty |
| AddTeamForm.Form.HandleChange | frontend/src/components/AddTeamForm.tsx:13-18 | the data becomes `Changed` of the old data |
| AddTeamForm.Form.HandleSubmit | frontend/src/components/AddTeamForm.tsx:20-25 | what is sent and the data left are `Submission` of the old data |
| TeamsView.ListingFor | frontend/src/components/TeamsView.tsx:49-53 | the empty-state message exactly for an empty list; otherwise cards for the teams |
| TeamsView.NewTeam | frontend/src/components/TeamsView.tsx:18 | the new team carries the submitted name and description and the id |
| TeamsView.Page.constructor | frontend/src/components/TeamsView.tsx:14-15 | no teams and the form hidden |
| TeamsView.Page.OpenForm | frontend/src/components/TeamsView.tsx:31 | shows the form |
| TeamsView.Page.CancelForm | frontend/src/components/TeamsView.tsx:43 | hides the form |
| TeamsView.Page.HandleAddTeam | frontend/src/components/TeamsView.tsx:17-21 | appends one team at the end, keeps the others in order and hides the form |
| TeamsView.AddOneTeam | frontend/src/components/TeamsView.tsx:17-21 | a blank name adds nothing; any other name adds exactly that team |
| BackendAuth.NewUser | Backend/routes/auth.js:14 | the stored record holds exactly the request's fields |
| BackendAuth.Public | Backend/routes/auth.js:37-44 | the login view holds the six public fields, and no password |
| BackendAuth.Login | Backend/routes/auth.js:23-49 | 500 on a thrown error; 400 'Invalid credentials' for an unknown e-mail or a wrong password; 200 with the token and the public fields exactly otherwise |
| BackendAuth.LoginFailuresIndistinguishable | Backend/routes/auth.js:27-33 | an unknown e-mail and a wrong password give identical responses |
| BackendAuth.LoginNeverShowsPassword | Backend/routes/auth.js:35-45 | the stored password has no effect on a successful response |
| BackendAuth.Store.constructor | Backend/routes/auth.js:10 | the store starts with the given users |
| BackendAuth.Store.Signup | Backend/routes/auth.js:7-20 | 400 for a known e-mail, storing nothing; 201 for a new one, with exactly that user added; 500 on a thrown error, storing nothing |
| BackendAuth.SignupThenLogin | Backend/routes/auth.js:7-49 | signing up, then signing up again with the same e-mail, then logging in: 201, then 400, then the token and the details first sent |
| Text.Trim | frontend/src/components/Post.tsx:52 | the trimmed string is empty iff the input is blank, and otherwise starts and ends with non-whitespace |
| Text.TrimIsMiddle | frontend/src/components/EventCreateModal.tsx:185 | trimming removes only whitespace, from both ends |
| Text.TrimIdempotent | frontend/src/components/EventCreateModal.tsx:185 | trimming twice is trimming once |
| Text.IntToStringRoundTrip | frontend/src/components/Navigation.tsx:73-76 | a rendered integer is a well-formed decimal that reads back as the integer |

## Left out

- Rendering, styling, icons, dialogs, tabs, the avatars' image URLs, and the presentation-only `PlaceholderView`, `EventHeader` and toaster components are not modelled.
- Timers are left out: `setInterval` and `clearInterval` in the feed, and the simulated delays of the submit handlers. Only the tick body is modelled, with one injected boolean per post in place of the two `Math.random` draws; a true boolean means "the 10% gate passed and the coin came up one".
- `Date.now()` and `new Date()` are left out. Ids and times are parameters, in milliseconds, and nothing is claimed about the uniqueness of ids.
- `localStorage` and JSON are left out. The slot is an `Option<User>` field, and a parse failure is a flag. A reload restores the stored map exactly, so the model does not capture JSON turning `createdAt` into a string.
- Toasts, `console.error` and the commented-out API calls are presentation or dead code.
- Promise sequencing is not modelled: each async handler's steps run in one call, so renders in between (such as `isLoading` being true while `login` runs) are not observable.
- App.AppContent.SetCurrentView: a view switch is modelled as React reconciles it. A component the new view no longer renders is unmounted, and its state is rebuilt from its initial values on the next mount. The gate leaving the main app (a logout, which no control of the running app triggers) would unmount both in the same way; the model keeps them across gate changes.
- The feed's interval is re-created whenever `AppContent` re-renders, because the callback it depends on is a new function each render. Only the timing of ticks changes, and timing is not modelled.
- PostForm.ApplyEdit: an `UpdateOption` index past the end is no change, while the source's array assignment would grow the list. No input of the form sends such an index.
- React's stale closures are not modelled. Handlers that read `formData` or `posts` from the render (`addSkill`, `addTag`, `handleLike`) see the current state.
- Floating-point arithmetic is modelled with `real`. `PostView.VotePercentage` does not model IEEE rounding or `Math.round`, and progress bars are left out.
- Calendar date disabling and date-fns formatting are left out. An event's date is an optional day number.
- String lengths count Unicode scalar values, not UTF-16 code units. This matters only for `PasswordError`'s 8-character bound with characters outside the basic plane.
- `Object.keys(newErrors).length === 0` is modelled as the map being empty; `FormErrors.EmptyIffNoKeys` states the equivalence.
- Only value types the components actually pass are modelled by `updateField`: text and booleans in `SignUpForm`; text, the date and the tag list in `EventCreateModal`. No control of `EventCreateModal` sets `registrationRequired`; it stays `false` from the initial and reset state.
- The event data's `owner`, `ownerName` and `ownerEmail` come from the signed-in user, which is not part of the modal's model. The modal keeps the `owner` it was mounted with.
- `WelcomeScreen.ShownText` renders only string values. Other values in a template literal are not modelled.
- `WelcomeScreen.SkillsBlock` treats only a string list as skills; other truthy values with a `length` are not modelled.
- The ProfileSetup image upload only shows a toast, and the year options are a fixed select list; neither is modelled.
- Navigation's static mock notification list is data for rendering only. "Mark all read" has no handler, so there is nothing to model.
- `SignInForm`'s "switch to sign up" callback and the password visibility toggles have no state logic that is modelled.
- The `useAuth` guard outside a provider is React plumbing.
- In the back end, `jsonwebtoken`, `comparePassword` and Mongoose are not modelled. The signed token and the password comparison are parameters; a thrown error is a flag: one per step for signup (`lookupFails`, `saveFails`), and a single `fails` for login that stands for a throw at any step, the token signing included.
- The back end's user collection is a map keyed by e-mail. Missing request fields, password hashing in the User model and concurrent requests racing between `findOne` and `save` are not modelled; `models/User` is not part of this model.
