/** The per-post component `Post`: its comment box, the vote buttons and their guard, what the
    poll shows before and after a vote, the vote percentage's zero guard and the age label. */
module PostView {
  import opened Wrappers
  import opened Text
  import opened TimeAgo
  import opened HomeFeed

  // ----- the comment box -----

  /** `handleComment` on the draft `newComment`: a draft that is blank after trimming is not
      forwarded and stays; any other draft is forwarded as typed (untrimmed) and the box is
      cleared. Returns what goes to `onComment` and the draft left in the box. */
  function SubmitComment(draft: string): (r: (Option<string>, string))
    ensures r.0.Some? <==> Trim(draft) != ""
    ensures r.0.Some? ==> r.0.value == draft && r.1 == ""
    ensures r.0.None? ==> r.1 == draft
  {
    if Trim(draft) != "" then (Some(draft), "") else (None, draft)
  }

  /** The `newComment` state of one rendered post. */
  class CommentBox {
    var draft: string

    constructor ()
      ensures draft == ""
    {
      draft := "";
    }

    /** The input's change handler. */
    method Type(text: string)
      modifies this
      ensures draft == text
    {
      draft := text;
    }

    /** The Post button or Enter key. */
    method Submit() returns (forwarded: Option<string>)
      modifies this
      ensures (forwarded, draft) == SubmitComment(old(draft))
    {
      if Trim(draft) != "" {
        forwarded := Some(draft);
        draft := "";
      } else {
        forwarded := None;
      }
    }
  }

  /** A forwarded comment lands on the feed as an appended comment with the typed text. */
  lemma ForwardedCommentIsAppended(posts: seq<Post>, k: nat, draft: string, commentId: string, now: int)
    requires k < |posts| && Trim(draft) != ""
    ensures var after := CommentIn(posts, posts[k].id, Comment(commentId, "Current User", SubmitComment(draft).0.value, now));
            after[k].comments == posts[k].comments + [Comment(commentId, "Current User", draft, now)]
  {
  }

  // ----- the poll -----

  /** The poll block is drawn only for a poll post whose question is a non-empty string. */
  predicate PollShown(p: Post) {
    p.kind == PollPost && p.pollQuestion.Some? && p.pollQuestion.value != ""
  }

  /** A button exists for option `j` of post `k` of the feed. */
  predicate HasOptionButton(posts: seq<Post>, k: nat, j: nat) {
    k < |posts| && PollShown(posts[k]) && posts[k].pollOptions.Some? && j < |posts[k].pollOptions.value|
  }

  /** The buttons are disabled, and clicks ignored, once a choice is recorded. */
  predicate OptionsDisabled(p: Post) {
    p.userVoted.Some?
  }

  /** Per-option counts and bars are drawn only once a choice is recorded. */
  predicate ShowsVoteCounts(p: Post) {
    p.userVoted.Some?
  }

  /** The "N total votes" line is drawn only for a defined, positive total. */
  predicate ShowsTotalLine(p: Post) {
    p.totalVotes.Some? && p.totalVotes.value > 0
  }

  /** Clicking option `j` of post `k`: the click handler forwards `(post.id, option.id)` to
      `handleVote` only while the post has no recorded choice. */
  function ClickVote(posts: seq<Post>, k: nat, j: nat): (r: seq<Post>)
    requires HasOptionButton(posts, k, j)
    ensures OptionsDisabled(posts[k]) ==> r == posts
    ensures !OptionsDisabled(posts[k]) ==> r == VoteIn(posts, posts[k].id, posts[k].pollOptions.value[j].id)
  {
    if posts[k].userVoted.None? then VoteIn(posts, posts[k].id, posts[k].pollOptions.value[j].id) else posts
  }

  /** The first click records the chosen option, disables the buttons and reveals the counts and
      the total line; the options keep their number and order. */
  lemma FirstClickRecordsChoice(posts: seq<Post>, k: nat, j: nat)
    requires HasOptionButton(posts, k, j) && !OptionsDisabled(posts[k])
    requires posts[k].totalVotes.GetOr(0) >= 0
    ensures var after := ClickVote(posts, k, j);
      && after[k].userVoted == Some(posts[k].pollOptions.value[j].id)
      && OptionsDisabled(after[k]) && ShowsVoteCounts(after[k]) && ShowsTotalLine(after[k])
      && |after| == |posts|
      && HasOptionButton(after, k, j)
  {
  }

  /** Feed invariant 2 (write-once choice), from the guard and `handleVote` together: after a
      first click, any further click on any option of that post changes nothing. */
  lemma ChoiceIsWriteOnce(posts: seq<Post>, k: nat, j: nat, j2: nat)
    requires HasOptionButton(posts, k, j) && !OptionsDisabled(posts[k])
    requires j2 < |posts[k].pollOptions.value|
    ensures var once := ClickVote(posts, k, j);
            HasOptionButton(once, k, j2) && ClickVote(once, k, j2) == once
  {
  }

  /** In a feed with distinct post ids, a click on a poll whose options have distinct ids keeps
      every post's total equal to the sum of its votes. */
  lemma ClickKeepsTotalsConsistent(posts: seq<Post>, k: nat, j: nat)
    requires HasOptionButton(posts, k, j)
    requires forall i, i2 :: 0 <= i < i2 < |posts| ==> posts[i].id != posts[i2].id
    requires forall i :: 0 <= i < |posts| ==> VotesConsistent(posts[i])
    requires DistinctOptionIds(posts[k].pollOptions.value)
    ensures forall i :: 0 <= i < |posts| ==> VotesConsistent(ClickVote(posts, k, j)[i])
  {
    if !OptionsDisabled(posts[k]) {
      var optionId := posts[k].pollOptions.value[j].id;
      DistinctIdsCountOnce(posts[k].pollOptions.value, j);
      assert forall i :: 0 <= i < |posts| && i != k ==> !Votable(posts[i], posts[k].id);
      VoteInPreservesConsistency(posts, posts[k].id, optionId);
    }
  }

  /** The share of `votes` in the poll's total, in percent; 0 when the total is missing or 0. */
  function VotePercentage(votes: int, totalVotes: Option<int>): (r: real)
    ensures totalVotes == None || totalVotes == Some(0) ==> r == 0.0
    ensures totalVotes.Some? && 0 <= votes <= totalVotes.value && totalVotes.value != 0 ==> 0.0 <= r <= 100.0
    ensures totalVotes.Some? && totalVotes.value > 0 && votes == totalVotes.value ==> r == 100.0
  {
    if totalVotes.None? || totalVotes.value == 0 then 0.0
    else (votes as real / totalVotes.value as real) * 100.0
  }

  // ----- the age label -----

  /** `formatTime(date)` at the time `nowMs`: the age in whole seconds, bucketed, as `Ns`, `Nm`,
      `Nh` or `Nd`. */
  function FormatTime(nowMs: int, dateMs: int): string {
    Render(Bucket((nowMs - dateMs) / 1000))
  }

  /** The label names the bucket of the age rounded down to whole seconds: reading it back gives
      exactly that bucket. */
  lemma FormatTimeReadsBack(nowMs: int, dateMs: int)
    ensures Parse(FormatTime(nowMs, dateMs)) == Some(Bucket((nowMs - dateMs) / 1000))
    ensures (nowMs - dateMs) / 1000 * 1000 <= nowMs - dateMs < (nowMs - dateMs) / 1000 * 1000 + 1000
  {
    ParseRender(Bucket((nowMs - dateMs) / 1000));
  }
}
