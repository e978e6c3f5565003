/** The post composer `PostForm`: the submit check, the post object it builds, and the poll
    option list editor that keeps between two and four options. */
module PostForm {
  import opened Wrappers
  import opened Text
  import opened HomeFeed

  /** The submit check: a text post needs content that is not blank; a poll needs a question and
      every option not blank; an image post is never refused. */
  predicate Refused(kind: PostType, content: string, question: string, options: seq<string>) {
    || (Trim(content) == "" && kind == TextPost)
    || (kind == PollPost && (Trim(question) == "" || exists i :: 0 <= i < |options| && Trim(options[i]) == ""))
  }

  /** The options of a new poll: ids 0..n-1 in input order, each with no votes. */
  function NewPollOptions(options: seq<string>): (r: seq<PollOption>)
    ensures |r| == |options|
    ensures forall i :: 0 <= i < |r| ==> r[i] == PollOption(i, options[i], 0)
  {
    seq(|options|, i requires 0 <= i < |options| => PollOption(i, options[i], 0))
  }

  /** The post object `handleSubmit` builds, with `id` and `now` in place of `Date.now()` and
      `new Date()`. */
  function BuildPost(kind: PostType, content: string, imageUrl: string, question: string,
                     options: seq<string>, id: string, now: int): (p: Post)
    ensures p.id == id && p.author == "Current User" && p.timestamp == now
    ensures p.kind == kind && p.content == content
    ensures p.likes == 0 && p.comments == []
    ensures p.userLiked == None && p.userVoted == None
    ensures p.imageUrl.Some? <==> kind == ImagePost && imageUrl != ""
    ensures p.imageUrl.Some? ==> p.imageUrl.value == imageUrl
    ensures kind == PollPost <==> p.pollOptions.Some?
    ensures kind == PollPost <==> p.pollQuestion.Some?
    ensures kind == PollPost <==> p.totalVotes.Some?
    ensures kind == PollPost ==>
      p.pollQuestion == Some(question) && p.totalVotes == Some(0)
      && p.pollOptions == Some(NewPollOptions(options))
  {
    Post(id, "Current User", now, content, kind,
         if kind == ImagePost && imageUrl != "" then Some(imageUrl) else None,
         if kind == PollPost then Some(question) else None,
         if kind == PollPost then Some(NewPollOptions(options)) else None,
         if kind == PollPost then Some(0) else None,
         0, [], None, None)
  }

  /** The sum of votes of options that all have none is 0. */
  lemma {:induction false} SumOfUnvoted(opts: seq<PollOption>)
    requires forall i :: 0 <= i < |opts| ==> opts[i].votes == 0
    ensures SumVotes(opts) == 0
  {
    if opts != [] {
      SumOfUnvoted(opts[1..]);
    }
  }

  /** A created poll starts consistent (its total 0 is the sum of its votes), with distinct
      option ids, each carried by exactly one option; a created post of another type has no
      poll fields at all. */
  lemma NewPostConsistent(kind: PostType, content: string, imageUrl: string, question: string,
                          options: seq<string>, id: string, now: int)
    ensures var p := BuildPost(kind, content, imageUrl, question, options, id, now);
      && VotesConsistent(p)
      && (p.pollOptions.Some? ==> DistinctOptionIds(p.pollOptions.value))
      && (p.pollOptions.Some? ==> forall j :: 0 <= j < |options| ==> CountId(p.pollOptions.value, j) == 1)
  {
    var opts := NewPollOptions(options);
    SumOfUnvoted(opts);
    forall j | 0 <= j < |options| ensures CountId(opts, j) == 1 {
      assert opts[j].id == j;
      DistinctIdsCountOnce(opts, j);
    }
  }

  /** What one press of "Post" hands to `onPost`: nothing for a refused form, else the built
      post. */
  function Submission(kind: PostType, content: string, imageUrl: string, question: string,
                      options: seq<string>, id: string, now: int): (r: Option<Post>)
    ensures r.None? <==> Refused(kind, content, question, options)
    ensures r.Some? ==> r.value == BuildPost(kind, content, imageUrl, question, options, id, now)
  {
    if Refused(kind, content, question, options) then None
    else Some(BuildPost(kind, content, imageUrl, question, options, id, now))
  }

  /** An accepted submission is a text post with something beyond whitespace, an image post, or
      a poll whose question and every option hold something beyond whitespace. */
  lemma AcceptedMeansFilledIn(kind: PostType, content: string, imageUrl: string, question: string,
                              options: seq<string>, id: string, now: int)
    requires Submission(kind, content, imageUrl, question, options, id, now).Some?
    ensures kind == TextPost ==> !IsBlank(content)
    ensures kind == PollPost ==> !IsBlank(question) && forall i :: 0 <= i < |options| ==> !IsBlank(options[i])
  {
  }

  // ----- the option list editor -----

  /** `pollOptions.filter((_, i) => i !== index)`. */
  function RemoveAt(s: seq<string>, index: nat): (r: seq<string>)
    ensures index < |s| ==> |r| == |s| - 1
    ensures index < |s| ==> forall i :: 0 <= i < index ==> r[i] == s[i]
    ensures index < |s| ==> forall i :: index <= i < |r| ==> r[i] == s[i + 1]
    ensures index >= |s| ==> r == s
  {
    if index < |s| then s[..index] + s[index + 1..] else s
  }

  /** The three edits the poll tab offers. */
  datatype OptionEdit = AddOption | UpdateOption(index: nat, value: string) | RemoveOption(index: nat)

  /** One edit: add an empty option below four; overwrite one option; drop one option above
      two. The inputs only ever pass the index of an option on screen; an index past the end,
      which no input sends, is taken as no change here, where `newOptions[index] = value` would
      grow the array with holes. */
  function ApplyEdit(opts: seq<string>, e: OptionEdit): (r: seq<string>)
    ensures e.AddOption? ==> r == if |opts| < 4 then opts + [""] else opts
    ensures e.UpdateOption? && e.index < |opts| ==> r == opts[e.index := e.value]
    ensures e.RemoveOption? ==> r == if |opts| > 2 then RemoveAt(opts, e.index) else opts
  {
    match e
    case AddOption => if |opts| < 4 then opts + [""] else opts
    case UpdateOption(index, value) => if index < |opts| then opts[index := value] else opts
    case RemoveOption(index) => if |opts| > 2 then RemoveAt(opts, index) else opts
  }

  function ApplyEdits(opts: seq<string>, edits: seq<OptionEdit>): seq<string>
    decreases |edits|
  {
    if edits == [] then opts else ApplyEdits(ApplyEdit(opts, edits[0]), edits[1..])
  }

  /** Starting from the initial two options (or any count in range), no run of edits takes the
      option count outside 2..4. */
  lemma {:induction false} EditsKeepOptionCount(opts: seq<string>, edits: seq<OptionEdit>)
    requires 2 <= |opts| <= 4
    ensures 2 <= |ApplyEdits(opts, edits)| <= 4
    decreases |edits|
  {
    if edits != [] {
      var next := ApplyEdit(opts, edits[0]);
      assert 2 <= |next| <= 4;
      EditsKeepOptionCount(next, edits[1..]);
    }
  }

  /** The composer's state. */
  class Composer {
    var content: string
    var postType: PostType
    var imageUrl: string
    var pollQuestion: string
    var pollOptions: seq<string>

    ghost predicate Valid()
      reads this
    {
      2 <= |pollOptions| <= 4
    }

    /** The form as first shown and as left after a post: an empty text post with two empty
        poll options. */
    ghost predicate IsEmpty()
      reads this
    {
      content == "" && postType == TextPost && imageUrl == "" && pollQuestion == ""
      && pollOptions == ["", ""]
    }

    constructor ()
      ensures Valid() && IsEmpty()
    {
      content, postType, imageUrl, pollQuestion := "", TextPost, "", "";
      pollOptions := ["", ""];
    }

    /** The five setters `handleSubmit` calls after `onPost`. */
    method Reset()
      modifies this
      ensures Valid() && IsEmpty()
    {
      content := "";
      imageUrl := "";
      pollQuestion := "";
      pollOptions := ["", ""];
      postType := TextPost;
    }

    /** The tab switch and the text inputs. */
    method SetType(t: PostType)
      modifies this
      ensures postType == t
      ensures content == old(content) && imageUrl == old(imageUrl)
      ensures pollQuestion == old(pollQuestion) && pollOptions == old(pollOptions)
    {
      postType := t;
    }

    method SetContent(s: string)
      modifies this
      ensures content == s
      ensures postType == old(postType) && imageUrl == old(imageUrl)
      ensures pollQuestion == old(pollQuestion) && pollOptions == old(pollOptions)
    {
      content := s;
    }

    method SetImageUrl(s: string)
      modifies this
      ensures imageUrl == s
      ensures postType == old(postType) && content == old(content)
      ensures pollQuestion == old(pollQuestion) && pollOptions == old(pollOptions)
    {
      imageUrl := s;
    }

    method SetPollQuestion(s: string)
      modifies this
      ensures pollQuestion == s
      ensures postType == old(postType) && content == old(content)
      ensures imageUrl == old(imageUrl) && pollOptions == old(pollOptions)
    {
      pollQuestion := s;
    }

    /** `addPollOption`: one more empty option, only below four. */
    method AddPollOption()
      requires Valid()
      modifies this`pollOptions
      ensures Valid()
      ensures pollOptions == ApplyEdit(old(pollOptions), AddOption)
    {
      if |pollOptions| < 4 {
        pollOptions := pollOptions + [""];
      }
    }

    /** `updatePollOption`: copies the list and overwrites one entry. */
    method UpdatePollOption(index: nat, value: string)
      requires Valid() && index < |pollOptions|
      modifies this`pollOptions
      ensures Valid()
      ensures pollOptions == ApplyEdit(old(pollOptions), UpdateOption(index, value))
      ensures |pollOptions| == |old(pollOptions)| && pollOptions[index] == value
      ensures forall i :: 0 <= i < |pollOptions| && i != index ==> pollOptions[i] == old(pollOptions)[i]
    {
      var newOptions := pollOptions;
      newOptions := newOptions[index := value];
      pollOptions := newOptions;
    }

    /** `removePollOption`: drops one entry, only above two. */
    method RemovePollOption(index: nat)
      requires Valid()
      modifies this`pollOptions
      ensures Valid()
      ensures pollOptions == ApplyEdit(old(pollOptions), RemoveOption(index))
    {
      if |pollOptions| > 2 {
        pollOptions := RemoveAt(pollOptions, index);
      }
    }

    /** `handleSubmit`: a refused form posts nothing and keeps its contents; otherwise the built
        post goes to `onPost` and the form resets to an empty text post with two empty options. */
    method Submit(id: string, now: int) returns (posted: Option<Post>)
      requires Valid()
      modifies this
      ensures Valid()
      ensures posted == Submission(old(postType), old(content), old(imageUrl), old(pollQuestion), old(pollOptions), id, now)
      ensures posted.None? ==>
        content == old(content) && postType == old(postType) && imageUrl == old(imageUrl)
        && pollQuestion == old(pollQuestion) && pollOptions == old(pollOptions)
      ensures posted.Some? ==> IsEmpty()
    {
      var kind, text, url, question, options := postType, content, imageUrl, pollQuestion, pollOptions;
      posted := Submission(kind, text, url, question, options, id, now);
      if posted.Some? {
        Reset();
      }
    }
  }

  /** Composing and posting into the feed: a refused form leaves the feed alone; an accepted one
      puts the new, consistent post first with the older posts behind it in order, and a well
      formed feed stays well formed. */
  method ComposeAndPost(form: Composer, feed: FeedStore, id: string, now: int) returns (posted: Option<Post>)
    requires form.Valid()
    modifies form, feed
    ensures form.Valid()
    ensures posted.None? ==> feed.posts == old(feed.posts)
    ensures posted.Some? ==> feed.posts == [posted.value] + old(feed.posts) && VotesConsistent(posted.value)
    ensures old(feed.Valid()) ==> feed.Valid()
  {
    ghost var kind, content, url, q, opts := form.postType, form.content, form.imageUrl, form.pollQuestion, form.pollOptions;
    posted := form.Submit(id, now);
    if posted.Some? {
      NewPostConsistent(kind, content, url, q, opts, id, now);
      feed.NewPost(posted.value);
    }
  }
}
