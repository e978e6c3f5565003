/** The live feed of `HomeFeed`: the post records, the pure per-operation rewrites of the post
    list (prepend, like toggle, comment append, vote), the body of the interval tick that
    simulates other users' likes, and the component state that applies them. */
module HomeFeed {
  import opened Wrappers

  datatype Comment = Comment(id: string, author: string, content: string, timestamp: int)

  datatype PollOption = PollOption(id: int, text: string, votes: int)

  datatype PostType = TextPost | ImagePost | PollPost

  /** One post as the component stores it: a type tag and the optional fields of the
      structural type, each `None` where the object has no such property. Timestamps are
      milliseconds since the epoch. */
  datatype Post = Post(
    id: string,
    author: string,
    timestamp: int,
    content: string,
    kind: PostType,
    imageUrl: Option<string>,
    pollQuestion: Option<string>,
    pollOptions: Option<seq<PollOption>>,
    totalVotes: Option<int>,
    likes: int,
    comments: seq<Comment>,
    userLiked: Option<bool>,
    userVoted: Option<int>)

  /** `post.userLiked` as a condition: an absent flag reads as false. */
  predicate Liked(p: Post) {
    p.userLiked == Some(true)
  }

  // ----- votes -----

  function SumVotes(opts: seq<PollOption>): int {
    if opts == [] then 0 else opts[0].votes + SumVotes(opts[1..])
  }

  /** How many options carry the id `id`. */
  function CountId(opts: seq<PollOption>, id: int): nat {
    if opts == [] then 0 else (if opts[0].id == id then 1 else 0) + CountId(opts[1..], id)
  }

  /** The option map of `handleVote`: every option whose id is `id` gains one vote. */
  function BumpOption(opts: seq<PollOption>, id: int): (r: seq<PollOption>)
    ensures |r| == |opts|
    ensures forall k :: 0 <= k < |opts| ==>
      r[k].id == opts[k].id && r[k].text == opts[k].text
      && r[k].votes == opts[k].votes + (if opts[k].id == id then 1 else 0)
  {
    seq(|opts|, k requires 0 <= k < |opts| =>
      if opts[k].id == id then opts[k].(votes := opts[k].votes + 1) else opts[k])
  }

  /** Bumping adds to the vote sum once per option that carries the voted id. */
  lemma {:induction false} SumAfterBump(opts: seq<PollOption>, id: int)
    ensures SumVotes(BumpOption(opts, id)) == SumVotes(opts) + CountId(opts, id)
  {
    if opts != [] {
      assert BumpOption(opts, id)[1..] == BumpOption(opts[1..], id);
      SumAfterBump(opts[1..], id);
    }
  }

  /** Bumping changes votes only: every id is carried by as many options as before. */
  lemma {:induction false} BumpKeepsIdCounts(opts: seq<PollOption>, id: int, x: int)
    ensures CountId(BumpOption(opts, id), x) == CountId(opts, x)
  {
    if opts != [] {
      assert BumpOption(opts, id)[1..] == BumpOption(opts[1..], id);
      BumpKeepsIdCounts(opts[1..], id, x);
    }
  }

  /** No two options share an id. */
  predicate DistinctOptionIds(opts: seq<PollOption>) {
    forall i, j :: 0 <= i < j < |opts| ==> opts[i].id != opts[j].id
  }

  /** With distinct ids, every option's id is carried by exactly that one option. */
  lemma {:induction false} DistinctIdsCountOnce(opts: seq<PollOption>, j: nat)
    requires DistinctOptionIds(opts) && j < |opts|
    ensures CountId(opts, opts[j].id) == 1
  {
    if j == 0 {
      CountAbsent(opts[1..], opts[0].id);
    } else {
      DistinctIdsCountOnce(opts[1..], j - 1);
    }
  }

  /** An id no option carries is counted zero times. */
  lemma {:induction false} CountAbsent(opts: seq<PollOption>, id: int)
    requires forall i :: 0 <= i < |opts| ==> opts[i].id != id
    ensures CountId(opts, id) == 0
  {
    if opts != [] {
      CountAbsent(opts[1..], id);
    }
  }

  /** Feed invariant 1: a poll's total (absent read as 0) is the sum of its options' votes. */
  predicate VotesConsistent(p: Post) {
    p.kind == PollPost && p.pollOptions.Some? ==> p.totalVotes.GetOr(0) == SumVotes(p.pollOptions.value)
  }

  /** The question `handleVote` asks of each post. */
  predicate Votable(p: Post, postId: string) {
    p.id == postId && p.kind == PollPost && p.pollOptions.Some?
  }

  /** `handleVote` on one post: on the poll named `postId` the chosen option(s) gain a vote, the
      total (absent read as 0) gains one and the choice is recorded; any other post is left as
      it is. Nothing here looks at an earlier choice. */
  function VoteOn(p: Post, postId: string, optionId: int): (r: Post)
    ensures !Votable(p, postId) ==> r == p
    ensures Votable(p, postId) ==>
      && r == p.(pollOptions := r.pollOptions, totalVotes := r.totalVotes, userVoted := r.userVoted)
      && r.pollOptions == Some(BumpOption(p.pollOptions.value, optionId))
      && r.totalVotes == Some(p.totalVotes.GetOr(0) + 1)
      && r.userVoted == Some(optionId)
  {
    if Votable(p, postId) then
      p.(pollOptions := Some(BumpOption(p.pollOptions.value, optionId)),
         totalVotes := Some(p.totalVotes.GetOr(0) + 1),
         userVoted := Some(optionId))
    else p
  }

  /** A vote for an option id that exactly one option carries keeps the poll's total equal to
      the sum of its votes. */
  lemma VotePreservesConsistency(p: Post, postId: string, optionId: int)
    requires VotesConsistent(p)
    requires p.pollOptions.Some? ==> CountId(p.pollOptions.value, optionId) == 1
    ensures VotesConsistent(VoteOn(p, postId, optionId))
  {
    if Votable(p, postId) {
      SumAfterBump(p.pollOptions.value, optionId);
    }
  }

  /** A vote for an id no option carries still adds to the total: the invariant then breaks. */
  lemma VoteForMissingOptionBreaksTotal(p: Post, postId: string, optionId: int)
    requires VotesConsistent(p) && Votable(p, postId)
    requires CountId(p.pollOptions.value, optionId) == 0
    ensures !VotesConsistent(VoteOn(p, postId, optionId))
  {
    SumAfterBump(p.pollOptions.value, optionId);
  }

  /** `handleVote` has no guard of its own: a second vote on the same poll counts again. */
  lemma VoteTwiceCountsTwice(p: Post, postId: string, a: int, b: int)
    requires Votable(p, postId)
    ensures VoteOn(VoteOn(p, postId, a), postId, b).totalVotes == Some(p.totalVotes.GetOr(0) + 2)
    ensures VoteOn(VoteOn(p, postId, a), postId, b).userVoted == Some(b)
  {
  }

  // ----- likes -----

  /** `handleLike` on one post: the matching post's like flag flips (absent read as false) and
      its count moves by one in the flag's direction; any other post is left as it is. */
  function LikeOn(p: Post, postId: string): (r: Post)
    ensures p.id != postId ==> r == p
    ensures p.id == postId ==>
      && r == p.(likes := r.likes, userLiked := r.userLiked)
      && r.userLiked == Some(!Liked(p))
      && r.likes == if Liked(p) then p.likes - 1 else p.likes + 1
  {
    if p.id == postId then
      p.(likes := if Liked(p) then p.likes - 1 else p.likes + 1, userLiked := Some(!Liked(p)))
    else p
  }

  /** Feed invariant 3 (like symmetry): toggling twice restores the count and the flag's meaning,
      and restores the post exactly once the flag has been set at least once. */
  lemma LikeTwice(p: Post, postId: string)
    ensures LikeOn(LikeOn(p, postId), postId).likes == p.likes
    ensures Liked(LikeOn(LikeOn(p, postId), postId)) == Liked(p)
    ensures p.userLiked.Some? ==> LikeOn(LikeOn(p, postId), postId) == p
  {
    if p.id == postId && p.userLiked.Some? {
      var b := p.userLiked.value;
      assert p.userLiked == Some(b);
      assert LikeOn(LikeOn(p, postId), postId) == p.(likes := p.likes, userLiked := Some(b));
    }
  }

  // ----- comments -----

  /** `handleComment` on one post: the matching post gets `c` appended to its comments. */
  function CommentOn(p: Post, postId: string, c: Comment): (r: Post)
    ensures p.id != postId ==> r == p
    ensures p.id == postId ==> r == p.(comments := p.comments + [c])
  {
    if p.id == postId then p.(comments := p.comments + [c]) else p
  }

  // ----- the feed-wide rewrites (each is `posts.map(...)`) -----

  /** The posts' ids in feed order. */
  function Ids(posts: seq<Post>): seq<string> {
    seq(|posts|, k requires 0 <= k < |posts| => posts[k].id)
  }

  /** `posts.map(post => LikeOn(post, postId))`. */
  function LikeIn(posts: seq<Post>, postId: string): (r: seq<Post>)
    ensures |r| == |posts| && Ids(r) == Ids(posts)
    ensures forall k :: 0 <= k < |posts| ==> r[k] == LikeOn(posts[k], postId)
  {
    seq(|posts|, k requires 0 <= k < |posts| => LikeOn(posts[k], postId))
  }

  /** `prevPosts.map(post => CommentOn(post, postId, c))`. */
  function CommentIn(posts: seq<Post>, postId: string, c: Comment): (r: seq<Post>)
    ensures |r| == |posts| && Ids(r) == Ids(posts)
    ensures forall k :: 0 <= k < |posts| ==> r[k] == CommentOn(posts[k], postId, c)
  {
    seq(|posts|, k requires 0 <= k < |posts| => CommentOn(posts[k], postId, c))
  }

  /** `posts.map(post => VoteOn(post, postId, optionId))`. */
  function VoteIn(posts: seq<Post>, postId: string, optionId: int): (r: seq<Post>)
    ensures |r| == |posts| && Ids(r) == Ids(posts)
    ensures forall k :: 0 <= k < |posts| ==> r[k] == VoteOn(posts[k], postId, optionId)
  {
    seq(|posts|, k requires 0 <= k < |posts| => VoteOn(posts[k], postId, optionId))
  }

  /** Liking twice gives back the same likes and flag meanings on every post. */
  lemma LikeInTwice(posts: seq<Post>, postId: string)
    ensures var twice := LikeIn(LikeIn(posts, postId), postId);
            |twice| == |posts| &&
            forall k :: 0 <= k < |posts| ==>
              twice[k].likes == posts[k].likes && Liked(twice[k]) == Liked(posts[k])
  {
    forall k | 0 <= k < |posts| {
      LikeTwice(posts[k], postId);
    }
  }

  /** An id no post has: liking, commenting and voting change nothing. */
  lemma UnknownIdIsNoOp(posts: seq<Post>, postId: string, c: Comment, optionId: int)
    requires postId !in Ids(posts)
    ensures LikeIn(posts, postId) == posts
    ensures CommentIn(posts, postId, c) == posts
    ensures VoteIn(posts, postId, optionId) == posts
  {
    assert forall k :: 0 <= k < |posts| ==> posts[k].id == Ids(posts)[k];
  }

  /** A vote on a post that is not a poll with options changes nothing. */
  lemma VoteOnNonPollIsNoOp(posts: seq<Post>, postId: string, optionId: int)
    requires forall k :: 0 <= k < |posts| && posts[k].id == postId ==>
      posts[k].kind != PollPost || posts[k].pollOptions.None?
    ensures VoteIn(posts, postId, optionId) == posts
  {
  }

  /** Comments are append-only: each matching post gains exactly the new comment at the end and
      keeps every earlier comment in place. */
  lemma CommentAppends(posts: seq<Post>, postId: string, c: Comment, k: nat)
    requires k < |posts|
    ensures var after := CommentIn(posts, postId, c)[k].comments;
            posts[k].id == postId ==>
              |after| == |posts[k].comments| + 1 && after[|after| - 1] == c
              && after[..|posts[k].comments|] == posts[k].comments
  {
  }

  /** Across the feed, a vote for an id that exactly one option of the voted poll carries keeps
      every total equal to the sum of its votes. */
  lemma VoteInPreservesConsistency(posts: seq<Post>, postId: string, optionId: int)
    requires forall k :: 0 <= k < |posts| ==> VotesConsistent(posts[k])
    requires forall k :: 0 <= k < |posts| && Votable(posts[k], postId) ==>
      CountId(posts[k].pollOptions.value, optionId) == 1
    ensures forall k :: 0 <= k < |posts| ==> VotesConsistent(VoteIn(posts, postId, optionId)[k])
  {
    forall k | 0 <= k < |posts| ensures VotesConsistent(VoteIn(posts, postId, optionId)[k]) {
      if Votable(posts[k], postId) {
        VotePreservesConsistency(posts[k], postId, optionId);
      }
    }
  }

  /** A vote changes no option's id: every id is carried by as many options as before, so the
      single-option condition of the lemma above still holds for the next vote. */
  lemma VoteInKeepsIdCounts(posts: seq<Post>, postId: string, optionId: int, x: int)
    ensures forall k :: 0 <= k < |posts| ==>
      (VoteIn(posts, postId, optionId)[k].pollOptions.Some? <==> posts[k].pollOptions.Some?)
    ensures forall k :: 0 <= k < |posts| && posts[k].pollOptions.Some? ==>
      CountId(VoteIn(posts, postId, optionId)[k].pollOptions.value, x) == CountId(posts[k].pollOptions.value, x)
  {
    forall k | 0 <= k < |posts| && posts[k].pollOptions.Some?
      ensures CountId(VoteIn(posts, postId, optionId)[k].pollOptions.value, x) == CountId(posts[k].pollOptions.value, x)
    {
      if Votable(posts[k], postId) {
        BumpKeepsIdCounts(posts[k].pollOptions.value, optionId, x);
      }
    }
  }

  // ----- the feed invariant -----

  /** One post is well formed when its total agrees with its votes and no two of its options
      share an id. */
  predicate PostWellFormed(p: Post) {
    VotesConsistent(p) && (p.pollOptions.Some? ==> DistinctOptionIds(p.pollOptions.value))
  }

  /** The invariant every handler of the feed keeps: each post is well formed. */
  predicate FeedWellFormed(posts: seq<Post>) {
    forall k :: 0 <= k < |posts| ==> PostWellFormed(posts[k])
  }

  /** The vote names an option the voted poll shows: the only ids its option buttons send. */
  predicate OffersOption(posts: seq<Post>, postId: string, optionId: int) {
    forall k :: 0 <= k < |posts| && Votable(posts[k], postId) ==>
      exists j :: 0 <= j < |posts[k].pollOptions.value| && posts[k].pollOptions.value[j].id == optionId
  }

  /** A new post that is well formed keeps the feed well formed when it goes in front. */
  lemma PrependKeepsWellFormed(p: Post, posts: seq<Post>)
    requires PostWellFormed(p) && FeedWellFormed(posts)
    ensures FeedWellFormed([p] + posts)
  {
    forall k | 0 <= k < |[p] + posts| ensures PostWellFormed(([p] + posts)[k]) {
      if k > 0 {
        assert ([p] + posts)[k] == posts[k - 1];
      }
    }
  }

  /** Liking never touches poll fields, so the feed stays well formed. */
  lemma LikeInKeepsWellFormed(posts: seq<Post>, postId: string)
    requires FeedWellFormed(posts)
    ensures FeedWellFormed(LikeIn(posts, postId))
  {
  }

  /** Commenting never touches poll fields, so the feed stays well formed. */
  lemma CommentInKeepsWellFormed(posts: seq<Post>, postId: string, c: Comment)
    requires FeedWellFormed(posts)
    ensures FeedWellFormed(CommentIn(posts, postId, c))
  {
  }

  /** A vote for an option the poll shows keeps the feed well formed: with distinct ids that
      option is the only one carrying its id, and bumping keeps the ids distinct. */
  lemma VoteInKeepsWellFormed(posts: seq<Post>, postId: string, optionId: int)
    requires FeedWellFormed(posts) && OffersOption(posts, postId, optionId)
    ensures FeedWellFormed(VoteIn(posts, postId, optionId))
  {
    forall k | 0 <= k < |posts| ensures PostWellFormed(VoteIn(posts, postId, optionId)[k]) {
      if Votable(posts[k], postId) {
        var opts := posts[k].pollOptions.value;
        var j :| 0 <= j < |opts| && opts[j].id == optionId;
        DistinctIdsCountOnce(opts, j);
        VotePreservesConsistency(posts[k], postId, optionId);
      }
    }
  }

  // ----- the simulated-activity tick -----

  /** The tick's effect on one post: one more like when its draw came out true (the source's two
      draws, a 10% gate and a fair coin, folded into one boolean). */
  function Bumped(p: Post, grow: bool): Post {
    if grow then p.(likes := p.likes + 1) else p
  }

  /** How many draws came out true. */
  function CountTrue(s: seq<bool>): nat {
    if s == [] then 0 else CountTrue(s[..|s| - 1]) + (if s[|s| - 1] then 1 else 0)
  }

  /** The post list a tick produces from `current` and one draw per post. */
  function TickPosts(current: seq<Post>, grow: seq<bool>): (r: seq<Post>)
    requires |grow| == |current|
  {
    seq(|current|, k requires 0 <= k < |current| => Bumped(current[k], grow[k]))
  }

  /** A tick only touches likes: the same posts in the same order, each with its count equal or
      one higher (higher exactly where its draw came out true), and every other field as before. */
  lemma TickOnlyAddsLikes(current: seq<Post>, grow: seq<bool>)
    requires |grow| == |current|
    ensures var next := TickPosts(current, grow);
      && |next| == |current| && Ids(next) == Ids(current)
      && forall k :: 0 <= k < |current| ==>
           && next[k] == current[k].(likes := next[k].likes)
           && (next[k].likes == current[k].likes || next[k].likes == current[k].likes + 1)
           && (next[k].likes > current[k].likes <==> grow[k])
  {
  }

  /** A tick keeps vote totals consistent (it never touches poll fields). */
  lemma TickPreservesConsistency(current: seq<Post>, grow: seq<bool>)
    requires |grow| == |current|
    requires forall k :: 0 <= k < |current| ==> VotesConsistent(current[k])
    ensures forall k :: 0 <= k < |current| ==> VotesConsistent(TickPosts(current, grow)[k])
  {
  }

  /** A tick keeps the feed well formed (it never touches poll fields). */
  lemma TickKeepsWellFormed(current: seq<Post>, grow: seq<bool>)
    requires |grow| == |current| && FeedWellFormed(current)
    ensures FeedWellFormed(TickPosts(current, grow))
  {
  }

  /** The state updater the interval hands to `setPosts`: maps over the current posts, raising
      each one's likes when its draw says so and firing the notification callback (when there is
      one) once for each post whose likes grew. `fired` counts those calls. */
  method TickUpdate(current: seq<Post>, grow: seq<bool>, hasCallback: bool)
    returns (next: seq<Post>, fired: nat)
    requires |grow| == |current|
    ensures next == TickPosts(current, grow)
    ensures fired == if hasCallback then CountTrue(grow) else 0
  {
    next := [];
    fired := 0;
    var i := 0;
    while i < |current|
      invariant 0 <= i <= |current|
      invariant |next| == i
      invariant forall k :: 0 <= k < i ==> next[k] == Bumped(current[k], grow[k])
      invariant fired == if hasCallback then CountTrue(grow[..i]) else 0
    {
      var post := current[i];
      var wasLiked := post.likes;
      var newLikes := post.likes + (if grow[i] then 1 else 0);
      assert grow[..i + 1][..i] == grow[..i];
      if newLikes > wasLiked && hasCallback {
        fired := fired + 1;
      }
      next := next + [post.(likes := newLikes)];
      i := i + 1;
    }
    assert grow[..i] == grow;
  }

  // ----- the mock data the feed starts with -----

  /** The options of the mock poll. */
  const InitialPollOptions: seq<PollOption> :=
    [ PollOption(0, "Technical implementation", 15),
      PollOption(1, "Team coordination", 8),
      PollOption(2, "Time management", 23),
      PollOption(3, "Scope creep", 4) ]

  /** The texts of the mock posts and comments. */
  const SarahText := "Just submitted our project! \U{1F389} Working on an AI-powered sustainability tracker. Super excited to present tomorrow!"
  const MikeText := "Awesome work Sarah! Can't wait to see the demo"
  const AlphaText := "Our workspace is getting intense! Coffee count: \U{2615}\U{2615}\U{2615}\U{2615}\U{2615}"
  const AlphaImage := "https://images.unsplash.com/photo-1565687981296-535f09db714e?crop=entropy&cs=tinysrgb&fit=max&fm=jpg&ixid=M3w3Nzg4Nzd8MHwxfHNlYXJjaHwxfHxoYWNrYXRob24lMjBjb2RpbmclMjBldmVudHxlbnwxfHx8fDE3NTgxMDcyODF8MA&ixlib=rb-4.1.0&q=80&w=1080&utm_source=figma&utm_medium=referral"
  const PollQuestion := "What's your biggest challenge so far?"
  const AlexText := "Time management is definitely the hardest part!"

  /** The three posts the feed starts with, stamped relative to the load time `now` (ms). */
  function InitialPosts(now: int): seq<Post> {
    [ Post("1", "Sarah Chen", now - 1000 * 60 * 15, SarahText,
           TextPost, None, None, None, None, 12,
           [Comment("c1", "Mike Johnson", MikeText, now - 1000 * 60 * 10)],
           Some(false), None),
      Post("2", "Tech Team Alpha", now - 1000 * 60 * 45, AlphaText,
           ImagePost, Some(AlphaImage), None, None, None, 8,
           [], Some(true), None),
      Post("3", "Event Organizers", now - 1000 * 60 * 90, "",
           PollPost, None, Some(PollQuestion),
           Some(InitialPollOptions), Some(50), 5,
           [Comment("c2", "Alex Rivera", AlexText, now - 1000 * 60 * 80)],
           Some(false), Some(2)) ]
  }

  /** The mock poll's total of 50 is 15 + 8 + 23 + 4, and its recorded choice 2 names exactly
      one option. */
  lemma InitialPollConsistent()
    ensures SumVotes(InitialPollOptions) == 50
    ensures CountId(InitialPollOptions, 2) == 1
  {
    var o := InitialPollOptions;
    assert o[1..][1..][1..][1..] == [];
    assert SumVotes(o[1..][1..][1..]) == 4;
    assert CountId(o[1..][1..][1..], 2) == 0;
  }

  /** The mock feed is newest first, has distinct ids, and keeps vote totals consistent. */
  lemma InitialPostsWellFormed(now: int)
    ensures var posts := InitialPosts(now);
      && |posts| == 3
      && (forall i, j :: 0 <= i < j < |posts| ==> posts[i].timestamp > posts[j].timestamp)
      && (forall i, j :: 0 <= i < j < |posts| ==> posts[i].id != posts[j].id)
      && (forall k :: 0 <= k < |posts| ==> VotesConsistent(posts[k]))
      && CountId(posts[2].pollOptions.value, posts[2].userVoted.value) == 1
      && FeedWellFormed(posts)
  {
    InitialPollConsistent();
    var posts := InitialPosts(now);
    assert posts[0].id == "1" && posts[1].id == "2" && posts[2].id == "3";
    assert VotesConsistent(posts[2]);
    var o := InitialPollOptions;
    assert o[0].id == 0 && o[1].id == 1 && o[2].id == 2 && o[3].id == 3;
    assert PostWellFormed(posts[2]);
  }

  // ----- the component state -----

  /** The `posts` state of `HomeFeed` and the handlers that rewrite it. */
  class FeedStore {
    var posts: seq<Post>

    /** The store's invariant: the feed is well formed. */
    predicate Valid()
      reads this
    {
      FeedWellFormed(posts)
    }

    /** A freshly mounted feed: the mock posts, stamped relative to the module's load time
        `now` (every remount reuses the same stamps). */
    constructor (now: int)
      ensures posts == InitialPosts(now)
      ensures Valid()
    {
      posts := InitialPosts(now);
      InitialPostsWellFormed(now);
    }

    /** `handleNewPost`: the new post goes in front; the others keep their order. */
    method NewPost(p: Post)
      modifies this
      ensures posts == [p] + old(posts)
      ensures posts[0] == p && posts[1..] == old(posts)
      ensures old(Valid()) && PostWellFormed(p) ==> Valid()
    {
      if Valid() && PostWellFormed(p) {
        PrependKeepsWellFormed(p, posts);
      }
      posts := [p] + posts;
    }

    method Like(postId: string)
      modifies this
      ensures posts == LikeIn(old(posts), postId)
      ensures old(Valid()) ==> Valid()
    {
      if Valid() {
        LikeInKeepsWellFormed(posts, postId);
      }
      posts := LikeIn(posts, postId);
    }

    /** `handleComment`: appends a comment by the current user; id and time are supplied by the
        caller in place of `Date.now()` and `new Date()`. */
    method AddComment(postId: string, commentText: string, commentId: string, now: int)
      modifies this
      ensures posts == CommentIn(old(posts), postId, Comment(commentId, "Current User", commentText, now))
      ensures old(Valid()) ==> Valid()
    {
      var newComment := Comment(commentId, "Current User", commentText, now);
      if Valid() {
        CommentInKeepsWellFormed(posts, postId, newComment);
      }
      posts := CommentIn(posts, postId, newComment);
    }

    /** `handleVote`: the feed stays well formed when the vote names an option the poll shows. */
    method Vote(postId: string, optionId: int)
      modifies this
      ensures posts == VoteIn(old(posts), postId, optionId)
      ensures old(Valid()) && OffersOption(old(posts), postId, optionId) ==> Valid()
    {
      if Valid() && OffersOption(posts, postId, optionId) {
        VoteInKeepsWellFormed(posts, postId, optionId);
      }
      posts := VoteIn(posts, postId, optionId);
    }

    /** One firing of the 15-second interval, with the draws injected. */
    method Tick(grow: seq<bool>, hasCallback: bool) returns (fired: nat)
      requires |grow| == |posts|
      modifies this
      ensures posts == TickPosts(old(posts), grow)
      ensures fired == if hasCallback then CountTrue(grow) else 0
      ensures old(Valid()) ==> Valid()
    {
      if Valid() {
        TickKeepsWellFormed(posts, grow);
      }
      posts, fired := TickUpdate(posts, grow, hasCallback);
    }
  }
}
