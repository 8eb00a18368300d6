/**
 * A post's card (components/PostCard.tsx): the like toggle, adding a
 * comment, and the compact rendering of the view count.
 */
module PostCard {
  import opened Wrappers
  import opened Text
  import opened Types

  // ---------------------------------------------------------------------------
  // Likes
  // ---------------------------------------------------------------------------

  datatype Likes = Likes(liked: bool, count: int)

  /** `handleLike`: flip `liked`, and count one like more from unliked or one fewer from liked. */
  function Toggle(l: Likes): (r: Likes)
    ensures r.liked == !l.liked
    ensures r.count == if l.liked then l.count - 1 else l.count + 1
  {
    if l.liked then Likes(false, l.count - 1) else Likes(true, l.count + 1)
  }

  /** The likes of everybody else: the count without the viewer's own like. */
  function Others(l: Likes): int
  {
    l.count - (if l.liked then 1 else 0)
  }

  function ToggleTimes(l: Likes, n: nat): Likes
  {
    if n == 0 then l else Toggle(ToggleTimes(l, n - 1))
  }

  /** A toggle leaves the likes of everybody else as they were. */
  lemma ToggleKeepsOthers(l: Likes)
    ensures Others(Toggle(l)) == Others(l)
  {
  }

  /** Two toggles in a row restore both the flag and the count. */
  lemma ToggleTwice(l: Likes)
    ensures Toggle(Toggle(l)) == l
  {
  }

  /** However many toggles: everybody else's likes are unchanged, and an even number restores the state. */
  lemma {:induction false} ToggleTimesInvariant(l: Likes, n: nat)
    ensures Others(ToggleTimes(l, n)) == Others(l)
    ensures n % 2 == 0 ==> ToggleTimes(l, n) == l
    ensures n % 2 == 1 ==> ToggleTimes(l, n) == Toggle(l)
  {
    if n > 0 {
      ToggleTimesInvariant(l, n - 1);
      ToggleTwice(l);
    }
  }

  // ---------------------------------------------------------------------------
  // formatNumber
  // ---------------------------------------------------------------------------

  /**
   * `formatNumber`: the plain decimal below 1000, otherwise the number of
   * thousands with one decimal and the suffix "k".
   */
  function FormatNumber(num: int): (r: string)
    ensures num < 1000 ==> r == IntToString(num)
    ensures num >= 1000 ==> |r| >= 4 && r[|r| - 1] == 'k' && r[|r| - 3] == '.'
  {
    if num >= 1000 then
      var tenths := (num + 50) / 100;
      NatToString(tenths / 10) + "." + [DigitChar(tenths % 10)] + "k"
    else
      IntToString(num)
  }

  /**
   * At or above 1000 the text before "k" reads as a number of thousands that
   * is within 0.05 thousand of `num`.
   */
  lemma FormatNumberThousands(num: int)
    requires num >= 1000
    ensures var r := FormatNumber(num);
            && AllDigits(r[..|r| - 3]) && IsDigit(r[|r| - 2])
            && var shown := 10 * ParseNat(r[..|r| - 3]) + DigitValue(r[|r| - 2]);
               100 * shown - 50 <= num <= 100 * shown + 50
  {
    var tenths := (num + 50) / 100;
    var whole := NatToString(tenths / 10);
    NatToStringCanonical(tenths / 10);
    var r := FormatNumber(num);
    assert r == whole + "." + [DigitChar(tenths % 10)] + "k";
    assert r[..|r| - 3] == whole;
    assert DigitValue(r[|r| - 2]) == tenths % 10;
  }

  /** Below 1000 the rendering reads back as the number itself. */
  lemma FormatNumberSmall(num: int)
    requires num < 1000
    ensures ParseInt(FormatNumber(num)) == Some(num)
  {
    IntToStringRoundTrip(num);
  }

  // ---------------------------------------------------------------------------
  // Comments
  // ---------------------------------------------------------------------------

  /** The comment `handleAddComment` creates: the text as typed, untrimmed, by the fixed author. */
  function NewComment(id: string, text: string): (c: Comment)
    ensures c.id == id && c.content == text
    ensures c.author == "Alex Thompson" && c.authorRole == Journalist && c.timestamp == "Just now"
  {
    Comment(id, "Alex Thompson", None, Journalist, text, "Just now")
  }

  class Card {
    var comments: seq<Comment>
    var liked: bool
    var likeCount: int
    var newComment: string
    /** The likes of everybody else, fixed when the card is created. */
    ghost const others: int

    ghost predicate Valid()
      reads this
    {
      Others(Likes(liked, likeCount)) == others
    }

    /** The initial state: missing comments read as none, a missing `likedByMe` as not liked. */
    constructor (post: Post)
      ensures comments == post.comments.GetOr([])
      ensures liked == post.likedByMe.GetOr(false) && likeCount == post.likes
      ensures newComment == ""
      ensures Valid() && others == post.likes - (if post.likedByMe == Some(true) then 1 else 0)
    {
      comments := post.comments.GetOr([]);
      liked := post.likedByMe.GetOr(false);
      likeCount := post.likes;
      newComment := "";
      others := post.likes - (if post.likedByMe == Some(true) then 1 else 0);
    }

    method HandleLike()
      requires Valid()
      modifies this`liked, this`likeCount
      ensures Valid()
      ensures Likes(liked, likeCount) == Toggle(Likes(old(liked), old(likeCount)))
    {
      if liked {
        likeCount := likeCount - 1;
      } else {
        likeCount := likeCount + 1;
      }
      liked := !liked;
    }

    method SetNewComment(text: string)
      modifies this`newComment
      ensures newComment == text
    {
      newComment := text;
    }

    /**
     * `handleAddComment`: a comment of whitespace only is refused and nothing
     * changes; otherwise the new comment goes first, the old ones follow in
     * their order, and the input box is cleared.
     */
    method HandleAddComment(id: string) returns (accepted: bool)
      modifies this`comments, this`newComment
      ensures accepted <==> !AllWhitespace(old(newComment))
      ensures !accepted ==> comments == old(comments) && newComment == old(newComment)
      ensures accepted ==>
                && comments == [NewComment(id, old(newComment))] + old(comments)
                && |comments| == |old(comments)| + 1 && comments[1..] == old(comments)
                && newComment == ""
    {
      TrimBlank(newComment);
      if Trim(newComment) == "" {
        return false;
      }
      comments := [NewComment(id, newComment)] + comments;
      newComment := "";
      accepted := true;
    }
  }
}
