/** One post in a feed: its record and the like and retweet toggles. */
module Post {
  import opened Wrappers

  datatype Author = Author(name: string, username: string, avatar: Option<string>)

  datatype Stats = Stats(likes: int, comments: int, retweets: int)

  datatype PostData = PostData(id: string, author: Author, content: string, timestamp: string, stats: Stats)

  /** What the action row shows: the three numbers and whether the retweet and like buttons are highlighted. */
  datatype ActionRow = ActionRow(comments: int, retweets: int, likes: int, retweetHighlighted: bool, likeHighlighted: bool)

  /** The action row for a post and the two toggles: the numbers are the post's own stats whatever the toggles are. */
  function ActionRowOf(post: PostData, isLiked: bool, isRetweeted: bool): (row: ActionRow)
    ensures row.comments == post.stats.comments
    ensures row.retweets == post.stats.retweets
    ensures row.likes == post.stats.likes
    ensures row.likeHighlighted == isLiked && row.retweetHighlighted == isRetweeted
  {
    ActionRow(post.stats.comments, post.stats.retweets, post.stats.likes, isRetweeted, isLiked)
  }

  /** Toggling changes the highlights only. */
  lemma TogglesLeaveNumbers(post: PostData, a: bool, b: bool, c: bool, d: bool)
    ensures ActionRowOf(post, a, b).(likeHighlighted := c, retweetHighlighted := d) == ActionRowOf(post, c, d)
  {
  }

  class PostCard {
    const post: PostData
    var isLiked: bool
    var isRetweeted: bool

    constructor (post: PostData)
      ensures this.post == post && !isLiked && !isRetweeted
    {
      this.post := post;
      isLiked := false;
      isRetweeted := false;
    }

    method ToggleLike()
      modifies this
      ensures isLiked == !old(isLiked) && isRetweeted == old(isRetweeted)
    {
      isLiked := !isLiked;
    }

    method ToggleRetweet()
      modifies this
      ensures isRetweeted == !old(isRetweeted) && isLiked == old(isLiked)
    {
      isRetweeted := !isRetweeted;
    }

    /** The row currently displayed. */
    function Displayed(): (row: ActionRow)
      reads this
      ensures row.likes == post.stats.likes && row.comments == post.stats.comments && row.retweets == post.stats.retweets
      ensures row.likeHighlighted == isLiked && row.retweetHighlighted == isRetweeted
    {
      ActionRowOf(post, isLiked, isRetweeted)
    }
  }

  /** Two clicks on the same button give back the flag it started with; the numbers shown never move. */
  method DoubleToggle(card: PostCard)
    modifies card
    ensures card.isLiked == old(card.isLiked) && card.isRetweeted == old(card.isRetweeted)
    ensures card.Displayed() == old(card.Displayed())
  {
    card.ToggleLike();
    card.ToggleLike();
    card.ToggleRetweet();
    card.ToggleRetweet();
  }
}
