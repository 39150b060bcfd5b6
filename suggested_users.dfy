/**
 * The "Who to Follow" cards: a set of followed user ids that each card's
 * button toggles.
 */
module SuggestedUsers {
  import opened Wrappers

  datatype SuggestedUser = SuggestedUser(
    id: string,
    name: string,
    username: string,
    followers: string,
    bio: Option<string>,
    avatarUrl: Option<string>)

  /** The set after one follow click on `id`: an absent id joins, a present id leaves, every other id stays as it was. */
  function Toggled(s: set<string>, id: string): (r: set<string>)
    ensures id in r <==> id !in s
    ensures forall other :: other != id ==> (other in r <==> other in s)
  {
    if id in s then s - {id} else s + {id}
  }

  /** Two clicks on the same card give back the set they started from. */
  lemma ToggledTwice(s: set<string>, id: string)
    ensures Toggled(Toggled(s, id), id) == s
  {
  }

  /** Clicks on two different cards can happen in either order. */
  lemma ToggledCommutes(s: set<string>, a: string, b: string)
    ensures Toggled(Toggled(s, a), b) == Toggled(Toggled(s, b), a)
  {
  }

  /** The text on a card's button. */
  function FollowLabel(isFollowing: bool): string {
    if isFollowing then "Following" else "Follow"
  }

  class FollowTracker {
    var followedUsers: set<string>

    constructor ()
      ensures followedUsers == {}
    {
      followedUsers := {};
    }

    /** Copy the set, add or remove the card's id, store the copy, and report the user. */
    method HandleFollowClick(user: SuggestedUser) returns (reported: SuggestedUser)
      modifies this
      ensures followedUsers == Toggled(old(followedUsers), user.id)
      ensures reported == user
    {
      var newSet := followedUsers;
      if user.id in newSet {
        newSet := newSet - {user.id};
      } else {
        newSet := newSet + {user.id};
      }
      followedUsers := newSet;
      reported := user;
    }

    /** A card's state and button text: "Following" exactly for a followed id. */
    function CardLabel(user: SuggestedUser): (text: string)
      reads this
      ensures text == "Following" <==> user.id in followedUsers
      ensures text == "Follow" <==> user.id !in followedUsers
    {
      FollowLabel(user.id in followedUsers)
    }
  }
}
