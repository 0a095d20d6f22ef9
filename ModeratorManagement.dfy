/**
 * The moderator cards: the five capability badges a card shows, each decided by a substring
 * test over the moderator's permission strings.
 */
module ModeratorManagement {
  import opened JsText

  /** `permissions.find(p => p.includes(keyword) || p.includes("admin"))` is truthy. */
  predicate Shows(permissions: seq<string>, keyword: string) {
    exists k :: 0 <= k < |permissions| && (Contains(permissions[k], keyword) || Contains(permissions[k], "admin"))
  }

  /** The badges of a card, in the order they are rendered. */
  function Badges(permissions: seq<string>): (r: seq<string>)
    ensures "Manage Users" in r <==> Shows(permissions, "users")
    ensures "Manage Posts" in r <==> Shows(permissions, "post")
    ensures "Manage Moderators" in r <==> Shows(permissions, "moderator")
    ensures "Approve Comments" in r <==> Shows(permissions, "comment")
    ensures "Manage Settings" in r <==> Shows(permissions, "settings")
  {
    BadgeRow(Shows(permissions, "users"), Shows(permissions, "post"), Shows(permissions, "moderator"),
             Shows(permissions, "comment"), Shows(permissions, "settings"))
  }

  /** The badges for the five decisions, each present exactly when its decision is true. */
  function BadgeRow(users: bool, posts: bool, moderators: bool, comments: bool, settings: bool): (r: seq<string>)
    ensures "Manage Users" in r <==> users
    ensures "Manage Posts" in r <==> posts
    ensures "Manage Moderators" in r <==> moderators
    ensures "Approve Comments" in r <==> comments
    ensures "Manage Settings" in r <==> settings
  {
    BadgeNamesDiffer();
    (if users then ["Manage Users"] else [])
    + (if posts then ["Manage Posts"] else [])
    + (if moderators then ["Manage Moderators"] else [])
    + (if comments then ["Approve Comments"] else [])
    + (if settings then ["Manage Settings"] else [])
  }

  /** The badge names are pairwise different; the two of equal length differ in their eighth letter. */
  lemma BadgeNamesDiffer()
    ensures "Manage Users" != "Manage Posts"
    ensures |"Manage Users"| == 12 && |"Manage Posts"| == 12 && |"Manage Moderators"| == 17
    ensures |"Approve Comments"| == 16 && |"Manage Settings"| == 15
  {
    assert "Manage Users"[7] != "Manage Posts"[7];
  }

  const AllBadges := ["Manage Users", "Manage Posts", "Manage Moderators", "Approve Comments", "Manage Settings"]

  /** A permission mentioning `admin` shows every badge, in the fixed order. */
  lemma AdminShowsAll(permissions: seq<string>, k: nat)
    requires k < |permissions| && Contains(permissions[k], "admin")
    ensures Badges(permissions) == AllBadges
  {
  }

  /** Without any permission no badge is shown. */
  lemma NoPermissionsNoBadges()
    ensures Badges([]) == []
  {
  }

  /** `freelance_post:` permissions count as post permissions, and `moderators:` ones as
      moderator permissions. */
  lemma SubstringBadges(permissions: seq<string>)
    ensures "freelance_post:read" in permissions ==> "Manage Posts" in Badges(permissions)
    ensures "moderators:write" in permissions ==> "Manage Moderators" in Badges(permissions)
  {
    if "freelance_post:read" in permissions {
      var k :| 0 <= k < |permissions| && permissions[k] == "freelance_post:read";
      assert OccursAt(permissions[k], "post", 10);
    }
    if "moderators:write" in permissions {
      var k :| 0 <= k < |permissions| && permissions[k] == "moderators:write";
      assert OccursAt(permissions[k], "moderator", 0);
    }
  }

  /** Adding permissions never hides a badge. */
  lemma BadgesMonotone(permissions: seq<string>, more: seq<string>, b: string)
    requires forall x :: x in permissions ==> x in more
    requires b in Badges(permissions)
    ensures b in Badges(more)
  {
    forall keyword | Shows(permissions, keyword)
      ensures Shows(more, keyword)
    {
      var k :| 0 <= k < |permissions| && (Contains(permissions[k], keyword) || Contains(permissions[k], "admin"));
      assert permissions[k] in more;
      var j :| 0 <= j < |more| && more[j] == permissions[k];
    }
  }
}
