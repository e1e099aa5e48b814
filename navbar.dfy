/** The navigation bar (src/components/Navbar.jsx): which link is active,
    the search box's navigation, the cart badge, and the signed-in user's
    avatar, name and admin link. */
module Navbar {
  import opened Common
  import opened Text

  /** The signed-in user's profile fields the bar reads. */
  datatype UserInfo = UserInfo(displayName: Option<string>, email: Option<string>, role: Option<string>)

  /** `isActiveLink`: the home link only on `/` itself, every other link on
      any path that starts with its href. */
  function IsActiveLink(pathname: string, href: string): (r: bool)
    ensures href == "/" ==> (r <==> pathname == "/")
    ensures href != "/" ==> (r <==> |href| <= |pathname| && pathname[..|href|] == href)
  {
    if href == "/" then pathname == "/" else StartsWith(pathname, href)
  }

  /** A link is active on its own path. */
  lemma LinkActiveOnItsPath(href: string)
    ensures IsActiveLink(href, href)
  {
    assert href[..|href|] == href;
  }

  /** The home link is not active on other pages, although every path
      starts with `/`. */
  lemma HomeNotActiveElsewhere()
    ensures !IsActiveLink("/products", "/")
    ensures StartsWith("/products", "/")
  {
  }

  /** The prefix test is on characters, not path segments: the shop link is
      also active on `/productsX`. */
  lemma PrefixNotSegment()
    ensures IsActiveLink("/productsX", "/products")
  {
    assert "/productsX"[..9] == "/products";
  }

  /** `handleSearch`: a query that is blank after trimming goes nowhere;
      any other query is put into the URL exactly as typed. */
  function SearchNavigation(searchQuery: string): (target: Option<string>)
    ensures target.None? <==> AllWhitespace(searchQuery)
    ensures target.Some? ==> target.value == "/products?search=" + searchQuery
  {
    TrimEmptyIff(searchQuery);
    if Trim(searchQuery) != "" then Some("/products?search=" + searchQuery) else None
  }

  /** The cart badge shows when something is in the cart. */
  function ShowCartBadge(totalQuantity: int): (r: bool)
    ensures r <==> totalQuantity > 0
  {
    totalQuantity > 0
  }

  /** A string's first character, as `charAt(0)`: empty for the empty
      string. */
  function CharAt0(s: string): (r: string)
    ensures s == "" ==> r == ""
    ensures s != "" ==> r == [s[0]]
  {
    if s == "" then "" else s[..1]
  }

  /** The avatar letter: the first character of the display name, else of
      the e-mail, else "U". */
  function AvatarInitial(user: Option<UserInfo>): (r: string)
    ensures |r| == 1
    ensures user.Some? && user.value.displayName.Some? && user.value.displayName.value != ""
            ==> r == [user.value.displayName.value[0]]
    ensures (user.None? || user.value.displayName.None? || user.value.displayName.value == "")
            && user.Some? && user.value.email.Some? && user.value.email.value != ""
            ==> r == [user.value.email.value[0]]
    ensures (user.None? || ((user.value.displayName.None? || user.value.displayName.value == "")
                            && (user.value.email.None? || user.value.email.value == "")))
            ==> r == "U"
  {
    var fromName := if user.Some? && user.value.displayName.Some? then CharAt0(user.value.displayName.value) else "";
    var fromEmail := if user.Some? && user.value.email.Some? then CharAt0(user.value.email.value) else "";
    if fromName != "" then fromName else if fromEmail != "" then fromEmail else "U"
  }

  /** The name shown next to the avatar: the display name, else "User". */
  function DisplayNameLabel(user: Option<UserInfo>): (r: string)
    ensures r != ""
    ensures user.Some? && user.value.displayName.Some? && user.value.displayName.value != ""
            ==> r == user.value.displayName.value
    ensures (user.None? || user.value.displayName.None? || user.value.displayName.value == "")
            ==> r == "User"
  {
    if user.Some? && user.value.displayName.Some? && user.value.displayName.value != "" then user.value.displayName.value
    else "User"
  }

  /** The admin dashboard link shows only for the role `'admin'`. */
  function ShowAdminLink(user: Option<UserInfo>): (r: bool)
    ensures r <==> user.Some? && user.value.role == Some("admin")
  {
    user.Some? && user.value.role == Some("admin")
  }
}
