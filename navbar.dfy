/** The site header: link normalisation for top-level menu entries, the
    account greeting and dropdown chosen by sign-in state, and the choice
    between a direct link and a flyout panel for each menu entry. */
module Navbar {

  /** The shopper; an empty userId is falsy (a guest). */
  datatype User = User(userId: string, firstName: string)

  /** Titles of the account dropdown entries (text constants of the storefront). */
  datatype AccountTitle = Login | Register | MyAccount | MyOrders | RecentlyViewed | SignOut

  /** An account dropdown entry; `signsOut` marks the entry whose click deletes the user. */
  datatype AccountLink = AccountLink(href: string, title: AccountTitle, signsOut: bool)

  datatype NavSubItem = NavSubItem(caption: string, itemLink: string)
  datatype NavBlock = NavBlock(boxTitle: string, navItems: seq<NavSubItem>)

  /** A top-level entry of the menu configuration. */
  datatype NavItem = NavItem(caption: string, hyperlink: string, navBlocks: seq<NavBlock>)

  /** A rendered top-level entry: a link (router href and raw anchor href) or a
      button opening a panel of blocks of sub-item hrefs. */
  datatype NavEntry =
    | DirectLink(caption: string, href: string, anchorHref: string)
    | Flyout(caption: string, panel: seq<seq<string>>)

  const UnauthorizedDropdown := [
    AccountLink("/my-account/login", Login, false),
    AccountLink("/my-account/register", Register, false)
  ]

  const AuthorizedDropdown := [
    AccountLink("/my-account", MyAccount, false),
    AccountLink("/my-account?view=orders", MyOrders, false),
    AccountLink("/my-account?view=details", RecentlyViewed, false),
    AccountLink("/", SignOut, true)
  ]

  /** hyperlinkHandler: `hyperlink[0] === '/' ? hyperlink : '/' + hyperlink`
      (on "" the first character is undefined, so the prefix is added). */
  function HyperlinkHandler(hyperlink: string): (r: string)
    ensures |r| > 0 && r[0] == '/'
    ensures |hyperlink| > 0 && hyperlink[0] == '/' ==> r == hyperlink
    ensures !(|hyperlink| > 0 && hyperlink[0] == '/') ==> r == "/" + hyperlink
  {
    if |hyperlink| > 0 && hyperlink[0] == '/' then hyperlink else "/" + hyperlink
  }

  /** Normalising twice is normalising once; the empty link becomes the root. */
  lemma HyperlinkHandlerIdempotent(hyperlink: string)
    ensures HyperlinkHandler(HyperlinkHandler(hyperlink)) == HyperlinkHandler(hyperlink)
    ensures HyperlinkHandler("") == "/"
  {
  }

  /** Normalisation only ever adds a prefix: the input is a suffix of the output,
      at most one character shorter. */
  lemma HyperlinkHandlerSuffix(hyperlink: string)
    ensures |HyperlinkHandler(hyperlink)| - |hyperlink| in {0, 1}
    ensures HyperlinkHandler(hyperlink)[|HyperlinkHandler(hyperlink)| - |hyperlink|..] == hyperlink
  {
  }

  predicate SignedIn(user: User)
  {
    user.userId != ""
  }

  /** The account greeting. */
  function Title(user: User): (t: string)
    ensures SignedIn(user) ==> t == "Hi, " + user.firstName
    ensures !SignedIn(user) ==> t == "My account"
  {
    if SignedIn(user) then "Hi, " + user.firstName else "My account"
  }

  /** The account dropdown: the four signed-in entries, ending with sign-out at "/",
      or the login and register entries for a guest. */
  function AccountDropdown(user: User): (entries: seq<AccountLink>)
    ensures SignedIn(user) ==> |entries| == 4 && entries[3] == AccountLink("/", SignOut, true)
    ensures !SignedIn(user) ==> |entries| == 2 && entries[0].title == Login && entries[1].title == Register
    ensures forall i :: 0 <= i < |entries| ==> (entries[i].signsOut <==> entries[i].title == SignOut)
    ensures (exists i :: 0 <= i < |entries| && entries[i].signsOut) <==> SignedIn(user)
  {
    var entries := if SignedIn(user) then AuthorizedDropdown else UnauthorizedDropdown;
    assert SignedIn(user) ==> entries[3].signsOut;
    entries
  }

  /** A sub-item's href is `'/' + itemLink`, with no normalisation. */
  function SubItemHref(sub: NavSubItem): string
  {
    "/" + sub.itemLink
  }

  /** Sub-item hrefs are not normalised like top-level links: an itemLink that
      already starts with '/' gets a doubled slash. */
  lemma SubItemHrefNotNormalised(sub: NavSubItem)
    requires |sub.itemLink| > 0 && sub.itemLink[0] == '/'
    ensures SubItemHref(sub) != HyperlinkHandler(sub.itemLink)
    ensures SubItemHref(sub)[..2] == "//"
  {
    assert |SubItemHref(sub)| == |HyperlinkHandler(sub.itemLink)| + 1;
  }

  /** One top-level entry: a direct link iff it has no navBlocks, a flyout panel
      listing every block's sub-item hrefs otherwise. */
  function RenderNavItem(item: NavItem): (e: NavEntry)
    ensures e.DirectLink? <==> |item.navBlocks| == 0
    ensures e.DirectLink? ==> e.href == HyperlinkHandler(item.hyperlink) && e.anchorHref == item.hyperlink
    ensures e.Flyout? ==> |e.panel| == |item.navBlocks|
    ensures e.Flyout? ==> forall b :: 0 <= b < |item.navBlocks| ==>
              |e.panel[b]| == |item.navBlocks[b].navItems|
              && forall k :: 0 <= k < |e.panel[b]| ==> e.panel[b][k] == SubItemHref(item.navBlocks[b].navItems[k])
  {
    if |item.navBlocks| == 0 then
      DirectLink(item.caption, HyperlinkHandler(item.hyperlink), item.hyperlink)
    else
      Flyout(item.caption,
             seq(|item.navBlocks|, b requires 0 <= b < |item.navBlocks| =>
               seq(|item.navBlocks[b].navItems|, k requires 0 <= k < |item.navBlocks[b].navItems| =>
                 SubItemHref(item.navBlocks[b].navItems[k]))))
  }

  /** The whole menu, one entry per configuration item in order; every direct link
      is rooted at '/'. */
  function RenderMenu(config: seq<NavItem>): (entries: seq<NavEntry>)
    ensures |entries| == |config|
    ensures forall i :: 0 <= i < |config| ==> entries[i] == RenderNavItem(config[i])
    ensures forall i :: 0 <= i < |entries| && entries[i].DirectLink? ==>
              |entries[i].href| > 0 && entries[i].href[0] == '/'
  {
    seq(|config|, i requires 0 <= i < |config| => RenderNavItem(config[i]))
  }
}
