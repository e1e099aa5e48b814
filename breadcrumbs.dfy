/** The breadcrumb trail (src/components/Breadcrumbs.jsx): Home followed by
    the page's own entries; every entry after the first has a separator in
    front of it, and an entry is a link when it has a target and is not the
    last one. Icons are not modelled. */
module Breadcrumbs {
  import opened Common

  /** One entry handed to the component; `href` may be missing. */
  datatype Crumb = Crumb(caption: string, href: Option<string>)

  /** One entry as rendered: its caption (the label), the link target when it is rendered
      as a link, and whether a separator precedes it. */
  datatype RenderedCrumb = RenderedCrumb(caption: string, link: Option<string>, separatorBefore: bool)

  const HomeCrumb: Crumb := Crumb("Home", Some("/"))

  /** `allItems`: Home followed by the given entries. */
  function AllItems(items: seq<Crumb>): (all: seq<Crumb>)
    ensures |all| == |items| + 1 && all[0] == HomeCrumb && all[1..] == items
  {
    [HomeCrumb] + items
  }

  /** `item.href && index < allItems.length - 1`: a non-empty target and not
      the last entry. */
  predicate IsLink(all: seq<Crumb>, index: nat)
    requires index < |all|
  {
    all[index].href.Some? && all[index].href.value != "" && index < |all| - 1
  }

  /** The rendered trail. */
  function Render(items: seq<Crumb>): (r: seq<RenderedCrumb>)
    ensures |r| == |items| + 1
    ensures forall i :: 0 <= i < |r| ==> r[i].caption == AllItems(items)[i].caption
    ensures forall i :: 0 <= i < |r| ==> (r[i].separatorBefore <==> i > 0)
    ensures forall i :: 0 <= i < |r| ==>
      (r[i].link.Some? <==> AllItems(items)[i].href.Some? && AllItems(items)[i].href.value != "" && i < |items|)
    ensures forall i :: 0 <= i < |r| && r[i].link.Some? ==> r[i].link == AllItems(items)[i].href
  {
    var all := AllItems(items);
    seq(|all|, i requires 0 <= i < |all| =>
      RenderedCrumb(all[i].caption, if IsLink(all, i) then all[i].href else None, i > 0))
  }

  /** The last entry is never a link. */
  lemma LastIsPlainText(items: seq<Crumb>)
    ensures Render(items)[|items|].link == None
  {
  }

  /** With no entries of its own the trail is Home alone, as plain text. */
  lemma HomeAlone()
    ensures Render([]) == [RenderedCrumb("Home", None, false)]
  {
  }

  /** With at least one entry Home links to the root. */
  lemma HomeLinksWhenFollowed(items: seq<Crumb>)
    requires items != []
    ensures Render(items)[0] == RenderedCrumb("Home", Some("/"), false)
  {
  }
}
