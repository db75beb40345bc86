/**
 * The sidebar's navigation entries and the rule that highlights the entry
 * of the current route.
 */
module Sidebar {
  import opened JsText

  /** A navigation entry: its label and its target route. */
  datatype NavItem = NavItem(name: string, href: string)

  const Home := "/dashboard"

  const MainItems: seq<NavItem> := [
    NavItem("Visão Geral", "/dashboard"),
    NavItem("Registrar Sessão", "/dashboard/sessions"),
    NavItem("Meus Treinos", "/dashboard/history"),
    NavItem("Metas", "/dashboard/goals"),
    NavItem("Exercícios de Musculação", "/dashboard/exercises")
  ]

  const ProfileItem := NavItem("Meu Perfil", "/dashboard/profile")

  /** Every entry the sidebar shows, the profile entry last. */
  function AllItems(): seq<NavItem> {
    MainItems + [ProfileItem]
  }

  /**
   * `isActiveRoute`: the overview entry only on "/dashboard" itself; any
   * other entry on its own route or on any route below it.
   */
  predicate IsActiveRoute(pathname: string, href: string): (b: bool)
    ensures href == Home ==> (b <==> pathname == Home)
    ensures href != Home ==>
      (b <==> IsPrefix(href, pathname) && (|pathname| == |href| || pathname[|href|] == '/'))
  {
    PrefixWithSlash(pathname, href);
    if href == Home then pathname == Home
    else pathname == href || IsPrefix(href + "/", pathname)
  }

  /** `pathname.startsWith(href + "/")`: `href` starts the path and a `/` follows it. */
  lemma PrefixWithSlash(pathname: string, href: string)
    ensures IsPrefix(href + "/", pathname) <==> IsPrefix(href, pathname) && |pathname| > |href| && pathname[|href|] == '/'
    ensures pathname == href <==> IsPrefix(href, pathname) && |pathname| == |href|
  {
    if IsPrefix(href, pathname) && |pathname| > |href| && pathname[|href|] == '/' {
      assert pathname[..|href| + 1] == pathname[..|href|] + [pathname[|href|]];
    }
    if IsPrefix(href + "/", pathname) {
      assert pathname[..|href|] == (href + "/")[..|href|];
    }
    if IsPrefix(href, pathname) && |pathname| == |href| {
      assert pathname == pathname[..|href|];
    }
  }

  /** An entry below the overview is active only on routes that start with its path and end or continue with a `/`. */
  lemma ActiveBelow(pathname: string, href: string)
    requires href != Home && IsActiveRoute(pathname, href)
    ensures IsPrefix(href, pathname)
    ensures |pathname| > |href| ==> pathname[|href|] == '/'
  {
    if pathname != href {
      assert pathname[..|href|] == (href + "/")[..|href|] == href;
      assert pathname[|href|] == (href + "/")[|href|];
    }
  }

  /** Every entry below the overview starts with "/dashboard/" and has its own letter right after it. */
  lemma SubRoutes()
    ensures forall i :: 1 <= i < |AllItems()| ==>
      |AllItems()[i].href| > 11 && AllItems()[i].href[..11] == "/dashboard/"
    ensures forall i, j :: 1 <= i < j < |AllItems()| ==> AllItems()[i].href[11] != AllItems()[j].href[11]
  {
    var items := AllItems();
    assert items[1].href == "/dashboard/sessions";
    assert items[2].href == "/dashboard/history";
    assert items[3].href == "/dashboard/goals";
    assert items[4].href == "/dashboard/exercises";
    assert items[5].href == "/dashboard/profile";
  }

  /** A longer route whose next character after the entry's path is not `/` is not below the entry. */
  lemma NotBelowWhen(pathname: string, href: string)
    requires href != Home && |pathname| > |href| && pathname[|href|] != '/'
    ensures !IsActiveRoute(pathname, href)
  {
    assert (href + "/")[|href|] == '/';
  }

  /** Matching stops at a path segment: "/dashboard/goals/3" is under Metas, "/dashboard/goalsX" is not. */
  lemma SegmentBoundary()
    ensures IsActiveRoute("/dashboard/goals/3", "/dashboard/goals")
    ensures !IsActiveRoute("/dashboard/goalsX", "/dashboard/goals")
  {
    assert "/dashboard/goals/3"[..17] == "/dashboard/goals" + "/";
    NotBelowWhen("/dashboard/goalsX", "/dashboard/goals");
  }

  /** A route whose twelfth character differs from an entry's is not below that entry. */
  lemma NotActiveWhen(pathname: string, href: string)
    requires href != Home && |pathname| > 11 && |href| > 11 && pathname[11] != href[11]
    ensures !IsActiveRoute(pathname, href)
  {
    assert (href + "/")[11] == href[11];
  }

  /** Whatever the route, at most one of the six entries is highlighted. */
  lemma AtMostOneActive(pathname: string, i: nat, j: nat)
    requires i < j < |AllItems()|
    ensures IsActiveRoute(pathname, AllItems()[j].href) ==> !IsActiveRoute(pathname, AllItems()[i].href)
  {
    var items := AllItems();
    SubRoutes();
    assert items[0].href == Home;
    var hj := items[j].href;
    if IsActiveRoute(pathname, hj) {
      ActiveBelow(pathname, hj);
      assert pathname[11] == pathname[..|hj|][11] == hj[11];
      if i > 0 {
        NotActiveWhen(pathname, items[i].href);
      }
    }
  }
}
