/**
 * The navigation bar (src/components/Navigation.tsx): five menu items, a
 * mobile menu opened and closed by a button, the active item highlighted, and
 * a bottom bar with the first four items labelled by their first word.
 */
module Navigation {
  import Text

  datatype MenuItem = MenuItem(id: string, caption: string)

  const MenuItems: seq<MenuItem> := [
    MenuItem("home", "Accueil"),
    MenuItem("map", "Carte Parking"),
    MenuItem("stats", "Statistiques"),
    MenuItem("profile", "Profil"),
    MenuItem("settings", "Paramètres")
  ]

  predicate DistinctMenuIds(items: seq<MenuItem>) {
    forall i, j :: 0 <= i < j < |items| ==> items[i].id != items[j].id
  }

  /** An item is highlighted when it is the current page (`currentPage === item.id`). */
  predicate IsHighlighted(currentPage: string, item: MenuItem) {
    currentPage == item.id
  }

  /** The highlighted items, in menu order. */
  function Highlighted(items: seq<MenuItem>, currentPage: string): (r: seq<MenuItem>)
    ensures forall k :: 0 <= k < |r| ==> r[k] in items && IsHighlighted(currentPage, r[k])
  {
    if items == [] then []
    else (if IsHighlighted(currentPage, items[0]) then [items[0]] else []) + Highlighted(items[1..], currentPage)
  }

  /**
   * With distinct ids, exactly one item is highlighted when the current page
   * is one of the items' ids, and none otherwise.
   */
  lemma {:induction false} HighlightedAtMostOne(items: seq<MenuItem>, currentPage: string)
    requires DistinctMenuIds(items)
    ensures |Highlighted(items, currentPage)| <= 1
    ensures |Highlighted(items, currentPage)| == 1 <==> exists k :: 0 <= k < |items| && items[k].id == currentPage
  {
    if items != [] {
      var tail := items[1..];
      assert DistinctMenuIds(tail) by {
        forall i, j | 0 <= i < j < |tail| ensures tail[i].id != tail[j].id {
          assert tail[i] == items[i + 1] && tail[j] == items[j + 1];
        }
      }
      HighlightedAtMostOne(tail, currentPage);
      if IsHighlighted(currentPage, items[0]) {
        forall k | 0 <= k < |tail| ensures tail[k].id != currentPage {
          assert tail[k] == items[k + 1];
        }
        assert |Highlighted(tail, currentPage)| == 0;
      } else {
        if exists k :: 0 <= k < |items| && items[k].id == currentPage {
          var k :| 0 <= k < |items| && items[k].id == currentPage;
          assert tail[k - 1] == items[k];
        }
        if exists k :: 0 <= k < |tail| && tail[k].id == currentPage {
          var k :| 0 <= k < |tail| && tail[k].id == currentPage;
          assert items[k + 1] == tail[k];
        }
      }
    }
  }

  /** The menu's ids are distinct, so at most one menu item is ever highlighted. */
  lemma MenuHighlighting(currentPage: string)
    ensures DistinctMenuIds(MenuItems)
    ensures |Highlighted(MenuItems, currentPage)| <= 1
    ensures |Highlighted(MenuItems, currentPage)| == 1 <==> currentPage in {"home", "map", "stats", "profile", "settings"}
  {
    assert DistinctMenuIds(MenuItems);
    HighlightedAtMostOne(MenuItems, currentPage);
    if currentPage in {"home", "map", "stats", "profile", "settings"} {
      assert exists k :: 0 <= k < |MenuItems| && MenuItems[k].id == currentPage by {
        if currentPage == "home" { assert MenuItems[0].id == currentPage; }
        else if currentPage == "map" { assert MenuItems[1].id == currentPage; }
        else if currentPage == "stats" { assert MenuItems[2].id == currentPage; }
        else if currentPage == "profile" { assert MenuItems[3].id == currentPage; }
        else { assert MenuItems[4].id == currentPage; }
      }
    }
  }

  /** The bottom bar shows `menuItems.slice(0, 4)`. */
  const BottomItems: seq<MenuItem> := MenuItems[..4]

  /** The bottom bar offers every page except settings. */
  lemma BottomBarItems()
    ensures |BottomItems| == 4
    ensures forall k :: 0 <= k < |BottomItems| ==> BottomItems[k].id != "settings"
    ensures forall k :: 0 <= k < |MenuItems| && MenuItems[k].id != "settings" ==> MenuItems[k] in BottomItems
  {
  }

  /** The bottom-bar label: `item.label.split(' ')[0]`. */
  function BottomLabel(item: MenuItem): (short: string)
    ensures short <= item.caption
    ensures ' ' !in short
  {
    var r := Text.FirstPart(item.caption, " ");
    assert forall i :: 0 <= i < |r| ==> r[i] != ' ' by {
      forall i | 0 <= i < |r| ensures r[i] != ' ' {
        assert !Text.OccursAt(item.caption, " ", i);
        assert item.caption[i..][..1] == [r[i]];
      }
    }
    r
  }

  /** A label without a space is shown whole. */
  lemma OneWordLabel(item: MenuItem)
    requires ' ' !in item.caption
    ensures BottomLabel(item) == item.caption
  {
    var s := item.caption;
    forall i | 0 <= i < |s| ensures !Text.OccursAt(s, " ", i) {
      Text.MismatchAt(s, " ", i, 0);
    }
    Text.FirstPartUnique(s, " ", s);
  }

  /** "Accueil", "Statistiques" and "Profil" are one word and are shown whole on the bottom bar. */
  lemma BottomLabelsWhole()
    ensures forall k :: 0 <= k < |BottomItems| && k != 1 ==> BottomLabel(BottomItems[k]) == BottomItems[k].caption
  {
    forall k | 0 <= k < |BottomItems| && k != 1 ensures BottomLabel(BottomItems[k]) == BottomItems[k].caption {
      OneWordLabel(BottomItems[k]);
    }
  }

  /** "Carte Parking" is shown as "Carte" on the bottom bar. */
  lemma BottomLabelCarte()
    ensures BottomLabel(BottomItems[1]) == "Carte"
  {
    var carte := BottomItems[1].caption;
    forall i | 0 <= i < 5 ensures !Text.OccursAt(carte, " ", i) {
      Text.MismatchAt(carte, " ", i, 0);
    }
    assert carte[5..][..1] == " ";
    Text.FirstPartUnique(carte, " ", "Carte");
  }

  /** Which parts of the bar are on screen. */
  datatype NavView = NavView(menuButton: bool, desktopItems: bool, mobileMenu: bool, bottomBar: bool)

  /**
   * The rendered bar: the brand is always there; the menu button, the desktop
   * page and logout buttons and the bottom bar only when authenticated; the
   * mobile menu only when it is open and the user is authenticated.
   */
  function Render(isAuthenticated: bool, isMenuOpen: bool): (v: NavView)
    ensures !isAuthenticated ==> v == NavView(false, false, false, false)
    ensures v.mobileMenu <==> isMenuOpen && isAuthenticated
    ensures v.bottomBar <==> isAuthenticated
  {
    NavView(isAuthenticated, isAuthenticated, isMenuOpen && isAuthenticated, isAuthenticated)
  }

  /** The bar's own state, `isMenuOpen`. */
  class NavigationState {
    var isMenuOpen: bool

    constructor ()
      ensures !isMenuOpen
    {
      isMenuOpen := false;
    }

    /** The menu button: pressing it twice restores the previous value. */
    method ToggleMenu()
      modifies this
      ensures isMenuOpen == !old(isMenuOpen)
    {
      isMenuOpen := !isMenuOpen;
    }

    /** handlePageChange: forwards the id to onPageChange unchanged and closes the menu. */
    method HandlePageChange(pageId: string) returns (forwarded: string)
      modifies this
      ensures forwarded == pageId
      ensures !isMenuOpen
    {
      forwarded := pageId;
      isMenuOpen := false;
    }
  }
}
