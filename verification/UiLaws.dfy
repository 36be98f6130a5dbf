/** What the rewriting of the UI options writes (pkg/strategy/controller.go, normalizeUI), key by key. */
module UiLaws {
  import opened Text
  import opened Options
  import opened UiOptions

  /** The entry is the same in both, or absent in both. */
  ghost predicate SameEntry(ui: Kids, r: Kids, k: string) { (k in r <==> k in ui) && (k in r ==> r[k] == ui[k]) }

  /** A setting of the user's stays; without one the button is enabled where an archive storage is. */
  ghost predicate ArchiveFits(wanted: bool, ui: Kids, r: Kids) {
    if "archiveEnabled" !in ui && wanted then "archiveEnabled" in r && r["archiveEnabled"] == Scalar("true")
    else SameEntry(ui, r, "archiveEnabled")
  }

  /** The tab is hidden unless the user decided, or wrote something else than an object. */
  ghost predicate TabFits(hidden: bool, ui: Kids, r: Kids) {
    if hidden && "dependencies" !in ui then
      "dependencies" in r && r["dependencies"] == Tree(map["menuEnabled" := Scalar("false")])
    else if hidden && ui["dependencies"].Tree? && "menuEnabled" !in ui["dependencies"].kids then
      "dependencies" in r && r["dependencies"] == Tree(ui["dependencies"].kids["menuEnabled" := Scalar("false")])
    else SameEntry(ui, r, "dependencies")
  }

  ghost predicate Labelled(n: Node, text: string) { n.Tree? && "label" in n.kids && n.kids["label"] == Str(text) }

  /** A menu entry "About" with the documentation among its items, behind nothing but objects. */
  ghost predicate HasLink(n: Node) {
    && Labelled(n, "About") && "items" in n.kids && n.kids["items"].Items?
    && exists k :: LinkItem(n.kids["items"].vs, k)
  }

  ghost predicate LinkItem(vs: seq<Node>, k: int) {
    0 <= k < |vs| && Labelled(vs[k], "Documentation") && forall j :: 0 <= j < k ==> vs[j].Tree?
  }

  /** An object that is no "About", or one whose items are all objects without the documentation. */
  ghost predicate Skipped(n: Node) {
    && n.Tree?
    && (Labelled(n, "About") ==> "items" in n.kids && n.kids["items"].Items? && NoLink(n.kids["items"].vs))
  }

  ghost predicate NoLink(vs: seq<Node>) {
    forall j :: 0 <= j < |vs| ==> vs[j].Tree? && !Labelled(vs[j], "Documentation")
  }

  ghost predicate LinkAtEntry(menu: seq<Node>, i: int) {
    0 <= i < |menu| && HasLink(menu[i]) && forall j :: 0 <= j < i ==> Skipped(menu[j])
  }

  function AboutEntry(url: string): Node {
    Tree(map["label" := Str("About"),
             "items" := Items([Tree(map["label" := Str("Documentation"), "url" := Str(url)])])])
  }

  /** With a URL, the entry that holds the link is replaced; a user's menu without one stays. */
  ghost predicate LinkFits(url: Option<string>, given: Option<seq<Node>>, r: Option<seq<Node>>) {
    if url.None? then r == given
    else if given.None? then r == Some([AboutEntry(url.value)])
    else
      && ((forall i :: !LinkAtEntry(given.value, i)) ==> r == given)
      && forall i: nat :: LinkAtEntry(given.value, i) ==> r == Some(given.value[i := AboutEntry(url.value)])
  }

  /** The text occurs in `s`. */
  ghost predicate Mentions(s: string, text: string) { exists i: nat :: OccursAt(s, text, i) }

  predicate OccursAt(s: string, text: string, i: nat) { i <= |s| && text <= s[i..] }

  /** How a menu entry's URL prints; `shows` prints lists and objects. */
  ghost predicate UrlPrints(shows: Node -> string, n: Node, s: string) {
    match n
    case Null => s == "<nil>"
    case Str(t) => s == t
    case Scalar(t) => s == t
    case _ => s == shows(n)
  }

  /** The URL of the entry mentions the sign-in page; an entry that is no object ends the search too. */
  ghost predicate SignsIn(shows: Node -> string, n: Node) {
    || !n.Tree?
    || ("url" in n.kids && exists s :: UrlPrints(shows, n.kids["url"], s) && Mentions(s, "/oauth/sign_in"))
  }

  /** The entry is appended where it is wanted and none declines it. */
  ghost predicate LogOutFits(wanted: bool, shows: Node -> string, given: Option<seq<Node>>, r: Option<seq<Node>>) {
    var menu := if given.Some? then given.value else [];
    if wanted && (forall n :: n in menu ==> !SignsIn(shows, n)) then
      r == Some(menu + [Tree(map["label" := Str("Log Out"), "url" := Str("/oauth/sign_in"),
          "anchorTarget" := Str("_self")])])
    else r == given
  }

  function MenuIn(ui: Kids): Option<seq<Node>>
    requires "menu" in ui ==> ui["menu"].Items?
  {
    if "menu" in ui then Some(ui["menu"].vs) else None
  }

  /** The menu is what the link and the log-out entry make of it. */
  ghost predicate MenuFits(w: Wishes, ui: Kids, r: Kids) {
    if w.docUrl.None? && !w.logOut then SameEntry(ui, r, "menu")
    else
      && ("menu" in ui ==> ui["menu"].Items?) && ("menu" in r ==> r["menu"].Items?)
      && exists m :: LinkFits(w.docUrl, MenuIn(ui), m) && LogOutFits(w.logOut, w.shows, m, MenuIn(r))
  }

  /** The rewritten object, key by key. */
  ghost predicate RewrittenFits(w: Wishes, ui: Kids, r: Kids) {
    && ArchiveFits(w.archive, ui, r) && TabFits(w.hideTab, ui, r) && MenuFits(w, ui, r)
    && forall k :: k !in {"archiveEnabled", "dependencies", "menu"} ==> SameEntry(ui, r, k)
  }

  // --- Proofs ------------------------------------------------------------------------------

  lemma {:induction false} ContainsIff(s: string, text: string)
    ensures Contains(s, text) <==> Mentions(s, text)
  {
    assert s[0..] == s;
    assert text <= s <==> OccursAt(s, text, 0);
    if s != "" {
      ContainsIff(s[1..], text);
      if i: nat :| OccursAt(s[1..], text, i) {
        assert s[1..][i..] == s[i + 1..];
        assert OccursAt(s, text, i + 1);
      }
      if i: nat :| OccursAt(s, text, i) {
        if i > 0 {
          assert s[1..][i - 1..] == s[i..];
          assert OccursAt(s[1..], text, i - 1);
        }
      }
    } else if i: nat :| OccursAt(s, text, i) {
      assert i == 0;
    }
  }

  lemma NilIsNoPage()
    ensures !Mentions("<nil>", "/oauth/sign_in")
  {
    assert |"<nil>"| == 5 && |"/oauth/sign_in"| == 14;
  }

  lemma DeclinesIff(shows: Node -> string, n: Node)
    ensures Declines(shows, n) <==> SignsIn(shows, n)
  {
    if n.Tree? {
      var s := UrlText(shows, n.kids);
      ContainsIff(s, SIGN_IN);
      NilIsNoPage();
      if "url" in n.kids { assert UrlPrints(shows, n.kids["url"], s); }
    }
  }

  lemma {:induction false} ScanItemsIs(vs: seq<Node>)
    ensures ScanItems(vs) == Holds <==> exists k :: LinkItem(vs, k)
    ensures ScanItems(vs) == Passes <==> NoLink(vs)
  {
    if vs != [] {
      ScanItemsIs(vs[1..]);
      assert forall j :: 0 < j < |vs| ==> vs[j] == vs[1..][j - 1];
      if Labelled(vs[0], "Documentation") {
        assert LinkItem(vs, 0);
      } else if vs[0].Tree? {
        LinkItemBehind(vs);
        assert NoLink(vs) <==> NoLink(vs[1..]);
      }
    }
  }

  lemma LinkItemBehind(vs: seq<Node>)
    requires vs != [] && vs[0].Tree? && !Labelled(vs[0], "Documentation")
    ensures (exists k :: LinkItem(vs, k)) <==> exists k :: LinkItem(vs[1..], k)
  {
    assert forall j :: 0 < j < |vs| ==> vs[j] == vs[1..][j - 1];
    if k :| LinkItem(vs, k) { assert LinkItem(vs[1..], k - 1); }
    if k :| LinkItem(vs[1..], k) { assert LinkItem(vs, k + 1); }
  }

  lemma ScanEntryIs(n: Node)
    ensures ScanEntry(n) == Holds <==> HasLink(n)
    ensures ScanEntry(n) == Passes <==> Skipped(n)
  {
    if n.Tree? && "items" in n.kids && n.kids["items"].Items? { ScanItemsIs(n.kids["items"].vs); }
  }

  lemma LinkAtIs(menu: seq<Node>, i: nat)
    requires i < |menu|
    ensures LinkAt(menu, i) <==> LinkAtEntry(menu, i)
  {
    forall j | 0 <= j < |menu| ensures ScanEntry(menu[j]) == Passes <==> Skipped(menu[j]) { ScanEntryIs(menu[j]); }
    ScanEntryIs(menu[i]);
  }

  lemma LinkFitsMenu(ui: Kids, url: Option<string>)
    requires url.None? || ("menu" in ui ==> ui["menu"].Items?)
    ensures var r := WithLink(ui, url);
            && r.Some? && (url.None? ==> r.value == ui)
            && (url.Some? ==>
                ("menu" in r.value && r.value["menu"].Items? && LinkFits(url, MenuIn(ui), MenuIn(r.value))))
  {
    if url.Some? && "menu" in ui {
      var menu := ui["menu"].vs;
      forall i: nat | i < |menu| ensures LinkAt(menu, i) <==> LinkAtEntry(menu, i) { LinkAtIs(menu, i); }
      var at := FindLink(menu);
      if at.Some? {
        forall i: nat | LinkAtEntry(menu, i) ensures i == at.value { LinkUnique(menu, i, at.value); }
      }
    }
  }

  lemma LogOutFitsMenu(ui: Kids, wanted: bool, shows: Node -> string)
    requires !wanted || ("menu" in ui ==> ui["menu"].Items?)
    ensures var r := WithLogOut(ui, wanted, shows);
            && r.Some? && (!wanted ==> r.value == ui)
            && (wanted ==>
                  && ("menu" in r.value ==> r.value["menu"].Items?)
                  && LogOutFits(wanted, shows, MenuIn(ui), MenuIn(r.value)))
  {
    forall n ensures Declines(shows, n) <==> SignsIn(shows, n) { DeclinesIff(shows, n); }
  }

  /** All four rewritings. They fail exactly where the menu is no list and somebody has to look into it. */
  lemma RewrittenSays(w: Wishes, ui: Kids)
    ensures Rewritten(w, ui).None? <==> (w.docUrl.Some? || w.logOut) && "menu" in ui && !ui["menu"].Items?
    ensures Rewritten(w, ui).Some? ==> RewrittenFits(w, ui, Rewritten(w, ui).value)
  {
    var a := WithArchive(ui, w.archive);
    var b := WithTab(a, w.hideTab);
    NamesDiffer();
    assert SameEntry(ui, b, "menu");
    MenuSays(w, b);
    BeforeMenu(w, ui, b);
    if Rewritten(w, ui).Some? { Together(w, ui, b, Rewritten(w, ui).value); }
  }

  lemma NamesDiffer()
    ensures ARCHIVE != MENU && DEPENDENCIES != MENU && ARCHIVE != DEPENDENCIES
  {
    assert |ARCHIVE| == 14 && |DEPENDENCIES| == 12 && |MENU| == 4;
  }

  lemma BeforeMenu(w: Wishes, ui: Kids, b: Kids)
    requires b == WithTab(WithArchive(ui, w.archive), w.hideTab)
    ensures ArchiveFits(w.archive, ui, b) && TabFits(w.hideTab, ui, b)
    ensures forall k :: k !in {"archiveEnabled", "dependencies"} ==> SameEntry(ui, b, k)
  {
    NamesDiffer();
  }

  /** The two steps on the menu. */
  lemma MenuSays(w: Wishes, b: Kids)
    ensures var linked := WithLink(b, w.docUrl);
            var r := if linked.None? then None else WithLogOut(linked.value, w.logOut, w.shows);
            && (r.None? <==> (w.docUrl.Some? || w.logOut) && "menu" in b && !b["menu"].Items?)
            && (r.Some? ==> MenuFits(w, b, r.value) && r.value - {"menu"} == b - {"menu"})
  {
    if "menu" in b ==> b["menu"].Items? {
      LinkFitsMenu(b, w.docUrl);
      var l := WithLink(b, w.docUrl).value;
      LogOutFitsMenu(l, w.logOut, w.shows);
      OnlyTheMenu(w, b);
      OnlyTheMenu(w, l);
      var r := WithLogOut(l, w.logOut, w.shows).value;
      if w.docUrl.Some? || w.logOut {
        if w.docUrl.None? { assert LinkFits(w.docUrl, MenuIn(b), MenuIn(l)); }
        if !w.logOut { assert LogOutFits(w.logOut, w.shows, MenuIn(l), MenuIn(r)); }
      }
    }
  }

  lemma Together(w: Wishes, ui: Kids, b: Kids, r: Kids)
    requires ArchiveFits(w.archive, ui, b) && TabFits(w.hideTab, ui, b)
    requires forall k :: k !in {"archiveEnabled", "dependencies"} ==> SameEntry(ui, b, k)
    requires MenuFits(w, b, r) && r - {"menu"} == b - {"menu"}
    ensures RewrittenFits(w, ui, r)
  {
    NamesDiffer();
    assert SameEntry(ui, b, "menu");
    SameElsewhere(b, r, ARCHIVE);
    SameElsewhere(b, r, DEPENDENCIES);
    MenuFrom(w, ui, b, r);
    forall k | k !in {"archiveEnabled", "dependencies", "menu"} ensures SameEntry(ui, r, k) {
      SameElsewhere(b, r, k);
      assert SameEntry(ui, b, k);
    }
  }

  lemma MenuFrom(w: Wishes, ui: Kids, b: Kids, r: Kids)
    requires SameEntry(ui, b, "menu") && MenuFits(w, b, r)
    ensures MenuFits(w, ui, r)
  {
    if w.docUrl.Some? || w.logOut {
      var m :| LinkFits(w.docUrl, MenuIn(b), m) && LogOutFits(w.logOut, w.shows, m, MenuIn(r));
      assert MenuIn(ui) == MenuIn(b);
    }
  }

  /** The rewritten document: an object, or the document as it was when there is nothing to write. */
  ghost predicate DocumentFits(w: Wishes, doc: Node, r: Node) {
    if doc.Tree? then r.Tree? && RewrittenFits(w, doc.kids, r.kids)
    else if r == doc then RewrittenFits(w, map[], map[])
    else r.Tree? && RewrittenFits(w, map[], r.kids)
  }

  /** The rewriting panics: the menu is no list, or the document is null, and there is something to write. */
  ghost predicate DocumentFails(w: Wishes, doc: Node) {
    || (doc.Tree? && (w.docUrl.Some? || w.logOut) && "menu" in doc.kids && !doc.kids["menu"].Items?)
    || (doc.Null? && (w.archive || w.hideTab || w.docUrl.Some? || w.logOut))
  }

  lemma DocumentSays(w: Wishes, doc: Node)
    ensures var r := RewrittenDocument(w, doc);
            (r.None? <==> DocumentFails(w, doc)) && (r.Some? ==> DocumentFits(w, doc, r.value))
  {
    var ui: Kids := if doc.Tree? then doc.kids else map[];
    RewrittenSays(w, ui);
    if ui == map[] { FromNothing(w); }
    if doc.Tree? && Rewritten(w, ui).Some? { OnlyGrows(w, ui); }
  }

  lemma FromNothing(w: Wishes)
    ensures Rewritten(w, map[]).Some?
    ensures Rewritten(w, map[]).value != map[] <==> w.archive || w.hideTab || w.docUrl.Some? || w.logOut
  {
    RewrittenSays(w, map[]);
  }
}
