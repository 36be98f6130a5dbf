/**
 Rewriting of the UI options (pkg/strategy/controller.go, normalizeUI and its helpers), on
 JSON objects as trees. None stands for a panic of a failed type assertion.
 */
module UiOptions {
  import opened Text
  import opened Options

  type Kids = map<string, Node>

  const ARCHIVE := "archiveEnabled"
  const DEPENDENCIES := "dependencies"
  const MENU_ENABLED := "menuEnabled"
  const MENU := "menu"
  const LABEL := "label"
  const ITEMS := "items"
  const URL := "url"
  const SIGN_IN := "/oauth/sign_in"

  // --- The archive button and the dependencies tab -----------------------------------------

  function WithArchive(ui: Kids, wanted: bool): Kids {
    if ARCHIVE !in ui && wanted then ui[ARCHIVE := Scalar("true")] else ui
  }

  function WithTab(ui: Kids, hidden: bool): Kids {
    if !hidden || (DEPENDENCIES in ui && !ui[DEPENDENCIES].Tree?) then ui
    else
      var deps := if DEPENDENCIES in ui then ui[DEPENDENCIES].kids else map[];
      if MENU_ENABLED in deps then ui else ui[DEPENDENCIES := Tree(deps[MENU_ENABLED := Scalar("false")])]
  }

  // --- The documentation link --------------------------------------------------------------

  /** An entry the scan stops at, one that holds the link, and one it passes over. */
  datatype Scan = Stops | Holds | Passes

  function ScanItems(items: seq<Node>): Scan {
    if items == [] then Passes
    else if !items[0].Tree? then Stops
    else if LABEL in items[0].kids && items[0].kids[LABEL] == Str("Documentation") then Holds
    else ScanItems(items[1..])
  }

  function ScanEntry(n: Node): Scan {
    if !n.Tree? then Stops
    else if LABEL in n.kids && n.kids[LABEL] == Str("About") then
      if ITEMS in n.kids && n.kids[ITEMS].Items? then ScanItems(n.kids[ITEMS].vs) else Stops
    else Passes
  }

  /** The entry `i` holds the link and every entry before it is passed over. */
  predicate LinkAt(menu: seq<Node>, i: nat)
    requires i < |menu|
  {
    ScanEntry(menu[i]) == Holds && forall j :: 0 <= j < i ==> ScanEntry(menu[j]) == Passes
  }

  function DocMenu(url: string): Node {
    Tree(map[LABEL := Str("About"), ITEMS := Items([Tree(map[LABEL := Str("Documentation"), URL := Str(url)])])])
  }

  lemma DocMenuHolds(url: string)
    ensures ScanEntry(DocMenu(url)) == Holds
  {
    var items := [Tree(map[LABEL := Str("Documentation"), URL := Str(url)])];
    assert ScanItems(items) == Holds;
  }

  method HasDocumentationLink(menus: seq<Node>) returns (found: bool, menuIndex: nat)
    ensures found ==> menuIndex < |menus| && LinkAt(menus, menuIndex)
    ensures !found ==> menuIndex == 0 && forall i :: 0 <= i < |menus| ==> !LinkAt(menus, i)
  {
    for i := 0 to |menus|
      invariant forall j :: 0 <= j < i ==> ScanEntry(menus[j]) == Passes
    {
      if !menus[i].Tree? { return false, 0; }
      var converted := menus[i].kids;
      if LABEL in converted && converted[LABEL] == Str("About") {
        if ITEMS !in converted || !converted[ITEMS].Items? { return false, 0; }
        var items := converted[ITEMS].vs;
        for k := 0 to |items|
          invariant ScanItems(items) == ScanItems(items[k..])
        {
          assert items[k..][0] == items[k] && items[k..][1..] == items[k + 1..];
          if !items[k].Tree? { return false, 0; }
          if LABEL in items[k].kids && items[k].kids[LABEL] == Str("Documentation") { return true, i; }
        }
      }
    }
    return false, 0;
  }

  /** Where the link is, or nothing. */
  function FindLink(menu: seq<Node>): (r: Option<nat>)
    ensures r.Some? ==> r.value < |menu| && LinkAt(menu, r.value)
    ensures r.None? ==> forall i :: 0 <= i < |menu| ==> !LinkAt(menu, i)
  {
    if exists i :: 0 <= i < |menu| && LinkAt(menu, i) then
      var i :| 0 <= i < |menu| && LinkAt(menu, i);
      Some(i)
    else None
  }

  lemma LinkUnique(menu: seq<Node>, i: nat, j: nat)
    requires i < |menu| && j < |menu| && LinkAt(menu, i) && LinkAt(menu, j)
    ensures i == j
  {
  }

  function WithLink(ui: Kids, url: Option<string>): Option<Kids> {
    if url.None? then Some(ui)
    else if MENU !in ui then Some(ui[MENU := Items([DocMenu(url.value)])])
    else if !ui[MENU].Items? then None
    else
      var menu := ui[MENU].vs;
      var at := FindLink(menu);
      if at.None? then Some(ui) else Some(ui[MENU := Items(menu[at.value := DocMenu(url.value)])])
  }

  method EnableDocumentationLink(ui: Kids, url: Option<string>) returns (r: Option<Kids>)
    ensures r == WithLink(ui, url)
  {
    if url.None? { return Some(ui); }
    if MENU in ui {
      if !ui[MENU].Items? { return None; }
      var menu := ui[MENU].vs;
      var has, i := HasDocumentationLink(menu);
      if has {
        LinkUnique(menu, i, FindLink(menu).value);
        return Some(ui[MENU := Items(menu[i := DocMenu(url.value)])]);
      }
      return Some(ui);
    }
    r := Some(ui[MENU := Items([DocMenu(url.value)])]);
  }

  // --- The log-out entry -------------------------------------------------------------------

  /** "%v" of a menu entry's url; `shows` prints lists and objects. */
  function UrlText(shows: Node -> string, kids: Kids): string {
    if URL !in kids then "<nil>"
    else match kids[URL]
      case Null => "<nil>"
      case Str(s) => s
      case Scalar(t) => t
      case n => shows(n)
  }

  predicate Declines(shows: Node -> string, n: Node) { !n.Tree? || Contains(UrlText(shows, n.kids), SIGN_IN) }

  const LOG_OUT: Node := Tree(map[LABEL := Str("Log Out"), URL := Str(SIGN_IN), "anchorTarget" := Str("_self")])

  function MenuOf(ui: Kids): seq<Node>
    requires MENU in ui ==> ui[MENU].Items?
  {
    if MENU in ui then ui[MENU].vs else []
  }

  function WithLogOut(ui: Kids, wanted: bool, shows: Node -> string): Option<Kids> {
    if !wanted then Some(ui)
    else if MENU in ui && !ui[MENU].Items? then None
    else if exists n :: n in MenuOf(ui) && Declines(shows, n) then Some(ui)
    else Some(ui[MENU := Items(MenuOf(ui) + [LOG_OUT])])
  }

  method EnableLogOut(ui: Kids, wanted: bool, shows: Node -> string) returns (r: Option<Kids>)
    ensures r == WithLogOut(ui, wanted, shows)
  {
    if !wanted { return Some(ui); }
    var menu: seq<Node> := [];
    if MENU in ui {
      if !ui[MENU].Items? { return None; }
      menu := ui[MENU].vs;
    }
    for i := 0 to |menu|
      invariant forall j :: 0 <= j < i ==> !Declines(shows, menu[j])
    {
      assert menu[i] in MenuOf(ui);
      if !menu[i].Tree? { return Some(ui); }
      if Contains(UrlText(shows, menu[i].kids), SIGN_IN) { return Some(ui); }
    }
    r := Some(ui[MENU := Items(menu + [LOG_OUT])]);
  }

  lemma LogOutFacts(shows: Node -> string)
    ensures Declines(shows, LOG_OUT) && ScanEntry(LOG_OUT) == Passes
  {
    assert LOG_OUT.kids[URL] == Str(SIGN_IN);
    assert Contains(SIGN_IN, SIGN_IN);
    assert LOG_OUT.kids[LABEL] == Str("Log Out");
    assert "Log Out" != "About";
  }

  // --- All four ----------------------------------------------------------------------------

  /** What the rewriting depends on. */
  datatype Wishes = Wishes(archive: bool, hideTab: bool, docUrl: Option<string>, logOut: bool, shows: Node -> string)

  function Rewritten(w: Wishes, ui: Kids): Option<Kids> {
    var linked := WithLink(WithTab(WithArchive(ui, w.archive), w.hideTab), w.docUrl);
    if linked.None? then None else WithLogOut(linked.value, w.logOut, w.shows)
  }

  /** The last two steps touch only the menu. */
  lemma OnlyTheMenu(w: Wishes, ui: Kids)
    ensures var a := WithLink(ui, w.docUrl); a.Some? ==> a.value - {MENU} == ui - {MENU}
    ensures var b := WithLogOut(ui, w.logOut, w.shows); b.Some? ==> b.value - {MENU} == ui - {MENU}
  {
  }

  lemma ArchiveAndTabSettle(w: Wishes, ui: Kids, r: Kids)
    requires r - {MENU} == WithTab(WithArchive(ui, w.archive), w.hideTab) - {MENU}
    ensures WithArchive(r, w.archive) == r && WithTab(r, w.hideTab) == r
  {
    var b := WithTab(WithArchive(ui, w.archive), w.hideTab);
    assert ARCHIVE != MENU && DEPENDENCIES != MENU && ARCHIVE != DEPENDENCIES;
    SameElsewhere(b, r, ARCHIVE);
    SameElsewhere(b, r, DEPENDENCIES);
  }

  lemma SameElsewhere(a: Kids, b: Kids, k: string)
    requires a - {MENU} == b - {MENU} && k != MENU
    ensures (k in a <==> k in b) && (k in a ==> a[k] == b[k])
  {
    assert k in a - {MENU} <==> k in a;
    assert k in b - {MENU} <==> k in b;
    assert k in a ==> (a - {MENU})[k] == a[k];
    assert k in b ==> (b - {MENU})[k] == b[k];
  }

  /** The link is in place: there is a menu, and where it holds the link, it is the wanted one. */
  ghost predicate LinkInPlace(menu: seq<Node>, url: string) {
    forall i :: 0 <= i < |menu| && LinkAt(menu, i) ==> menu[i] == DocMenu(url)
  }

  lemma LinkPlaced(ui: Kids, url: string)
    requires WithLink(ui, Some(url)).Some?
    ensures var r := WithLink(ui, Some(url)).value; MENU in r && r[MENU].Items? && LinkInPlace(r[MENU].vs, url)
  {
    DocMenuHolds(url);
    var r := WithLink(ui, Some(url)).value;
    var menu := r[MENU].vs;
    if MENU in ui && FindLink(ui[MENU].vs).Some? {
      var at := FindLink(ui[MENU].vs).value;
      assert LinkAt(menu, at);
      forall i | 0 <= i < |menu| && LinkAt(menu, i) ensures menu[i] == DocMenu(url) { LinkUnique(menu, i, at); }
    }
  }

  lemma LinkStays(menu: seq<Node>, url: string, shows: Node -> string)
    requires LinkInPlace(menu, url)
    ensures LinkInPlace(menu + [LOG_OUT], url)
  {
    LogOutFacts(shows);
    var more := menu + [LOG_OUT];
    forall i | 0 <= i < |more| && LinkAt(more, i) ensures more[i] == DocMenu(url) {
      assert i < |menu|;
      assert forall j :: 0 <= j < i ==> menu[j] == more[j];
      assert LinkAt(menu, i);
    }
  }

  lemma LinkSettles(r: Kids, url: string)
    requires MENU in r && r[MENU].Items? && LinkInPlace(r[MENU].vs, url)
    ensures WithLink(r, Some(url)) == Some(r)
  {
    var menu := r[MENU].vs;
    var at := FindLink(menu);
    if at.Some? {
      assert menu[at.value := DocMenu(url)] == menu;
      assert r[MENU := Items(menu)] == r;
    }
  }

  lemma LogOutSettles(ui: Kids, wanted: bool, shows: Node -> string)
    requires WithLogOut(ui, wanted, shows).Some?
    ensures var r := WithLogOut(ui, wanted, shows).value; WithLogOut(r, wanted, shows) == Some(r)
  {
    var r := WithLogOut(ui, wanted, shows).value;
    LogOutFacts(shows);
    if r != ui { assert LOG_OUT in MenuOf(r); }
  }

  lemma LinkThroughLogOut(w: Wishes, linked: Kids)
    requires WithLogOut(linked, w.logOut, w.shows).Some?
    requires w.docUrl.Some? ==> MENU in linked && linked[MENU].Items? && LinkInPlace(linked[MENU].vs, w.docUrl.value)
    ensures var r := WithLogOut(linked, w.logOut, w.shows).value; WithLink(r, w.docUrl) == Some(r)
  {
    var r := WithLogOut(linked, w.logOut, w.shows).value;
    if w.docUrl.Some? {
      LinkStays(linked[MENU].vs, w.docUrl.value, w.shows);
      LinkSettles(r, w.docUrl.value);
    }
  }

  /** Rewriting the rewritten options changes nothing. */
  lemma RewrittenTwice(w: Wishes, ui: Kids)
    requires Rewritten(w, ui).Some?
    ensures var r := Rewritten(w, ui).value; Rewritten(w, r) == Some(r)
  {
    var b := WithTab(WithArchive(ui, w.archive), w.hideTab);
    var linked := WithLink(b, w.docUrl).value;
    var r := Rewritten(w, ui).value;
    OnlyTheMenu(w, b);
    OnlyTheMenu(w, linked);
    ArchiveAndTabSettle(w, ui, r);
    if w.docUrl.Some? { LinkPlaced(b, w.docUrl.value); }
    LinkThroughLogOut(w, linked);
    LogOutSettles(linked, w.logOut, w.shows);
  }

  method EnableArchiveButton(ui: Kids, storage: Opts) returns (r: Kids)
    ensures r == WithArchive(ui, ArchiveWanted(storage))
  {
    r := ui;
    if ARCHIVE !in ui {
      if EqualFold(Lookup(storage, "es-archive.enabled"), "true")
          || EqualFold(Lookup(storage, "cassandra-archive.enabled"), "true") {
        r := r[ARCHIVE := Scalar("true")];
      }
    }
  }

  predicate ArchiveWanted(storage: Opts) {
    EqualFold(Lookup(storage, "es-archive.enabled"), "true")
        || EqualFold(Lookup(storage, "cassandra-archive.enabled"), "true")
  }

  method DisableDependenciesTab(ui: Kids, hidden: bool) returns (r: Kids)
    ensures r == WithTab(ui, hidden)
  {
    r := ui;
    if !hidden { return; }
    var deps: Kids := map[];
    if DEPENDENCIES in ui {
      if !ui[DEPENDENCIES].Tree? { return; }
      deps := ui[DEPENDENCIES].kids;
    }
    if MENU_ENABLED !in deps {
      deps := deps[MENU_ENABLED := Scalar("false")];
      r := r[DEPENDENCIES := Tree(deps)];
    }
  }

  /** The document as a whole: an empty or malformed one starts from nothing, null cannot be written to. */
  function RewrittenDocument(w: Wishes, doc: Node): Option<Node> {
    var r := Rewritten(w, if doc.Tree? then doc.kids else map[]);
    if r.None? || (doc.Null? && r.value != map[]) then None
    else Some(if r.value == map[] then doc else Tree(r.value))
  }

  lemma DocumentTwice(w: Wishes, doc: Node)
    requires RewrittenDocument(w, doc).Some?
    ensures var r := RewrittenDocument(w, doc).value; RewrittenDocument(w, r) == Some(r)
  {
    RewrittenTwice(w, if doc.Tree? then doc.kids else map[]);
  }

  /** Options at rest have nothing to add to the archive button or the dependencies tab. */
  lemma RestBeforeMenu(w: Wishes, ui: Kids)
    requires Rewritten(w, ui) == Some(ui)
    ensures WithArchive(ui, w.archive) == ui && WithTab(ui, w.hideTab) == ui
  {
    var b := WithTab(WithArchive(ui, w.archive), w.hideTab);
    OnlyTheMenu(w, b);
    OnlyTheMenu(w, WithLink(b, w.docUrl).value);
    ArchiveAndTabSettle(w, ui, ui);
  }

  /** They stay at rest when the dependencies tab need not be hidden any more. */
  lemma DocumentWithoutHiding(w: Wishes, doc: Node)
    requires RewrittenDocument(w, doc) == Some(doc)
    ensures RewrittenDocument(w.(hideTab := false), doc) == Some(doc)
  {
    var ui := if doc.Tree? then doc.kids else map[];
    var r := Rewritten(w, ui);
    if r.value == map[] && ui != map[] { OnlyGrows(w, ui); }
    assert r == Some(ui);
    RestBeforeMenu(w, ui);
  }

  lemma OnlyGrows(w: Wishes, ui: Kids)
    requires Rewritten(w, ui).Some?
    ensures ui.Keys <= Rewritten(w, ui).value.Keys
  {
  }

  method Rewrite(w: Wishes, storage: Opts, kids: Kids) returns (r: Option<Kids>)
    requires w.archive == ArchiveWanted(storage)
    ensures r == Rewritten(w, kids)
  {
    var ui := EnableArchiveButton(kids, storage);
    ui := DisableDependenciesTab(ui, w.hideTab);
    r := EnableDocumentationLink(ui, w.docUrl);
    if r.Some? { r := EnableLogOut(r.value, w.logOut, w.shows); }
  }

  method NormalizeUI(w: Wishes, storage: Opts, doc: Node) returns (r: Option<Node>)
    requires w.archive == ArchiveWanted(storage)
    ensures r == RewrittenDocument(w, doc)
  {
    var ui: Kids := map[];
    if doc.Tree? { ui := doc.kids; }
    var done := Rewrite(w, storage, ui);
    if done.None? || (doc.Null? && done.value != map[]) { return None; }
    r := Some(if |done.value| > 0 then Tree(done.value) else doc);
  }
}
