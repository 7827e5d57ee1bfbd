/** The menu page of js/script.js: category ids, the rendered sections and
    navigation links, the item details panel, the AR viewer, and the page's own
    copy of the AI prompt builder. */
module MenuPage {
  import opened Text
  import opened Menu
  import AiAssistant

  // ---------------------------------------------------------------------------
  // Category ids: `category.replace(/\s+/g, '-').replace(/[()]/g, '')`

  /** `s.replace(/\s+/g, '-')`: every maximal run of whitespace becomes one hyphen. */
  function CollapseWhitespace(s: string): (r: string)
    ensures NoWhitespace(r)
    ensures |r| <= |s|
    ensures NoWhitespace(s) ==> r == s
    decreases |s|
  {
    if s == [] then []
    else if IsWhitespace(s[0]) then
      TrimStartShape(s);
      "-" + CollapseWhitespace(TrimStart(s))
    else
      [s[0]] + CollapseWhitespace(s[1..])
  }

  /** Dropping a whitespace run in front of text that starts with something else. */
  lemma {:induction false} TrimStartRun(w: string, v: string)
    requires AllWhitespace(w)
    requires v == [] || !IsWhitespace(v[0])
    ensures TrimStart(w + v) == v
    decreases |w|
  {
    if w != [] {
      assert (w + v)[0] == w[0];
      assert (w + v)[1..] == w[1..] + v;
      TrimStartRun(w[1..], v);
    } else {
      assert w + v == v;
    }
  }

  /** Whitespace-free text in front is kept as it is. */
  lemma {:induction false} CollapseKeepsPrefix(u: string, t: string)
    requires NoWhitespace(u)
    ensures CollapseWhitespace(u + t) == u + CollapseWhitespace(t)
    decreases |u|
  {
    if u == [] {
      assert u + t == t;
    } else {
      var s := u + t;
      assert s[0] == u[0] && s[1..] == u[1..] + t;
      CollapseKeepsPrefix(u[1..], t);
    }
  }

  /** Whitespace-free text is kept, and the whitespace run after it becomes
      exactly one hyphen, whatever its length. */
  lemma CollapseRun(u: string, w: string, v: string)
    requires NoWhitespace(u)
    requires w != [] && AllWhitespace(w)
    requires v == [] || !IsWhitespace(v[0])
    ensures CollapseWhitespace(u + w + v) == u + "-" + CollapseWhitespace(v)
  {
    assert u + w + v == u + (w + v);
    CollapseKeepsPrefix(u, w + v);
    assert (w + v)[0] == w[0];
    TrimStartRun(w, v);
  }

  predicate IsParen(c: char) {
    c == '(' || c == ')'
  }

  predicate NoParens(s: string) {
    forall i :: 0 <= i < |s| ==> !IsParen(s[i])
  }

  /** `s.replace(/[()]/g, '')`: every parenthesis is deleted and every other
      character is kept. */
  function DeleteParens(s: string): (r: string)
    ensures NoParens(r)
    ensures |r| <= |s|
    ensures NoParens(s) ==> r == s
    ensures NoWhitespace(s) ==> NoWhitespace(r)
  {
    if s == [] then []
    else if IsParen(s[0]) then DeleteParens(s[1..])
    else [s[0]] + DeleteParens(s[1..])
  }

  /** A character is in the result exactly when it is in the input and is not
      a parenthesis. */
  lemma {:induction false} DeleteParensKeeps(s: string, c: char)
    ensures c in DeleteParens(s) <==> c in s && !IsParen(c)
    decreases |s|
  {
    if s != [] {
      DeleteParensKeeps(s[1..], c);
      assert s == [s[0]] + s[1..];
    }
  }

  /** Deleting parentheses works piece by piece, so the kept characters stay in order. */
  lemma {:induction false} DeleteParensConcat(a: string, b: string)
    ensures DeleteParens(a + b) == DeleteParens(a) + DeleteParens(b)
    decreases |a|
  {
    if a == [] {
      assert a + b == b;
    } else {
      assert (a + b)[0] == a[0];
      assert (a + b)[1..] == a[1..] + b;
      DeleteParensConcat(a[1..], b);
    }
  }

  /** The section id of a category: no whitespace and no parentheses. */
  function CategoryId(category: string): (id: string)
    ensures NoWhitespace(id) && NoParens(id)
    ensures |id| <= |category|
  {
    DeleteParens(CollapseWhitespace(category))
  }

  /** A category id is its own id: making an id twice is making it once. */
  lemma CategoryIdIdempotent(category: string)
    ensures CategoryId(CategoryId(category)) == CategoryId(category)
  {
  }

  // ---------------------------------------------------------------------------
  // The nutrition text of the details panel

  /** One `(key, value)` entry as the details panel writes it into the
      nutrition text. */
  function NutritionFragment(entry: (string, string)): string {
    "<strong>" + Capitalize(entry.0) + ":</strong> " + entry.1 + " "
  }

  /** The fragments of all entries, in entry order, before trimming. */
  function NutritionFragments(entries: seq<(string, string)>): string {
    if entries == [] then ""
    else NutritionFragments(entries[..|entries| - 1]) + NutritionFragment(entries[|entries| - 1])
  }

  /** The text the details panel shows for an item's nutritional values. */
  function NutritionText(entries: seq<(string, string)>): string {
    Trim(NutritionFragments(entries))
  }

  /** No nutritional values show as the empty text, and the text never starts
      or ends with whitespace. */
  lemma NutritionTextEnds(entries: seq<(string, string)>)
    ensures entries == [] ==> NutritionText(entries) == ""
    ensures var r := NutritionText(entries);
            r == [] || (!IsWhitespace(r[0]) && !IsWhitespace(r[|r| - 1]))
  {
    TrimShape(NutritionFragments(entries));
  }

  /** The fragments start with the first entry's fragment. */
  lemma {:induction false} FragmentsStartWithFirst(entries: seq<(string, string)>)
    requires entries != []
    ensures NutritionFragment(entries[0]) <= NutritionFragments(entries)
    decreases |entries|
  {
    if |entries| > 1 {
      var init := entries[..|entries| - 1];
      FragmentsStartWithFirst(init);
      assert init[0] == entries[0];
    }
  }

  /** The capitalized key in `<strong>` tags, with its colon, that opens an
      entry's fragment. The panel assigns the text to `textContent`, so the
      tags are shown as characters. */
  function KeyHeading(key: string): string {
    "<strong>" + Capitalize(key) + ":</strong>"
  }

  lemma KeyHeadingEnds(key: string)
    ensures var h := KeyHeading(key); h != [] && h[0] == '<' && h[|h| - 1] == '>'
  {
  }

  lemma FragmentStartsWithKey(entry: (string, string))
    ensures KeyHeading(entry.0) <= NutritionFragment(entry)
  {
  }

  /** A non-empty nutrition map shows text that starts with the first key,
      capitalized and wrapped in `<strong>` tags (shown as text), followed by a
      colon, and that is the fragments with trailing whitespace removed. */
  lemma NutritionTextShape(entries: seq<(string, string)>)
    requires entries != []
    ensures NutritionText(entries) == TrimEnd(NutritionFragments(entries))
    ensures KeyHeading(entries[0].0) <= NutritionText(entries)
  {
    var all := NutritionFragments(entries);
    var head := KeyHeading(entries[0].0);
    FragmentsStartWithFirst(entries);
    FragmentStartsWithKey(entries[0]);
    KeyHeadingEnds(entries[0].0);
    assert head <= all;
    assert all[0] == '<';
    TrimShape(all);
    TrimEndKeepsPrefix(head, all);
  }

  /** When the last value ends in a non-whitespace character, trimming removes
      exactly the one space after it. */
  lemma NutritionTextDropsLastSpace(entries: seq<(string, string)>)
    requires entries != []
    requires var v := entries[|entries| - 1].1; v != [] && !IsWhitespace(v[|v| - 1])
    ensures NutritionText(entries) + " " == NutritionFragments(entries)
  {
    var last := entries[|entries| - 1];
    var v := last.1;
    var body := NutritionFragments(entries[..|entries| - 1]) + (KeyHeading(last.0) + " " + v);
    assert NutritionFragment(last) == (KeyHeading(last.0) + " " + v) + " ";
    assert NutritionFragments(entries) == body + " ";
    assert body[|body| - 1] == v[|v| - 1];
    NutritionTextShape(entries);
    TrimEndDropsSpace(body);
  }

  // ---------------------------------------------------------------------------
  // The rendered menu

  /** A menu card: the picture, the name, the price with its dollar sign, and
      the item its click opens. */
  datatype Card = Card(imageSrc: string, imageAlt: string, title: string, priceText: string, opens: MenuItem)

  /** A category section: its id, its heading and its grid of cards. */
  datatype Section = Section(id: string, title: string, grid: seq<Card>)

  /** A link of the floating navigation list. */
  datatype NavLink = NavLink(href: string, text: string)

  function CardFor(item: MenuItem): Card {
    Card(item.imageUrl, item.name, item.name, "$" + item.price, item)
  }

  function SectionFor(category: Category): Section {
    Section(CategoryId(category.name), category.name, seq(|category.items|, j requires 0 <= j < |category.items| => CardFor(category.items[j])))
  }

  function NavLinkFor(category: Category): NavLink {
    NavLink("#" + CategoryId(category.name), category.name)
  }

  /** The sections a render produces: one per category, in catalog order. */
  function RenderedSections(data: Catalog): (r: seq<Section>)
    ensures |r| == |data|
  {
    seq(|data|, i requires 0 <= i < |data| => SectionFor(data[i]))
  }

  /** The navigation links a render produces: one per category, in catalog order. */
  function RenderedNavLinks(data: Catalog): (r: seq<NavLink>)
    ensures |r| == |data|
  {
    seq(|data|, i requires 0 <= i < |data| => NavLinkFor(data[i]))
  }

  /** What a render shows: every link targets the section at the same position,
      every section is headed by its category's name, and its grid shows that
      category's items, one card each, in their order, with the price after a
      dollar sign. */
  lemma RenderedShape(data: Catalog)
    ensures forall i :: 0 <= i < |data| ==>
              RenderedNavLinks(data)[i].href == "#" + RenderedSections(data)[i].id
              && RenderedNavLinks(data)[i].text == RenderedSections(data)[i].title == data[i].name
    ensures forall i :: 0 <= i < |data| ==>
              |RenderedSections(data)[i].grid| == |data[i].items|
              && forall j :: 0 <= j < |data[i].items| ==>
                   RenderedSections(data)[i].grid[j].opens == data[i].items[j]
                   && RenderedSections(data)[i].grid[j].priceText == "$" + data[i].items[j].price
  {
  }

  /** Rendering a catalog made of two parts renders each part, one after the other. */
  lemma RenderConcat(a: Catalog, b: Catalog)
    ensures RenderedSections(a + b) == RenderedSections(a) + RenderedSections(b)
    ensures RenderedNavLinks(a + b) == RenderedNavLinks(a) + RenderedNavLinks(b)
  {
  }

  /** The `forEach` over a category's items: one card per item, in order. */
  method BuildGrid(items: seq<MenuItem>) returns (grid: seq<Card>)
    ensures |grid| == |items|
    ensures forall j :: 0 <= j < |items| ==> grid[j] == CardFor(items[j])
  {
    grid := [];
    for j := 0 to |items|
      invariant |grid| == j
      invariant forall k :: 0 <= k < j ==> grid[k] == CardFor(items[k])
    {
      grid := grid + [CardFor(items[j])];
    }
  }

  /** The `for…in` loop of `renderMenu` over emptied containers: each
      category adds its section, holding its grid, and its navigation link. */
  method RenderCatalog(data: Catalog) returns (sections: seq<Section>, navLinks: seq<NavLink>)
    ensures sections == RenderedSections(data) && navLinks == RenderedNavLinks(data)
  {
    sections := [];
    navLinks := [];
    for i := 0 to |data|
      invariant sections == RenderedSections(data[..i])
      invariant navLinks == RenderedNavLinks(data[..i])
    {
      var category := data[i];
      var grid := BuildGrid(category.items);
      assert grid == SectionFor(category).grid;
      RenderConcat(data[..i], [category]);
      assert data[..i + 1] == data[..i] + [category];
      sections := sections + [Section(CategoryId(category.name), category.name, grid)];
      navLinks := navLinks + [NavLink("#" + CategoryId(category.name), category.name)];
    }
    assert data[..|data|] == data;
  }

  /** What the item details panel shows: the picture, the name, the
      description, the price with its dollar sign, the ingredients list and the
      nutrition text. */
  datatype DetailsPanel = DetailsPanel(
    imageSrc: string,
    name: string,
    description: string,
    price: string,
    ingredients: seq<string>,
    nutrition: string)

  /** The panel `showDetailsModal` fills for an item. */
  function DetailsFor(item: MenuItem): DetailsPanel {
    DetailsPanel(item.imageUrl, item.name, item.description, "$" + item.price, item.ingredients,
                 NutritionText(item.nutrition))
  }

  /** The `forEach` that lists the ingredients, one entry each. */
  method ListIngredients(ingredients: seq<string>) returns (list: seq<string>)
    ensures list == ingredients
  {
    list := [];
    for k := 0 to |ingredients|
      invariant list == ingredients[..k]
    {
      list := list + [ingredients[k]];
    }
    assert ingredients[..|ingredients|] == ingredients;
  }

  /** The `for…of` loop over `Object.entries(item.nutritional_value)` that
      appends one fragment per entry, before the final `trim()`. */
  method AccumulateNutrition(entries: seq<(string, string)>) returns (text: string)
    ensures text == NutritionFragments(entries)
  {
    text := "";
    for i := 0 to |entries|
      invariant text == NutritionFragments(entries[..i])
    {
      assert entries[..i + 1][..i] == entries[..i];
      text := text + NutritionFragment(entries[i]);
    }
    assert entries[..|entries|] == entries;
  }

  /** The panel-filling part of `showDetailsModal`. */
  method FillDetailsPanel(item: MenuItem) returns (panel: DetailsPanel)
    ensures panel == DetailsFor(item)
  {
    var ingredients := ListIngredients(item.ingredients);
    var nutrition := AccumulateNutrition(item.nutrition);
    panel := DetailsPanel(item.imageUrl, item.name, item.description, "$" + item.price, ingredients,
                          Trim(nutrition));
  }

  /** A click on the page: on one of the modal backdrops or anywhere else. */
  datatype ClickTarget = DetailsBackdrop | ArBackdrop | AiBackdrop | Elsewhere

  // ---------------------------------------------------------------------------
  // The AR button as `showDetailsModal` handles it

  /** The parts of the page the AR-button handling of `showDetailsModal`
      touches: whether the details modal is shown, whether the AR button in the
      page is shown, whether that button is still the one `detailsArBtn` was
      bound to when the page loaded, and the current AR item. */
  datatype DetailsView = DetailsView(
    detailsShown: bool,
    arButtonShown: bool,
    arButtonAttached: bool,
    currentArItem: Option<MenuItem>)

  /** The page once loaded: the modal hidden, the original button in the page
      and hidden, no AR item. */
  const InitialView := DetailsView(false, false, true, None)

  /** `showDetailsModal` as written, on those parts. `detailsArBtn` is looked up
      once, when the page loads. The first item with a model styles the
      original button, then swaps a visible clone into its place, so from then
      on the handler styles a button no longer in the page. For the next item
      with a model, `detailsArBtn.parentNode` is null and `replaceChild`
      throws after `currentArItem` is set and before the modal is shown. */
  function ShowDetailsAsWritten(v: DetailsView, item: MenuItem): DetailsView {
    if HasModel(item) then
      if v.arButtonAttached then DetailsView(true, true, false, Some(item))
      else v.(currentArItem := Some(item))
    else
      DetailsView(true, if v.arButtonAttached then false else v.arButtonShown, v.arButtonAttached, v.currentArItem)
  }

  /** As written, once the original button has been replaced, the button in
      the page is shown for good and the original never comes back. */
  lemma AsWrittenButtonStaysShown(v: DetailsView, item: MenuItem)
    requires !v.arButtonAttached && v.arButtonShown
    ensures var r := ShowDetailsAsWritten(v, item);
            !r.arButtonAttached && r.arButtonShown
  {
  }

  /** As written, an item with a model shown after the button was replaced
      becomes the current AR item, but the modal keeps its old visibility. */
  lemma AsWrittenLaterModelItemThrows(v: DetailsView, item: MenuItem)
    requires !v.arButtonAttached && HasModel(item)
    ensures var r := ShowDetailsAsWritten(v, item);
            r.detailsShown == v.detailsShown && r.currentArItem == Some(item)
  {
  }

  /** Open an item with a model, close the modal, open another item with a
      model: as written, the modal stays hidden. */
  lemma SecondModelItemLeavesModalHidden(a: MenuItem, b: MenuItem)
    requires HasModel(a) && HasModel(b)
    ensures var v := ShowDetailsAsWritten(InitialView, a).(detailsShown := false);
            !ShowDetailsAsWritten(v, b).detailsShown
  {
  }

  /** Open an item with a model, then one without: as written, the AR button
      stays shown, and it opens the first item's model. */
  lemma ItemWithoutModelKeepsButton(a: MenuItem, c: MenuItem)
    requires HasModel(a) && !HasModel(c)
    ensures var r := ShowDetailsAsWritten(ShowDetailsAsWritten(InitialView, a), c);
            r.arButtonShown && r.currentArItem == Some(a)
  {
  }

  /** The state js/script.js keeps and the parts of the page it writes. */
  class MenuPage {
    var menuData: Catalog
    /** The menu container: the rendered sections, or a notice instead. */
    var sections: seq<Section>
    var notice: string
    var navLinks: seq<NavLink>
    var navListShown: bool

    var detailsShown: bool
    var details: DetailsPanel
    var arButtonShown: bool
    /** The AR button in the page is still the one `detailsArBtn` refers to. */
    var arButtonAttached: bool
    var currentArItem: Option<MenuItem>

    var arShown: bool
    var viewerSrc: string
    var arItemName: string
    var arItemDescription: string

    var aiModalShown: bool
    var aiResultText: string
    var aiResultShown: bool
    var sentPrompts: seq<string>

    /** What every handler keeps: the remembered AR item has a model, and the
        AR viewer has a source exactly while it is shown. */
    ghost predicate Valid()
      reads this`currentArItem, this`arShown, this`viewerSrc
    {
      (currentArItem.Some? ==> HasModel(currentArItem.value)) && (arShown <==> viewerSrc != "")
    }

    /** The page once the DOM is ready: `menuData = {}`, `currentArItem = null`,
        nothing rendered, and every modal, the AR button, the navigation list
        and the AI result area hidden, as the page's markup is assumed to
        start them. */
    constructor ()
      ensures Valid()
      ensures menuData == [] && sections == [] && notice == "" && navLinks == [] && !navListShown
      ensures !detailsShown && !arButtonShown && arButtonAttached && currentArItem == None
      ensures !arShown && viewerSrc == "" && !aiModalShown && !aiResultShown && sentPrompts == []
    {
      menuData := [];
      sections := [];
      notice := "";
      navLinks := [];
      navListShown := false;
      detailsShown := false;
      details := DetailsPanel("", "", "", "", [], "");
      arButtonShown := false;
      arButtonAttached := true;
      currentArItem := None;
      arShown := false;
      viewerSrc := "";
      arItemName := "";
      arItemDescription := "";
      aiModalShown := false;
      aiResultText := "";
      aiResultShown := false;
      sentPrompts := [];
    }

    /** The successful end of `loadMenu`: the menu is kept and rendered. */
    method MenuLoaded(data: Catalog)
      requires Valid()
      modifies this`menuData, this`sections, this`notice, this`navLinks
      ensures Valid() && menuData == data
      ensures sections == RenderedSections(data) && notice == "" && navLinks == RenderedNavLinks(data)
    {
      menuData := data;
      RenderMenu();
    }

    /** The `catch` of `loadMenu`: the menu container holds only the failure
        notice; the menu and the navigation links are left as they were. */
    method MenuLoadFailed()
      requires Valid()
      modifies this`sections, this`notice
      ensures Valid() && sections == [] && notice == LoadFailedNotice
    {
      sections := [];
      notice := LoadFailedNotice;
    }

    /** `renderMenu`: both containers are emptied, then each category adds
        one section and one navigation link. What is shown afterwards depends
        on the menu only, so rendering again never duplicates anything. */
    method RenderMenu()
      requires Valid()
      modifies this`sections, this`notice, this`navLinks
      ensures Valid()
      ensures sections == RenderedSections(menuData) && notice == "" && navLinks == RenderedNavLinks(menuData)
    {
      sections, navLinks := RenderCatalog(menuData);
      notice := "";
    }

    /** `showDetailsModal(item)` as it is evidently meant to work, with the
        button in the page styled and rewired each time: the panel shows the
        item; the AR button is shown exactly when the item has a model, and
        only then does the item become the one the AR viewer opens; the modal
        is shown. */
    method ShowDetailsModal(item: MenuItem)
      requires Valid()
      modifies this`details, this`arButtonShown, this`currentArItem, this`detailsShown
      ensures Valid()
      ensures details == DetailsFor(item)
      ensures arButtonShown == HasModel(item)
      ensures currentArItem == if HasModel(item) then Some(item) else old(currentArItem)
      ensures detailsShown
    {
      details := FillDetailsPanel(item);
      if item.modelUrl.Some? && item.modelUrl.value != "" {
        arButtonShown := true;
        currentArItem := Some(item);
      } else {
        arButtonShown := false;
      }
      detailsShown := true;
    }

    /** The parts of the page that `ShowDetailsAsWritten` describes. */
    function View(): DetailsView
      reads this`detailsShown, this`arButtonShown, this`arButtonAttached, this`currentArItem
    {
      DetailsView(detailsShown, arButtonShown, arButtonAttached, currentArItem)
    }

    /** `showDetailsModal(item)` as written: the panel is filled, then the AR
        button is handled through the reference bound when the page loaded. */
    method ShowDetailsModalAsWritten(item: MenuItem)
      requires Valid()
      modifies this`details, this`arButtonShown, this`arButtonAttached, this`currentArItem, this`detailsShown
      ensures Valid()
      ensures details == DetailsFor(item)
      ensures View() == ShowDetailsAsWritten(old(View()), item)
    {
      details := FillDetailsPanel(item);
      if item.modelUrl.Some? && item.modelUrl.value != "" {
        if arButtonAttached {
          arButtonShown := true;
        }
        currentArItem := Some(item);
        if !arButtonAttached {
          // `detailsArBtn.parentNode` is null: `replaceChild` throws here.
          return;
        }
        arButtonAttached := false;
      } else if arButtonAttached {
        arButtonShown := false;
      }
      detailsShown := true;
    }

    /** `showArModal`: nothing happens before an item with a model has been
        opened; otherwise the details panel is hidden and the AR viewer shows
        that item's model, name and description. */
    method ShowArModal()
      requires Valid()
      modifies this`detailsShown, this`viewerSrc, this`arItemName, this`arItemDescription, this`arShown
      ensures Valid()
      ensures currentArItem.None? ==> unchanged(this)
      ensures currentArItem.Some? ==>
                !detailsShown && arShown
                && viewerSrc == currentArItem.value.modelUrl.value
                && arItemName == currentArItem.value.name
                && arItemDescription == currentArItem.value.description
    {
      if currentArItem.None? {
        return;
      }
      var item := currentArItem.value;
      detailsShown := false;
      viewerSrc := item.modelUrl.value;
      arItemName := item.name;
      arItemDescription := item.description;
      arShown := true;
    }

    /** `closeDetailsModal`: only the details panel's visibility changes. */
    method CloseDetailsModal()
      requires Valid()
      modifies this`detailsShown
      ensures Valid() && !detailsShown
    {
      detailsShown := false;
    }

    /** `closeArModal`: the AR viewer is hidden and its source cleared. */
    method CloseArModal()
      requires Valid()
      modifies this`arShown, this`viewerSrc
      ensures Valid() && !arShown && viewerSrc == ""
    {
      arShown := false;
      viewerSrc := "";
    }

    /** `openAiModal` and `closeAiModal`. */
    method SetAiModalShown(shown: bool)
      requires Valid()
      modifies this`aiModalShown
      ensures Valid() && aiModalShown == shown
    {
      aiModalShown := shown;
    }

    /** The window's click handler: a click on a modal's backdrop closes that modal. */
    method WindowClicked(target: ClickTarget)
      requires Valid()
      modifies this`detailsShown, this`arShown, this`viewerSrc, this`aiModalShown
      ensures Valid()
      ensures detailsShown == (old(detailsShown) && target != DetailsBackdrop)
      ensures target == ArBackdrop ==> !arShown && viewerSrc == ""
      ensures target != ArBackdrop ==> arShown == old(arShown) && viewerSrc == old(viewerSrc)
      ensures aiModalShown == (old(aiModalShown) && target != AiBackdrop)
    {
      if target == DetailsBackdrop {
        CloseDetailsModal();
      }
      if target == ArBackdrop {
        CloseArModal();
      }
      if target == AiBackdrop {
        SetAiModalShown(false);
      }
    }

    /** The floating navigation button toggles the link list. */
    method ToggleNavList()
      requires Valid()
      modifies this`navListShown
      ensures Valid() && navListShown == !old(navListShown)
    {
      navListShown := !navListShown;
    }

    /** A click inside the link list hides it when it lands on a link. */
    method NavListClicked(onLink: bool)
      requires Valid()
      modifies this`navListShown
      ensures Valid() && navListShown == (old(navListShown) && !onLink)
    {
      if onLink {
        navListShown := false;
      }
    }

    /** This page's submit handler for the questionnaire: unlike the one of
        js/ai.js it has no empty-menu guard, so it always sends a prompt. */
    method SubmitAiForm(formData: AiAssistant.FormData, stringify: Catalog -> string)
      requires Valid()
      modifies this`aiResultText, this`aiResultShown, this`sentPrompts
      ensures Valid()
      ensures aiResultText == AiAssistant.ThinkingMessage && aiResultShown
      ensures sentPrompts == old(sentPrompts) + [AiAssistant.ConstructAiPrompt(formData, stringify(menuData))]
    {
      var prompt := AiAssistant.ConstructAiPrompt(formData, stringify(menuData));
      aiResultText := AiAssistant.ThinkingMessage;
      aiResultShown := true;
      sentPrompts := sentPrompts + [prompt];
    }

    /** The end of this page's `getAiSuggestion` when the endpoint answered. */
    method SuggestionArrived(suggestion: string)
      requires Valid()
      modifies this`aiResultText
      ensures Valid() && aiResultText == suggestion
    {
      aiResultText := suggestion;
    }

    /** The end of this page's `getAiSuggestion` when the request or the
        response failed. */
    method SuggestionFailed()
      requires Valid()
      modifies this`aiResultText
      ensures Valid() && aiResultText == AiAssistant.SuggestionFailedMessage
    {
      aiResultText := AiAssistant.SuggestionFailedMessage;
    }
  }

  const LoadFailedNotice: string := "Failed to load menu. Please try again later."

  /** This page's copy of `constructAiPrompt`, built step by step; it builds
      the same prompt as the one of js/ai.js for every input. Its sentences,
      labels and defaults are the constants and `OrElse` of `AiAssistant`, so
      the proof covers the order of the appends. That the two copies' literals
      agree character for character is carried by those shared constants. */
  method ConstructAiPrompt(formData: AiAssistant.FormData, menuJson: string) returns (prompt: string)
    ensures prompt == AiAssistant.ConstructAiPrompt(formData, menuJson)
  {
    prompt := AiAssistant.Preamble + "\n\n" + AiAssistant.MenuHeading + "\n" + menuJson + "\n\n"
      + AiAssistant.PreferencesHeading + "\n";
    prompt := prompt + AiAssistant.PeopleLabel + formData.people + "\n";
    prompt := prompt + AiAssistant.FoodsLabel + AiAssistant.OrElse(formData.favFoods, "Not specified") + "\n";
    prompt := prompt + AiAssistant.DietLabel + formData.diet + "\n";
    var courses := if |formData.courses| > 0 then Join(formData.courses, ", ") else "Not specified";
    prompt := prompt + AiAssistant.CoursesLabel + courses + "\n";
    prompt := prompt + AiAssistant.BudgetLabel + formData.budget + "\n";
    prompt := prompt + AiAssistant.RestrictionsLabel + AiAssistant.OrElse(formData.restrictions, "None") + "\n";
    prompt := prompt + AiAssistant.SpiceLabel + formData.spice + "\n\n";
    prompt := prompt + AiAssistant.Closing;
  }
}
