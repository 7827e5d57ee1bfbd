# ARmenu front end in Dafny

This project models the browser side of ARmenu, the menu of "The AR Eatery".
The page loads a catalog of categories and items and renders one section and
one floating-navigation link per category. Clicking a card opens a details
modal with the ingredients, a nutrition summary and, for items with a 3D
model, an AR button that opens a model viewer. An AI questionnaire builds a
text prompt from the customer's answers and the serialized menu and hands it
to a suggestion endpoint.

The model has four modules:

- `Text` (text.dfy) holds the string operations the page borrows from
  JavaScript: `trim()`, the `\s` class, `toUpperCase()` on one character and
  `join`. It also holds helpers the page does not call, used only to state
  properties of the prompt. `StartsWith` and `EndsWith` state its prefixes and
  its ending. A splitter that cuts a text at a separator states its line
  structure, and it is proved to undo `join`.
- `Menu` (menu.dfy) holds the catalog. A catalog is an ordered sequence of
  categories, and a category has a name and its items in order.
- `AiAssistant` (ai_assistant.dfy) models js/ai.js. It has the prompt builder
  as a function and a class for the state its handlers update.
- `MenuPage` (menu_page.dfy) models js/script.js. It has the category slug,
  the rendered sections and links, the details panel and the modal/AR state
  machine as a class, and the page's own copy of the prompt builder.

Loops in the source are methods with loop invariants, proved against a
specification function. For example, `RenderCatalog` is proved against
`RenderedSections`, and `FillDetailsPanel` against `DetailsFor`. Handlers that
update page state are methods of a class. Their `modifies` clauses name
exactly the fields the handler writes, and they keep the invariant `Valid()`.
`Valid()` says that the remembered AR item has a model, and that the viewer
has a source exactly while it is shown.

The details of an item appear in a modal dialog.

The details handler in js/script.js loses its AR button after the first item
with a model (see "## Findings"). The class therefore has two versions of the
handler: `ShowDetailsModalAsWritten` follows the code, and `ShowDetailsModal`
is the behaviour the code evidently intends.

## Model

| member | source | states |
|---|---|---|
| Text.TrimEndShape | js/script.js:124 | trimming the end keeps a prefix, removes only whitespace, and leaves no whitespace at the end |
| Text.TrimStartShape | js/script.js:124 | trimming the start keeps a suffix, removes only whitespace, and leaves no whitespace at the start |
| Text.TrimShape | js/script.js:124 | `trim()` never lengthens its input and leaves no whitespace at either end; it only trims the end when the text starts with non-whitespace |
| Text.TrimIdempotent | js/script.js:124 | trimming twice is trimming once |
| Text.TrimEndKeepsPrefix | js/script.js:124 | trimming never cuts into a prefix that ends in non-whitespace |
| Text.ToUpperAscii | js/script.js:122 | the upper-cased character is not a lower-case letter: a–z move to A–Z and every other character is kept |
| Text.Trim | js/script.js:124 | `trim()`: whitespace removed at both ends; its properties are stated by `TrimShape` and `TrimIdempotent` |
| Text.Capitalize | js/script.js:122 | `charAt(0).toUpperCase() + slice(1)`: the first character upper-cased by `ToUpperAscii`, the rest kept |
| Text.Join | js/ai.js:48 | `join(sep)`: the parts in order with the separator between neighbours; `JoinAvoids` and `SplitOnJoin` state what it keeps and that it can be undone |
| Text.JoinAvoids | js/ai.js:48 | a character that is in no part and not in the separator is not in the joined text |
| Text.SplitOnJoin | js/ai.js:48 | for a non-empty list of parts (a part may itself be empty), joining them with a non-empty separator and cutting at that separator gives back the parts, provided no part holds the separator's first character |
| AiAssistant.ConstructAiPrompt | js/ai.js:43-54 | the prompt text; its line structure is stated by `PromptLines`, `PromptDefaults` and `PromptFrame`, and its defaults by `FoodsLineDefault`, `CoursesLineDefault` and `RestrictionsLineDefault` |
| AiAssistant.CoursesText | js/ai.js:48 | the checked courses joined by ", ", or "Not specified" when none is checked; `CoursesRecoverable` states that the list can be read back |
| AiAssistant.FoodsLineDefault | js/ai.js:44-46 | for every form, the prompt starts with the opening, the people line and a favorite-foods line that shows the answer, or "Not specified" when the answer is empty |
| AiAssistant.CoursesLineDefault | js/ai.js:44-48 | for every form, the prompt continues with the diet line and a courses line that shows the checked courses joined by ", ", or "Not specified" when none is checked |
| AiAssistant.RestrictionsLineDefault | js/ai.js:44-50 | for every form, the prompt continues with the budget line and a restrictions line that shows the answer, or "None" when the answer is empty |
| AiAssistant.PromptDefaults | js/ai.js:46-50 | in the lines of the prompt for a one-line form, the favorite-foods line reads "Not specified" when that answer is empty and shows the answer otherwise; the courses line reads "Not specified" when no course is checked and the courses joined by ", " otherwise; the restrictions line reads "None" when that answer is empty and shows it otherwise; the prompt has nine lines from the first preference line on |
| AiAssistant.DefaultedLines | js/ai.js:43-54 | in any line list laid out as a prompt, the defaulted preference lines sit at fixed positions after the menu text's lines |
| AiAssistant.PromptLines | js/ai.js:43-54 | for a form whose answers are single lines, the prompt's lines, in order: the preamble, a blank line, the menu heading, the menu text's own lines, a blank line, the preferences heading, the seven labelled preference lines in fixed order, a blank line and the closing sentence, with no trailing line feed |
| AiAssistant.ShownValuesAreOneLine | js/ai.js:46-50 | on a one-line form, the shown values, defaults and joined courses included, hold no line feed |
| AiAssistant.PromptFrame | js/ai.js:44-52 | for every form, the prompt starts with the preamble, the menu heading, the menu text and the preferences heading, and ends with a blank line and the closing sentence |
| AiAssistant.CoursesRecoverable | js/ai.js:48 | when at least one course is checked and no course value holds a comma, the desired-courses value, cut at ", ", gives back the checked courses in their order |
| AiAssistant.AiAssistant.constructor | js/ai.js:6 | before loading, the menu is empty, nothing is shown and no prompt has been sent |
| AiAssistant.AiAssistant.MenuDataLoaded | js/ai.js:14 | the loaded menu replaces the empty one |
| AiAssistant.AiAssistant.MenuDataLoadFailed | js/ai.js:15-18 | a failed load writes the unavailable message into the result area |
| AiAssistant.AiAssistant.GetAiSuggestion | js/ai.js:56-58 | the placeholder is shown and exactly this prompt is appended to those sent |
| AiAssistant.AiAssistant.SuggestionArrived | js/ai.js:73-74 | the endpoint's suggestion replaces the placeholder |
| AiAssistant.AiAssistant.SuggestionFailed | js/ai.js:76-79 | a failed request shows the apology |
| AiAssistant.AiAssistant.Submit | js/ai.js:21-41 | with an empty menu, it shows the not-loaded message and sends nothing; otherwise it sends exactly one prompt, built from the form and the serialized menu |
| MenuPage.CollapseWhitespace | js/script.js:65 | `replace(/\s+/g, '-')` leaves no whitespace, never lengthens, and keeps whitespace-free text unchanged |
| MenuPage.CollapseKeepsPrefix | js/script.js:65 | whitespace-free text in front passes through unchanged |
| MenuPage.CollapseRun | js/script.js:65 | each maximal whitespace run, however long, becomes exactly one hyphen |
| MenuPage.DeleteParens | js/script.js:65 | `replace(/[()]/g, '')` leaves no parenthesis, never lengthens, keeps parenthesis-free text, and adds no whitespace |
| MenuPage.DeleteParensKeeps | js/script.js:65 | a character survives exactly when it is in the input and is not a parenthesis |
| MenuPage.DeleteParensConcat | js/script.js:65 | deletion works piece by piece, so the kept characters stay in order |
| MenuPage.CategoryId | js/script.js:65 | a category id has no whitespace and no parentheses, and is no longer than the name |
| MenuPage.CategoryIdIdempotent | js/script.js:65 | making the id of an id changes nothing |
| MenuPage.NutritionText | js/script.js:120-124 | the nutrition summary: one fragment per entry, trimmed; stated by `NutritionTextEnds`, `NutritionTextShape` and `NutritionTextDropsLastSpace` |
| MenuPage.NutritionFragments | js/script.js:120-123 | the untrimmed text the loop accumulates: each entry's fragment, in entry order; `AccumulateNutrition` is proved to build it and `FragmentsStartWithFirst` states how it starts |
| MenuPage.FragmentsStartWithFirst | js/script.js:120-123 | the accumulated nutrition text starts with the first entry's fragment |
| MenuPage.NutritionTextEnds | js/script.js:120-124 | no nutrition entries give the empty text, and the text never starts or ends with whitespace |
| MenuPage.NutritionTextShape | js/script.js:120-124 | for a non-empty map, the text is the fragments with trailing whitespace removed, and it starts with `<strong>`, the capitalized first key and `:</strong>`, all shown as text |
| MenuPage.NutritionTextDropsLastSpace | js/script.js:120-124 | when the last value ends in non-whitespace, trimming removes exactly the one trailing space |
| MenuPage.RenderedSections | js/script.js:64-94 | one section per category, in catalog order |
| MenuPage.RenderedNavLinks | js/script.js:64-99 | one navigation link per category, in catalog order |
| MenuPage.RenderedShape | js/script.js:64-100 | each link targets `#` plus the id of the section at its position; each section is headed by its category's name; each grid shows that category's items, one card each, in order, priced with a dollar sign |
| MenuPage.RenderConcat | js/script.js:64-100 | rendering two parts of a catalog renders each part, one after the other |
| MenuPage.BuildGrid | js/script.js:79-91 | the grid has one card per item, in item order |
| MenuPage.RenderCatalog | js/script.js:61-100 | starting from emptied containers, the loop produces exactly the rendered sections and links of the catalog |
| MenuPage.DetailsFor | js/script.js:108-124 | the details panel an item should show; `FillDetailsPanel` is proved to produce it |
| MenuPage.ListIngredients | js/script.js:113-118 | the ingredients list holds exactly one entry per ingredient, in the item's order |
| MenuPage.AccumulateNutrition | js/script.js:120-123 | the loop appends one fragment per entry, in entry order, each `<strong>`, the capitalized key, `:</strong> `, the value and a space (the tags are shown as text, since the panel sets `textContent`) |
| MenuPage.FillDetailsPanel | js/script.js:108-124 | the panel shows the item's picture, name, description, price with a dollar sign, its ingredients one entry each in order, and the trimmed nutrition text |
| MenuPage.MenuPage.constructor | js/script.js:34-35 | the page starts with an empty menu, nothing rendered, every modal hidden and no AR item |
| MenuPage.MenuPage.MenuLoaded | js/script.js:45-47 | the loaded menu is kept and rendered |
| MenuPage.MenuPage.MenuLoadFailed | js/script.js:50-54 | a failed load replaces the menu container's content with the failure notice |
| MenuPage.MenuPage.RenderMenu | js/script.js:60-101 | afterwards the containers hold exactly the sections and links of the current menu, so rendering again never duplicates anything |
| MenuPage.MenuPage.ShowDetailsModal | js/script.js:107-137 | the handler as it is evidently intended: the panel shows the item; the AR button is shown exactly when the item has a non-empty model URL; only then does the item become the current AR item, which otherwise keeps its old value; the modal is shown |
| MenuPage.ShowDetailsAsWritten | js/script.js:126-136 | the handler's effect on the modal, the AR button, the button's presence in the page and the current AR item, as written: with the original button in the page, an item with a model shows the AR button and replaces the original with a visible clone; without it, the item becomes the current AR item and nothing else changes; an item without a model hides the button only while the original is in the page; the modal is shown except when `replaceChild` throws |
| MenuPage.MenuPage.ShowDetailsModalAsWritten | js/script.js:107-137 | the handler as written, with the AR button looked up once at line 20: the panel shows the item, and the modal, the AR button, its presence in the page and the current AR item change exactly as `ShowDetailsAsWritten` says |
| MenuPage.AsWrittenLaterModelItemThrows | js/script.js:126-130 | once the original button has left the page, an item with a model becomes the current AR item but leaves the modal's visibility as it was, because `replaceChild` throws before the modal is shown |
| MenuPage.AsWrittenButtonStaysShown | js/script.js:126-134 | once the original button has left the page, a shown AR button stays shown and stays out of the page's reach, whatever the next item is |
| MenuPage.SecondModelItemLeavesModalHidden | js/script.js:126-136 | with the AR button looked up once at line 20, opening an item with a model, closing the modal, then opening a second item with a model leaves the modal hidden |
| MenuPage.ItemWithoutModelKeepsButton | js/script.js:126-134 | with the AR button looked up once at line 20, opening an item with a model and then an item without one leaves the AR button shown, still bound to the first item |
| MenuPage.MenuPage.ShowArModal | js/script.js:142-149 | with no current AR item nothing changes; otherwise details are hidden and the viewer shows that item's model, name and description |
| MenuPage.MenuPage.CloseDetailsModal | js/script.js:152 | only the details modal's visibility changes |
| MenuPage.MenuPage.CloseArModal | js/script.js:153-156 | the AR modal is hidden and the viewer's source is cleared |
| MenuPage.MenuPage.SetAiModalShown | js/script.js:175-176 | opening and closing the AI modal change only its visibility |
| MenuPage.MenuPage.WindowClicked | js/script.js:161-165 | a click on a modal's backdrop closes that modal and leaves the others as they were |
| MenuPage.MenuPage.ToggleNavList | js/script.js:237-239 | the navigation button flips the link list's visibility |
| MenuPage.MenuPage.NavListClicked | js/script.js:241-245 | a click on a link hides the list; any other click leaves it as it was |
| MenuPage.MenuPage.SubmitAiForm | js/script.js:181-195 | without any empty-menu guard, the page's submit handler always sends one prompt, built from the form and the serialized menu |
| MenuPage.MenuPage.SuggestionArrived | js/script.js:228-229 | the endpoint's suggestion replaces the placeholder |
| MenuPage.MenuPage.SuggestionFailed | js/script.js:231-234 | a failed request shows the apology |
| MenuPage.ConstructAiPrompt | js/script.js:197-208 | the page's copy of `constructAiPrompt` builds the same prompt as the one in js/ai.js, for every input |

## Left out

- Network I/O is left out: `fetch` of the menu and of a suggestion, and the `async` waiting around it. Its outcomes are separate handler methods that take the delivered value as a parameter. Results arriving out of order are not modelled.
- `JSON.stringify(menu, null, 2)` is a parameter. The prompt function takes the serialized text, and the submit handlers take an arbitrary `Catalog -> string`.
- The DOM is left out: HTML markup and escaping, `innerHTML`, CSS classes and listener registration. Visibility is a boolean, and containers are sequences of records. Of the `cloneNode`/`replaceChild` rewiring of the AR button, the model keeps only whether the original button is still in the page.
- The loader and its `setTimeout` are left out, because they are timing-only UI.
- Whitespace is an explicit set: ASCII whitespace, vertical tab, form feed, no-break space and the byte-order mark. JavaScript's `\s` and `trim()` also cover other Unicode spaces and line separators.
- MenuPage.NutritionText: upper-casing maps only a–z, while JavaScript's `toUpperCase()` is Unicode-aware. A first character outside ASCII is kept as it is.
- The catalog is an ordered sequence. JavaScript's object-key order, where integer-like keys come first, is not modelled.
- Prices and nutrition values are their rendered text, so number formatting is not modelled.
- The page's starting visibilities are assumed: the details, AR and AI modals, the AR button, the navigation list and the AI result area start hidden. js/script.js:34-35 sets only `menuData` and `currentArItem`; the rest comes from the page's markup and CSS, which are not part of this model.
- The form fields are plain values. The model assumes that a `:checked` radio button exists for diet and for budget, because reading `.value` of a missing one would throw.
- AiAssistant.PromptDefaults: the defaults are stated on the prompt's lines, so only for forms whose answers hold no line feed. `FoodsLineDefault`, `CoursesLineDefault` and `RestrictionsLineDefault` state the same defaults for every form, as prefixes of the prompt.
- AiAssistant.PromptLines: the line-by-line statement needs answers without line feeds, because a line feed inside an answer splits its line in two. AiAssistant.PromptFrame states the opening and the closing for every form.
- AiAssistant.Submit: an empty menu is a catalog with no categories, which is what `Object.keys(menuData).length === 0` tests.
- When js/script.js and js/ai.js are both loaded, each registers a submit handler on the same form. The page then sends up to two requests per submission. The model gives each script's handler separately.
- MenuPage.ConstructAiPrompt: in this model the page's `SubmitAiForm` calls the `AiAssistant.ConstructAiPrompt` function, which this method is proved to equal. The method uses the constants of `AiAssistant`, so the proof covers the order of the appends. That the literals of js/script.js:198-206 equal those of js/ai.js:44-52 rests on those shared constants, not on a proof.
- These are not part of this model:
  - the Express and axios proxies under api/ and css/netlify/functions/, whose only logic is an API-key check around a foreign HTTP call
  - server.py
  - the Playwright browser script under jules-scratch/

## Findings

| source | as written | input that shows it | evidently intended | confidence | as-written member | corrected member |
|---|---|---|---|---|---|---|
| js/script.js:126-136 | `detailsArBtn` is looked up once, at line 20. The first item with a model replaces that node in the page with a clone, but the constant still names the detached original. For any later item with a model, `detailsArBtn.parentNode` is `null`, so `replaceChild` throws after `currentArItem` has changed and before the modal is shown. For any later item without a model, only the detached node is hidden, and the clone in the page stays visible and still opens the earlier item's model. | open an item A with a model, close the modal, then click an item B with a model: the modal stays hidden. Or open A and then an item C without a model: the AR button stays shown for A. | every click shows the modal, and the AR button in the page is shown exactly for items with a model and opens that item | high; not executed | MenuPage.MenuPage.ShowDetailsModalAsWritten, MenuPage.SecondModelItemLeavesModalHidden, MenuPage.ItemWithoutModelKeepsButton | MenuPage.MenuPage.ShowDetailsModal |
