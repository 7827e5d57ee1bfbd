/** The AI meal-suggestion assistant of js/ai.js: the prompt it builds from the
    questionnaire and the menu, and the submit handler that refuses to build
    one before the menu has arrived. */
module AiAssistant {
  import opened Text
  import opened Menu

  /** The questionnaire as the submit handler reads it: every field is the
      control's text value; `courses` are the checked boxes' values in
      document order. */
  datatype FormData = FormData(
    people: string,
    favFoods: string,
    diet: string,
    courses: seq<string>,
    budget: string,
    restrictions: string,
    spice: string)

  // The fixed sentences of the prompt. Each is written as a concatenation of
  // short pieces, and each has a lemma below saying that it holds no line feed:
  // the verifier inspects a literal character by character, which is only
  // affordable in short pieces.
  const IntroSentence: string := "You are a helpful AI assistant " + "for \"The AR Eatery\" restaurant."
  const TaskSentence: string :=
    "Your only job is to suggest " + "meals from our menu based on " + "the customer's preferences."
  const ScopeSentence: string :=
    "Do not answer any questions " + "that are not about our food " + "or restaurant."
  const RedirectSentence: string :=
    "If asked about anything else, " + "politely decline and steer " + "the conversation back to our menu."
  const Preamble: string := IntroSentence + " " + TaskSentence + " " + ScopeSentence + " " + RedirectSentence
  const MenuHeading: string := "Here is our full menu:"
  const PreferencesHeading: string := "A customer has the " + "following preferences:"
  const SuggestSentence: string :=
    "Based on this, please suggest " + "a delicious and suitable meal " + "combination from our menu."
  const PresentSentence: string := "Present it in a friendly " + "and appealing way."
  const Closing: string := SuggestSentence + " " + PresentSentence

  lemma IntroIsOneLine() ensures '\n' !in IntroSentence {}
  lemma TaskIsOneLine() ensures '\n' !in TaskSentence {}
  lemma ScopeIsOneLine() ensures '\n' !in ScopeSentence {}
  lemma RedirectIsOneLine() ensures '\n' !in RedirectSentence {}
  lemma SuggestIsOneLine() ensures '\n' !in SuggestSentence {}
  lemma PresentIsOneLine() ensures '\n' !in PresentSentence {}

  /** The fixed texts of the prompt hold no line feed. */
  lemma FixedTextsAreOneLine()
    ensures '\n' !in Preamble && '\n' !in MenuHeading && '\n' !in PreferencesHeading && '\n' !in Closing
  {
    IntroIsOneLine();
    TaskIsOneLine();
    ScopeIsOneLine();
    RedirectIsOneLine();
    SuggestIsOneLine();
    PresentIsOneLine();
  }

  // The labels of the preference lines, in line order.
  const PeopleLabel: string := "- Number of people: "
  const FoodsLabel: string := "- Favorite foods or flavors: "
  const DietLabel: string := "- Dietary preference: "
  const CoursesLabel: string := "- Desired courses: "
  const BudgetLabel: string := "- Budget: "
  const RestrictionsLabel: string := "- Dietary restrictions: "
  const SpiceLabel: string := "- Spice level tolerance: "

  /** JavaScript's `s || fallback` on a string: only the empty string is replaced. */
  function OrElse(s: string, fallback: string): (r: string)
    ensures s != "" ==> r == s
    ensures s == "" ==> r == fallback
  {
    if s != "" then s else fallback
  }

  /** The desired-courses value: the courses joined with ", ", or "Not specified"
      when none is checked. */
  function CoursesText(courses: seq<string>): string {
    if |courses| > 0 then Join(courses, ", ") else "Not specified"
  }

  /** `constructAiPrompt(formData, menu)`, with `menuJson` standing for
      `JSON.stringify(menu, null, 2)`. The menu text comes right after the
      menu heading and right before the preferences heading, and the prompt
      ends with a blank line and the closing sentence. */
  function ConstructAiPrompt(formData: FormData, menuJson: string): string
  {
    var prompt := Preamble + "\n\n" + MenuHeading + "\n" + menuJson + "\n\n" + PreferencesHeading + "\n";
    var prompt := prompt + PeopleLabel + formData.people + "\n";
    var prompt := prompt + FoodsLabel + OrElse(formData.favFoods, "Not specified") + "\n";
    var prompt := prompt + DietLabel + formData.diet + "\n";
    var prompt := prompt + CoursesLabel + CoursesText(formData.courses) + "\n";
    var prompt := prompt + BudgetLabel + formData.budget + "\n";
    var prompt := prompt + RestrictionsLabel + OrElse(formData.restrictions, "None") + "\n";
    var prompt := prompt + SpiceLabel + formData.spice + "\n\n";
    prompt + Closing
  }

  /** The seven preference lines, `- <label>: <value>`, without their line feeds. */
  function PreferenceLines(f: FormData): seq<string> {
    [PeopleLabel + f.people,
     FoodsLabel + OrElse(f.favFoods, "Not specified"),
     DietLabel + f.diet,
     CoursesLabel + CoursesText(f.courses),
     BudgetLabel + f.budget,
     RestrictionsLabel + OrElse(f.restrictions, "None"),
     SpiceLabel + f.spice]
  }

  // The labels of the preference lines hold no line feed.
  lemma PeopleLabelIsOneLine() ensures '\n' !in PeopleLabel {}
  lemma FoodsLabelIsOneLine() ensures '\n' !in FoodsLabel {}
  lemma DietLabelIsOneLine() ensures '\n' !in DietLabel {}
  lemma CoursesLabelIsOneLine() ensures '\n' !in CoursesLabel {}
  lemma BudgetLabelIsOneLine() ensures '\n' !in BudgetLabel {}
  lemma RestrictionsLabelIsOneLine() ensures '\n' !in RestrictionsLabel {}
  lemma SpiceLabelIsOneLine() ensures '\n' !in SpiceLabel {}

  // The line structure of text built like the prompt, for any one-line pieces,
  // in three stretches: the opening, the first four preference lines, and the
  // last three with the closing line.

  /** The preamble, a blank line, the menu heading, the menu text's own lines,
      a blank line and the preferences heading, each ended by a line feed. */
  lemma OpeningLines(preamble: string, heading: string, menuJson: string, prefsHeading: string)
    requires '\n' !in preamble && '\n' !in heading && '\n' !in prefsHeading
    ensures SplitOn(preamble + "\n\n" + heading + "\n" + menuJson + "\n\n" + prefsHeading + "\n", "\n")
            == [preamble] + [""] + [heading] + SplitOn(menuJson, "\n") + [""] + [prefsHeading] + [""]
  {
    SplitLinesBlankBetween(preamble, heading);
    SplitOnAround(preamble + "\n\n" + heading, menuJson, "\n");
    SplitLinesBlankThenLine(preamble + "\n\n" + heading + "\n" + menuJson, prefsHeading,
                            [preamble] + [""] + [heading] + SplitOn(menuJson, "\n"));
  }

  /** Four lines, each a label and a value ended by a line feed. */
  lemma FourLabelledLines(s: string, before: seq<string>, a0: string, v0: string, a1: string, v1: string,
                          a2: string, v2: string, a3: string, v3: string)
    requires '\n' !in a0 && '\n' !in v0 && '\n' !in a1 && '\n' !in v1
    requires '\n' !in a2 && '\n' !in v2 && '\n' !in a3 && '\n' !in v3
    requires SplitOn(s, "\n") == before + [""]
    ensures SplitOn(s + a0 + v0 + "\n" + a1 + v1 + "\n" + a2 + v2 + "\n" + a3 + v3 + "\n", "\n")
            == before + [a0 + v0] + [a1 + v1] + [a2 + v2] + [a3 + v3] + [""]
  {
    SplitLinesAddLine(s, a0, v0, before);
    SplitLinesAddLine(s + a0 + v0 + "\n", a1, v1, before + [a0 + v0]);
    SplitLinesAddLine(s + a0 + v0 + "\n" + a1 + v1 + "\n", a2, v2, before + [a0 + v0] + [a1 + v1]);
    SplitLinesAddLine(s + a0 + v0 + "\n" + a1 + v1 + "\n" + a2 + v2 + "\n", a3, v3,
                      before + [a0 + v0] + [a1 + v1] + [a2 + v2]);
  }

  /** Three more labelled lines, the last followed by a blank line, and a
      closing line without a line feed. */
  lemma LastLabelledLines(s: string, before: seq<string>, a4: string, v4: string, a5: string, v5: string,
                          a6: string, v6: string, closing: string)
    requires '\n' !in a4 && '\n' !in v4 && '\n' !in a5 && '\n' !in v5
    requires '\n' !in a6 && '\n' !in v6 && '\n' !in closing
    requires SplitOn(s, "\n") == before + [""]
    ensures SplitOn(s + a4 + v4 + "\n" + a5 + v5 + "\n" + a6 + v6 + "\n\n" + closing, "\n")
            == before + [a4 + v4] + [a5 + v5] + [a6 + v6] + [""] + [closing]
  {
    SplitLinesAddLine(s, a4, v4, before);
    SplitLinesAddLine(s + a4 + v4 + "\n", a5, v5, before + [a4 + v4]);
    SplitLinesAddLineAndBlank(s + a4 + v4 + "\n" + a5 + v5 + "\n", a6, v6, before + [a4 + v4] + [a5 + v5]);
    SplitLinesExtend(s + a4 + v4 + "\n" + a5 + v5 + "\n" + a6 + v6 + "\n\n", closing,
                     before + [a4 + v4] + [a5 + v5] + [a6 + v6] + [""]);
  }

  /** The line structure of any text built like the prompt from one-line
      pieces and a menu text: label `ai` and value `vi` make the i-th
      preference line. */
  lemma BuiltPromptLines(preamble: string, heading: string, menuJson: string, prefsHeading: string,
                         a0: string, v0: string, a1: string, v1: string, a2: string, v2: string,
                         a3: string, v3: string, a4: string, v4: string, a5: string, v5: string,
                         a6: string, v6: string, closing: string)
    requires '\n' !in preamble && '\n' !in heading && '\n' !in prefsHeading && '\n' !in closing
    requires '\n' !in a0 && '\n' !in v0 && '\n' !in a1 && '\n' !in v1 && '\n' !in a2 && '\n' !in v2
    requires '\n' !in a3 && '\n' !in v3 && '\n' !in a4 && '\n' !in v4 && '\n' !in a5 && '\n' !in v5
    requires '\n' !in a6 && '\n' !in v6
    ensures var p0: string := preamble + "\n\n" + heading + "\n" + menuJson + "\n\n" + prefsHeading + "\n";
            var built: string := p0
                    + a0 + v0 + "\n" + a1 + v1 + "\n" + a2 + v2 + "\n" + a3 + v3 + "\n"
                    + a4 + v4 + "\n" + a5 + v5 + "\n" + a6 + v6 + "\n\n" + closing;
            var lines: seq<string> := [a0 + v0, a1 + v1, a2 + v2, a3 + v3, a4 + v4, a5 + v5, a6 + v6];
            var head: seq<string> := [preamble, "", heading];
            var tail: seq<string> := ["", prefsHeading];
            SplitOn(built, "\n") == head + SplitOn(menuJson, "\n") + tail + lines + ["", closing]
  {
    OpeningLines(preamble, heading, menuJson, prefsHeading);
    var p0 := preamble + "\n\n" + heading + "\n" + menuJson + "\n\n" + prefsHeading + "\n";
    var b0 := [preamble] + [""] + [heading] + SplitOn(menuJson, "\n") + [""] + [prefsHeading];
    FourLabelledLines(p0, b0, a0, v0, a1, v1, a2, v2, a3, v3);
    var p4 := p0 + a0 + v0 + "\n" + a1 + v1 + "\n" + a2 + v2 + "\n" + a3 + v3 + "\n";
    LastLabelledLines(p4, b0 + [a0 + v0] + [a1 + v1] + [a2 + v2] + [a3 + v3],
                      a4, v4, a5, v5, a6, v6, closing);
    Regroup(preamble, heading, SplitOn(menuJson, "\n"), prefsHeading,
            [a0 + v0, a1 + v1, a2 + v2, a3 + v3, a4 + v4, a5 + v5, a6 + v6], closing);
  }

  /** List bookkeeping for `BuiltPromptLines`. */
  lemma Regroup(preamble: string, heading: string, menuLines: seq<string>, prefsHeading: string,
                lines: seq<string>, closing: string)
    requires |lines| == 7
    ensures [preamble] + [""] + [heading] + menuLines + [""] + [prefsHeading]
              + [lines[0]] + [lines[1]] + [lines[2]] + [lines[3]] + [lines[4]] + [lines[5]] + [lines[6]]
              + [""] + [closing]
            == [preamble, "", heading] + menuLines + ["", prefsHeading] + lines + ["", closing]
  {
  }

  /** No answer on the form holds a line feed, as with single-line inputs. */
  predicate OneLineForm(f: FormData) {
    '\n' !in f.people && '\n' !in f.favFoods && '\n' !in f.diet
    && (forall c <- f.courses :: '\n' !in c)
    && '\n' !in f.budget && '\n' !in f.restrictions && '\n' !in f.spice
  }

  /** The values a one-line form shows, defaults included, hold no line feed. */
  lemma ShownValuesAreOneLine(f: FormData)
    requires OneLineForm(f)
    ensures '\n' !in OrElse(f.favFoods, "Not specified") && '\n' !in CoursesText(f.courses)
    ensures '\n' !in OrElse(f.restrictions, "None")
  {
    if f.courses != [] {
      JoinAvoids(f.courses, ", ", '\n');
    }
  }

  /** The line structure of the prompt for a form whose answers are single
      lines: the preamble, a blank line, the menu heading, the menu text's own
      lines, a blank line, the preferences heading, exactly the seven
      preference lines in label order, a blank line, and the closing sentence
      as the last line (so no trailing line feed). */
  lemma PromptLines(f: FormData, menuJson: string)
    requires OneLineForm(f)
    ensures SplitOn(ConstructAiPrompt(f, menuJson), "\n")
            == [Preamble, "", MenuHeading] + SplitOn(menuJson, "\n")
               + ["", PreferencesHeading] + PreferenceLines(f) + ["", Closing]
  {
    ShownValuesAreOneLine(f);
    FixedTextsAreOneLine();
    PeopleLabelIsOneLine();
    FoodsLabelIsOneLine();
    DietLabelIsOneLine();
    CoursesLabelIsOneLine();
    BudgetLabelIsOneLine();
    RestrictionsLabelIsOneLine();
    SpiceLabelIsOneLine();
    BuiltPromptLines(Preamble, MenuHeading, menuJson, PreferencesHeading,
                     PeopleLabel, f.people, FoodsLabel, OrElse(f.favFoods, "Not specified"),
                     DietLabel, f.diet, CoursesLabel, CoursesText(f.courses), BudgetLabel, f.budget,
                     RestrictionsLabel, OrElse(f.restrictions, "None"), SpiceLabel, f.spice, Closing);
  }

  /** The line list shows the defaulted preferences where a prompt puts them:
      the favorite-foods line shows the answer when there is one and "Not
      specified" when it is empty, the courses line shows the checked courses
      joined by ", " or "Not specified" when none is checked, and the
      restrictions line shows the answer or "None" when it is empty. The
      preference lines start at position k, and nine lines start there. */
  predicate ShowsDefaults(lines: seq<string>, k: nat, f: FormData) {
    |lines| == k + 9
    && lines[k + 1] == FoodsLabel + (if f.favFoods == "" then "Not specified" else f.favFoods)
    && lines[k + 3] == CoursesLabel + (if f.courses == [] then "Not specified" else Join(f.courses, ", "))
    && lines[k + 5] == RestrictionsLabel + (if f.restrictions == "" then "None" else f.restrictions)
  }

  /** In the lines of the prompt built for a one-line form, the preference
      lines come after the five fixed lines around the menu and the menu
      text's own lines, and each empty answer appears there as its default:
      "Not specified" for favorite foods and for courses, "None" for
      restrictions. */
  lemma PromptDefaults(f: FormData, menuJson: string, lines: seq<string>, menuLines: seq<string>)
    requires OneLineForm(f)
    requires lines == SplitOn(ConstructAiPrompt(f, menuJson), "\n")
    requires menuLines == SplitOn(menuJson, "\n")
    ensures ShowsDefaults(lines, |menuLines| + 5, f)
  {
    PromptLines(f, menuJson);
    DefaultedLines(lines, menuLines, f);
  }

  /** Reads the defaulted preference lines off a prompt's line list. */
  lemma DefaultedLines(lines: seq<string>, menuLines: seq<string>, f: FormData)
    requires lines == [Preamble, "", MenuHeading] + menuLines
                      + ["", PreferencesHeading] + PreferenceLines(f) + ["", Closing]
    ensures ShowsDefaults(lines, |menuLines| + 5, f)
  {
    var head: seq<string> := [Preamble, "", MenuHeading] + menuLines + ["", PreferencesHeading];
    assert lines == head + PreferenceLines(f) + ["", Closing];
  }

  /** The text in front of the preference lines, whatever the form says. */
  function Opening(menuJson: string): string {
    Preamble + "\n\n" + MenuHeading + "\n" + menuJson + "\n\n" + PreferencesHeading + "\n"
  }

  /** Text built like the prompt starts with its opening and ends with a blank
      line and its closing, whatever the pieces hold. */
  lemma BuiltPromptFrame(preamble: string, heading: string, menuJson: string, prefsHeading: string,
                         a0: string, v0: string, a1: string, v1: string, a2: string, v2: string,
                         a3: string, v3: string, a4: string, v4: string, a5: string, v5: string,
                         a6: string, v6: string, closing: string)
    ensures var p0 := preamble + "\n\n" + heading + "\n" + menuJson + "\n\n" + prefsHeading + "\n";
            var built := p0
                    + a0 + v0 + "\n" + a1 + v1 + "\n" + a2 + v2 + "\n" + a3 + v3 + "\n"
                    + a4 + v4 + "\n" + a5 + v5 + "\n" + a6 + v6 + "\n\n" + closing;
            p0 <= built && EndsWith(built, "\n\n" + closing)
  {
  }

  /** For every form, even one whose answers hold line feeds, the prompt starts
      with the preamble, the menu heading, the menu text and the preferences
      heading, and ends with a blank line and the closing sentence. */
  lemma PromptFrame(f: FormData, menuJson: string)
    ensures Opening(menuJson) <= ConstructAiPrompt(f, menuJson)
    ensures EndsWith(ConstructAiPrompt(f, menuJson), "\n\n" + Closing)
  {
    BuiltPromptFrame(Preamble, MenuHeading, menuJson, PreferencesHeading,
                     PeopleLabel, f.people, FoodsLabel, OrElse(f.favFoods, "Not specified"),
                     DietLabel, f.diet, CoursesLabel, CoursesText(f.courses), BudgetLabel, f.budget,
                     RestrictionsLabel, OrElse(f.restrictions, "None"), SpiceLabel, f.spice, Closing);
  }

  /** Text built like the prompt starts with everything up to the end of its
      second, fourth and sixth preference lines, whatever the pieces hold. */
  lemma BuiltPromptPrefixes(p0: string, a0: string, v0: string, a1: string, v1: string,
                            a2: string, v2: string, a3: string, v3: string, a4: string, v4: string,
                            a5: string, v5: string, a6: string, v6: string, closing: string)
    ensures var upTo1: string := p0 + a0 + v0 + "\n" + a1 + v1 + "\n";
            var upTo3: string := upTo1 + a2 + v2 + "\n" + a3 + v3 + "\n";
            var upTo5: string := upTo3 + a4 + v4 + "\n" + a5 + v5 + "\n";
            var built: string := upTo5 + a6 + v6 + "\n\n" + closing;
            StartsWith(built, upTo1) && StartsWith(built, upTo3) && StartsWith(built, upTo5)
  {
    var upTo1: string := p0 + a0 + v0 + "\n" + a1 + v1 + "\n";
    var upTo3: string := upTo1 + a2 + v2 + "\n" + a3 + v3 + "\n";
    var upTo5: string := upTo3 + a4 + v4 + "\n" + a5 + v5 + "\n";
    var built: string := upTo5 + a6 + v6 + "\n\n" + closing;
    StartsWithIsPrefix(built, upTo1);
    StartsWithIsPrefix(built, upTo3);
    StartsWithIsPrefix(built, upTo5);
  }

  /** For every form, even one whose answers hold line feeds, the prompt's
      favorite-foods line, after the opening and the people line, shows the
      answer, or "Not specified" when it is empty. */
  lemma FoodsLineDefault(f: FormData, menuJson: string)
    ensures var foods: string := if f.favFoods == "" then "Not specified" else f.favFoods;
            StartsWith(ConstructAiPrompt(f, menuJson),
                       Opening(menuJson) + PeopleLabel + f.people + "\n" + FoodsLabel + foods + "\n")
  {
    BuiltPromptPrefixes(Opening(menuJson),
                        PeopleLabel, f.people, FoodsLabel, OrElse(f.favFoods, "Not specified"),
                        DietLabel, f.diet, CoursesLabel, CoursesText(f.courses), BudgetLabel, f.budget,
                        RestrictionsLabel, OrElse(f.restrictions, "None"), SpiceLabel, f.spice, Closing);
  }

  /** For every form, the prompt's courses line, after the diet line, shows the
      checked courses joined by ", ", or "Not specified" when none is checked. */
  lemma CoursesLineDefault(f: FormData, menuJson: string)
    ensures var foods: string := if f.favFoods == "" then "Not specified" else f.favFoods;
            var courses: string := if f.courses == [] then "Not specified" else Join(f.courses, ", ");
            StartsWith(ConstructAiPrompt(f, menuJson),
                       Opening(menuJson) + PeopleLabel + f.people + "\n" + FoodsLabel + foods + "\n"
                       + DietLabel + f.diet + "\n" + CoursesLabel + courses + "\n")
  {
    BuiltPromptPrefixes(Opening(menuJson),
                        PeopleLabel, f.people, FoodsLabel, OrElse(f.favFoods, "Not specified"),
                        DietLabel, f.diet, CoursesLabel, CoursesText(f.courses), BudgetLabel, f.budget,
                        RestrictionsLabel, OrElse(f.restrictions, "None"), SpiceLabel, f.spice, Closing);
  }

  /** For every form, the prompt's restrictions line, after the budget line,
      shows the answer, or "None" when it is empty. */
  lemma RestrictionsLineDefault(f: FormData, menuJson: string)
    ensures var foods: string := if f.favFoods == "" then "Not specified" else f.favFoods;
            var courses: string := if f.courses == [] then "Not specified" else Join(f.courses, ", ");
            var restrictions: string := if f.restrictions == "" then "None" else f.restrictions;
            StartsWith(ConstructAiPrompt(f, menuJson),
                       Opening(menuJson) + PeopleLabel + f.people + "\n" + FoodsLabel + foods + "\n"
                       + DietLabel + f.diet + "\n" + CoursesLabel + courses + "\n"
                       + BudgetLabel + f.budget + "\n" + RestrictionsLabel + restrictions + "\n")
  {
    BuiltPromptPrefixes(Opening(menuJson),
                        PeopleLabel, f.people, FoodsLabel, OrElse(f.favFoods, "Not specified"),
                        DietLabel, f.diet, CoursesLabel, CoursesText(f.courses), BudgetLabel, f.budget,
                        RestrictionsLabel, OrElse(f.restrictions, "None"), SpiceLabel, f.spice, Closing);
  }

  /** The desired-courses value gives the checked courses back, in order, when
      cut at ", " (for course values without a comma). */
  lemma CoursesRecoverable(courses: seq<string>)
    requires courses != []
    requires forall c <- courses :: ',' !in c
    ensures SplitOn(CoursesText(courses), ", ") == courses
  {
    SplitOnJoin(courses, ", ");
  }

  const NotLoadedMessage: string := "Menu data is not loaded yet. Please try again in a moment."
  const ThinkingMessage: string := "Thinking of a suggestion for you..."
  const LoadFailedMessage: string := "Could not load menu data. The AI assistant is currently unavailable."
  const SuggestionFailedMessage: string := "Sorry, I was unable to get a suggestion. Please try again."

  /** The page state js/ai.js keeps: the loaded menu, the result area, and the
      prompts handed to the suggestion endpoint so far. */
  class AiAssistant {
    var menuData: Catalog
    var resultText: string
    var resultShown: bool
    var sentPrompts: seq<string>

    /** The page before `loadMenuData` has finished: `menuData` is `{}`. */
    constructor ()
      ensures menuData == [] && resultText == "" && !resultShown && sentPrompts == []
    {
      menuData := [];
      resultText := "";
      resultShown := false;
      sentPrompts := [];
    }

    /** The assignment `menuData = await response.json()` once the menu has arrived. */
    method MenuDataLoaded(data: Catalog)
      modifies this`menuData
      ensures menuData == data
    {
      menuData := data;
    }

    /** The `catch` of `loadMenuData`: the menu stays empty and the result area
        gets the unavailable message, without being made visible. */
    method MenuDataLoadFailed()
      modifies this`resultText
      ensures resultText == LoadFailedMessage
    {
      resultText := LoadFailedMessage;
    }

    /** The synchronous part of `getAiSuggestion`: the placeholder text is shown
        and the prompt is handed to the suggestion endpoint. */
    method GetAiSuggestion(prompt: string)
      modifies this`resultText, this`resultShown, this`sentPrompts
      ensures resultText == ThinkingMessage && resultShown
      ensures sentPrompts == old(sentPrompts) + [prompt]
    {
      resultText := ThinkingMessage;
      resultShown := true;
      sentPrompts := sentPrompts + [prompt];
    }

    /** The end of `getAiSuggestion` when the endpoint answered: its suggestion
        replaces the placeholder. */
    method SuggestionArrived(suggestion: string)
      modifies this`resultText
      ensures resultText == suggestion
    {
      resultText := suggestion;
    }

    /** The end of `getAiSuggestion` when the request or the response failed. */
    method SuggestionFailed()
      modifies this`resultText
      ensures resultText == SuggestionFailedMessage
    {
      resultText := SuggestionFailedMessage;
    }

    /** The questionnaire's submit handler. With an empty menu it only shows the
        not-loaded message; otherwise it sends exactly one prompt, built from the
        form and the serialized menu. */
    method Submit(formData: FormData, stringify: Catalog -> string)
      modifies this`resultText, this`resultShown, this`sentPrompts
      ensures resultShown
      ensures menuData == [] ==> resultText == NotLoadedMessage && sentPrompts == old(sentPrompts)
      ensures menuData != [] ==>
                resultText == ThinkingMessage
                && sentPrompts == old(sentPrompts) + [ConstructAiPrompt(formData, stringify(menuData))]
    {
      if |menuData| == 0 {
        resultText := NotLoadedMessage;
        resultShown := true;
        return;
      }
      var prompt := ConstructAiPrompt(formData, stringify(menuData));
      GetAiSuggestion(prompt);
    }
  }
}
