/**
 * The query classifier's local rules: whether a question asks for image
 * analysis, the specialised prompt for a query category with its optional
 * context, and the listing of the categories given to the language model.
 * The language-model calls themselves are not part of this model.
 */
module Classifier {
  import opened Common
  import opened Text
  import opened Ranking

  // ---------------------------------------------------------------------
  // Image analysis detection

  const IMAGE_KEYWORDS: seq<string> := [
    "photo", "picture", "image", "show", "look", "check",
    "analyze", "examine", "see", "visual", "camera"]

  /** True exactly when some image keyword occurs anywhere in the lower-cased query. */
  function IsImageAnalysisRequired(query: string): (b: bool)
    ensures b <==> exists k :: k in IMAGE_KEYWORDS && Contains(ToLower(query), k)
  {
    MentionsAny(query, IMAGE_KEYWORDS)
  }

  /** Matching is by substring: "seeds" asks for image analysis because it contains "see". */
  lemma SeedsMentionSee()
    ensures IsImageAnalysisRequired("seeds")
  {
    assert ToLower("seeds") == "seeds";
    assert "see" <= "seeds";
    assert "see" in IMAGE_KEYWORDS;
  }

  /** Matching ignores case. */
  lemma UpperCaseLookCounts()
    ensures IsImageAnalysisRequired("LOOK")
  {
    assert ToLower("LOOK") == "look";
    assert "look" in IMAGE_KEYWORDS;
  }

  // ---------------------------------------------------------------------
  // Query categories

  datatype CategoryInfo = CategoryInfo(name: string, keywords: seq<string>, description: string)

  /**
   * The six categories in declaration order. Descriptions, like some prompt
   * lines below, are written as concatenations of short literals: the text
   * is the same, and the verifier unfolds short literals far more cheaply
   * when it reasons about single characters (line breaks, blanks).
   */
  const CATEGORIES: seq<CategoryInfo> := [
    CategoryInfo("foraging", ["food", "nectar", "pollen", "water", "feeding", "flowers", "plants"],
                 "Queries about bee " + "foraging behavior " + "and resources"),
    CategoryInfo("hive_management", ["hive", "placement", "location", "relocation", "maintenance"],
                 "Questions about " + "hive placement and " + "management"),
    CategoryInfo("productivity", ["honey", "yield", "production", "harvest", "efficiency"],
                 "Queries about honey " + "production and hive " + "productivity"),
    CategoryInfo("environmental", ["weather", "season", "temperature", "rain", "drought"],
                 "Questions about " + "environmental " + "factors affecting " + "bees"),
    CategoryInfo("health", ["disease", "pests", "competitors", "parasites", "health"],
                 "Queries about bee " + "health and threats"),
    CategoryInfo("analysis", ["analyze", "check", "examine", "photo", "picture", "image"],
                 "Requests for " + "analysis of images " + "or data")]

  /** `{name}: {description} (Keywords: {k1, k2, ...})`. */
  function CategoryLine(c: CategoryInfo): string {
    c.name + ": " + c.description + " (Keywords: " + Join(c.keywords, ", ") + ")"
  }

  /** A join of pieces free of a character, with a separator free of it, is free of it. */
  lemma {:induction false} JoinAvoids(parts: seq<string>, sep: string, c: char)
    requires c !in sep
    requires forall i :: 0 <= i < |parts| ==> c !in parts[i]
    ensures c !in Join(parts, sep)
  {
    if |parts| > 1 {
      JoinAvoids(parts[1..], sep, c);
    }
  }

  lemma {:induction false} CategoryLineHasNoBreak(c: CategoryInfo)
    requires NoBreaks(c)
    ensures '\n' !in CategoryLine(c)
  {
    JoinAvoids(c.keywords, ", ", '\n');
  }

  predicate NoBreaks(c: CategoryInfo) {
    '\n' !in c.name && '\n' !in c.description && forall i :: 0 <= i < |c.keywords| ==> '\n' !in c.keywords[i]
  }

  lemma Category0HasNoBreaks()
    ensures NoBreaks(CATEGORIES[0])
  {
    assert '\n' !in "foraging";
    assert '\n' !in "Queries about bee ";
    assert '\n' !in "foraging behavior ";
    assert '\n' !in "and resources";
    assert '\n' !in "food";
    assert '\n' !in "nectar";
    assert '\n' !in "pollen";
    assert '\n' !in "water";
    assert '\n' !in "feeding";
    assert '\n' !in "flowers";
    assert '\n' !in "plants";
  }

  lemma Category1HasNoBreaks()
    ensures NoBreaks(CATEGORIES[1])
  {
    assert '\n' !in "hive_management";
    assert '\n' !in "Questions about ";
    assert '\n' !in "hive placement and ";
    assert '\n' !in "management";
    assert '\n' !in "hive";
    assert '\n' !in "placement";
    assert '\n' !in "location";
    assert '\n' !in "relocation";
    assert '\n' !in "maintenance";
  }

  lemma Category2HasNoBreaks()
    ensures NoBreaks(CATEGORIES[2])
  {
    assert '\n' !in "productivity";
    assert '\n' !in "Queries about honey ";
    assert '\n' !in "production and hive ";
    assert '\n' !in "productivity";
    assert '\n' !in "honey";
    assert '\n' !in "yield";
    assert '\n' !in "production";
    assert '\n' !in "harvest";
    assert '\n' !in "efficiency";
  }

  lemma Category3HasNoBreaks()
    ensures NoBreaks(CATEGORIES[3])
  {
    assert '\n' !in "environmental";
    assert '\n' !in "Questions about ";
    assert '\n' !in "environmental ";
    assert '\n' !in "factors affecting ";
    assert '\n' !in "bees";
    assert '\n' !in "weather";
    assert '\n' !in "season";
    assert '\n' !in "temperature";
    assert '\n' !in "rain";
    assert '\n' !in "drought";
  }

  lemma Category4HasNoBreaks()
    ensures NoBreaks(CATEGORIES[4])
  {
    assert '\n' !in "health";
    assert '\n' !in "Queries about bee ";
    assert '\n' !in "health and threats";
    assert '\n' !in "disease";
    assert '\n' !in "pests";
    assert '\n' !in "competitors";
    assert '\n' !in "parasites";
    assert '\n' !in "health";
  }

  lemma Category5HasNoBreaks()
    ensures NoBreaks(CATEGORIES[5])
  {
    assert '\n' !in "analysis";
    assert '\n' !in "Requests for ";
    assert '\n' !in "analysis of images ";
    assert '\n' !in "or data";
    assert '\n' !in "analyze";
    assert '\n' !in "check";
    assert '\n' !in "examine";
    assert '\n' !in "photo";
    assert '\n' !in "picture";
    assert '\n' !in "image";
  }

  lemma CategoriesHaveNoBreaks()
    ensures forall i :: 0 <= i < |CATEGORIES| ==> '\n' !in CategoryLine(CATEGORIES[i])
  {
    Category0HasNoBreaks();
    Category1HasNoBreaks();
    Category2HasNoBreaks();
    Category3HasNoBreaks();
    Category4HasNoBreaks();
    Category5HasNoBreaks();
    forall i | 0 <= i < |CATEGORIES| ensures '\n' !in CategoryLine(CATEGORIES[i]) {
      CategoryLineHasNoBreak(CATEGORIES[i]);
    }
  }

  /** The categories, one line each in declaration order: splitting at line breaks gives back each category's line. */
  function FormatCategories(): (r: string)
    ensures SplitOn(r, '\n') == MapSeq(CATEGORIES, CategoryLine)
    ensures |SplitOn(r, '\n')| == 6
  {
    var lines := MapSeq(CATEGORIES, CategoryLine);
    CategoriesHaveNoBreaks();
    SplitJoin(lines, '\n');
    Join(lines, "\n")
  }

  // ---------------------------------------------------------------------
  // Specialised prompts

  /** `n` blanks. */
  function Spaces(n: nat): (r: string)
    ensures |r| == n && forall i :: 0 <= i < n ==> r[i] == ' '
  {
    if n == 0 then [] else [' '] + Spaces(n - 1)
  }

  /**
   * A triple-quoted prompt: a line break, each line indented and ended by a
   * line break, and the indentation of the closing quotes.
   */
  datatype PromptText = PromptText(lines: seq<string>, indent: nat, closing: nat)

  function IndentedLines(lines: seq<string>, indent: nat): string {
    if lines == [] then [] else Spaces(indent) + lines[0] + "\n" + IndentedLines(lines[1..], indent)
  }

  function Render(p: PromptText): string {
    "\n" + IndentedLines(p.lines, p.indent) + Spaces(p.closing)
  }

  const FORAGING_PROMPT: PromptText := PromptText([
    "Analyze the foraging aspects considering:",
    "- Distance to water sources",
    "- Available flowering plants",
    "- Time of day",
    "- Weather conditions",
    "Provide specific recommendations for improving foraging efficiency."], 16, 16)

  const HIVE_MANAGEMENT_PROMPT: PromptText := PromptText([
    "Evaluate hive " + "management practices focusing on:",
    "- Hive placement optimization",
    "- Maintenance requirements",
    "- Resource management",
    "- Seasonal adaptations",
    "Suggest practical improvements based on research findings."], 16, 16)

  const PRODUCTIVITY_PROMPT: PromptText := PromptText([
    "Assess productivity factors including:",
    "- Current yield metrics",
    "- Environmental conditions",
    "- Management practices",
    "- Resource availability",
    "Recommend specific actions to enhance productivity."], 16, 16)

  const HEALTH_PROMPT: PromptText := PromptText([
    "Examine health considerations such as:",
    "- Common threats and diseases",
    "- Preventive measures",
    "- Treatment options",
    "- Environmental factors",
    "Provide evidence-based health management advice."], 16, 16)

  const GENERIC_PROMPT: PromptText := PromptText([
    "Analyze the query considering:",
    "- Best practices in beekeeping",
    "- Research findings",
    "- Practical implementation",
    "Provide specific, actionable recommendations."], 12, 8)

  const PROMPT_CATEGORIES: seq<string> := ["foraging", "hive_management", "productivity", "health"]

  /** The prompt of a category with an entry; the generic prompt for any other. */
  function PromptFor(category: string): (p: PromptText)
    ensures category !in PROMPT_CATEGORIES ==> p == GENERIC_PROMPT
    ensures p.lines != [] && p.lines[0] != []
    ensures !IsSpace(p.lines[0][0]) && !IsSpace(p.lines[0][|p.lines[0]| - 1])
  {
    if category == "foraging" then FORAGING_PROMPT
    else if category == "hive_management" then HIVE_MANAGEMENT_PROMPT
    else if category == "productivity" then PRODUCTIVITY_PROMPT
    else if category == "health" then HEALTH_PROMPT
    else GENERIC_PROMPT
  }

  /** Categories the classifier knows but has no prompt for fall back to the generic prompt. */
  lemma UnpromptedCategoriesAreGeneric()
    ensures PromptFor("environmental") == GENERIC_PROMPT
    ensures PromptFor("analysis") == GENERIC_PROMPT
  {
  }

  /** The leading whitespace of a rendered prompt ends right before its first line. */
  lemma {:induction false} RenderOpensWithFirstLine(p: PromptText)
    requires p.lines != [] && p.lines[0] != [] && !IsSpace(p.lines[0][0])
    ensures p.lines[0] <= StripLeft(Render(p))
    ensures !IsSpace(Render(p)[1 + p.indent])
  {
    var first := p.lines[0];
    var rest := "\n" + IndentedLines(p.lines[1..], p.indent) + Spaces(p.closing);
    RenderShape(p, first + rest);
    OpensAfterLead(Spaces(p.indent), first, rest);
  }

  /** A line break and blanks in front of a text starting with `first` strip away to leave that text. */
  lemma OpensAfterLead(lead: string, first: string, rest: string)
    requires forall i :: 0 <= i < |lead| ==> lead[i] == ' '
    requires first != [] && !IsSpace(first[0])
    ensures first <= StripLeft("\n" + (lead + (first + rest)))
    ensures !IsSpace(("\n" + (lead + (first + rest)))[1 + |lead|])
  {
    var t := first + rest;
    var s := "\n" + (lead + t);
    StripLeftOver(lead, t);
    assert s[1..] == lead + t;
    assert StripLeft(s) == StripLeft(lead + t);
  }

  lemma RenderShape(p: PromptText, t: string)
    requires p.lines != []
    requires t == p.lines[0] + "\n" + IndentedLines(p.lines[1..], p.indent) + Spaces(p.closing)
    ensures Render(p) == "\n" + (Spaces(p.indent) + t)
  {
    assert IndentedLines(p.lines, p.indent) == Spaces(p.indent) + p.lines[0] + "\n" + IndentedLines(p.lines[1..], p.indent);
  }

  /** One `key: value` line per context entry, in the context's order. */
  type Context = seq<(string, string)>

  function ContextLine(entry: (string, string)): string { entry.0 + ": " + entry.1 }

  function ContextLines(context: Context): string {
    Join(MapSeq(context, ContextLine), "\n")
  }

  const ADDITIONAL_CONTEXT: string := "\nAdditional Context:\n"

  /**
   * The category's prompt, followed when the context is non-empty by the
   * context block; the whole is stripped. So the result opens with the
   * prompt's first line, and a context block is kept in full except for
   * trailing whitespace.
   */
  function GetSpecializedPrompt(category: string, context: Context): (r: string)
    ensures context == [] ==> r == Strip(Render(PromptFor(category)))
    ensures context != [] ==> r == StripLeft(Render(PromptFor(category))) + (ADDITIONAL_CONTEXT + StripRight(ContextLines(context)))
    ensures PromptFor(category).lines[0] <= r
  {
    var p := PromptFor(category);
    var base := Render(p);
    var full := if context != [] then base + (ADDITIONAL_CONTEXT + ContextLines(context)) else base;
    PromptStrip(p, context);
    Strip(full)
  }

  lemma {:induction false} PromptStrip(p: PromptText, context: Context)
    requires p.lines != [] && p.lines[0] != [] && !IsSpace(p.lines[0][0]) && !IsSpace(p.lines[0][|p.lines[0]| - 1])
    ensures context == [] ==> p.lines[0] <= Strip(Render(p))
    ensures context != [] ==>
              var s := Strip(Render(p) + (ADDITIONAL_CONTEXT + ContextLines(context)));
              && s == StripLeft(Render(p)) + (ADDITIONAL_CONTEXT + StripRight(ContextLines(context)))
              && p.lines[0] <= s
  {
    RenderOpensWithFirstLine(p);
    var base := Render(p);
    if context == [] {
      StripRightKeeps(p.lines[0], StripLeft(base));
    } else {
      ContextStrip(base, 1 + p.indent, context);
      var rest := ADDITIONAL_CONTEXT + StripRight(ContextLines(context));
      assert StripLeft(base) <= StripLeft(base) + rest;
    }
  }

  /** Stripping the right end never cuts into a prefix that ends in a non-space character. */
  lemma StripRightKeeps(first: string, s: string)
    requires first != [] && !IsSpace(first[|first| - 1]) && first <= s
    ensures first <= StripRight(s)
  {
    var r := StripRight(s);
    assert s[|first| - 1] == first[|first| - 1];
    assert |first| <= |r|;
  }

  /** Appending the context block to a text with a non-space character strips only the text's lead and the block's tail. */
  lemma {:induction false} ContextStrip(base: string, i: nat, context: Context)
    requires context != []
    requires i < |base| && !IsSpace(base[i])
    ensures Strip(base + (ADDITIONAL_CONTEXT + ContextLines(context)))
            == StripLeft(base) + (ADDITIONAL_CONTEXT + StripRight(ContextLines(context)))
  {
    ContextTailStrip(context);
    assert ADDITIONAL_CONTEXT[1] == 'A';
    StripAroundBlock(base, i, ADDITIONAL_CONTEXT, ContextLines(context));
  }

  /** `Strip` of a text followed by a headed block, when both the text and the heading hold a non-space character. */
  lemma StripAroundBlock(base: string, i: nat, head: string, block: string)
    requires i < |base| && !IsSpace(base[i])
    requires 1 < |head| && !IsSpace(head[1])
    requires StripRight(head + block) == head + StripRight(block)
    ensures Strip(base + (head + block)) == StripLeft(base) + (head + StripRight(block))
  {
    var tail := head + block;
    StripLeftAppend(base, tail, i);
    StripRightAppend(StripLeft(base), tail, 1);
  }

  /** The context block keeps its heading: its trailing whitespace can only come from the entries. */
  lemma {:induction false} ContextTailStrip(context: Context)
    requires context != []
    ensures StripRight(ADDITIONAL_CONTEXT + ContextLines(context)) == ADDITIONAL_CONTEXT + StripRight(ContextLines(context))
  {
    var lines := MapSeq(context, ContextLine);
    var ctx := ContextLines(context);
    assert ctx == lines[0] || ctx == lines[0] + "\n" + Join(lines[1..], "\n");
    assert lines[0] == context[0].0 + ": " + context[0].1;
    assert ctx[|context[0].0|] == ':';
    StripRightAppend(ADDITIONAL_CONTEXT, ctx, |context[0].0|);
  }
}
