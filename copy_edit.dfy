/** The product copy editor: the modal that holds the open product, filling the
    copy prompt's placeholders from it, the word and character counter of a
    generation, and saving the final description into the open product. */
module ProductCopyEdit {
  import opened Js
  import opened Schema

  const TitlePlaceholder: string := "{title}"
  const CaptionPlaceholder: string := "{caption}"
  const CategoryPlaceholder: string := "{category}"

  const NoTitle: string := "No product title"
  const NoCaption: string := "No product caption"
  const NoLabels: string := "No product labels"

  /** The text before the title placeholder in the default copy prompt. */
  const DefaultPromptIntro: string :=
    "Please make a brief " + "product description; " + "at most two sentences. " + "Product Title: "
  const CaptionIntro: string := " Product Caption: "
  const CategoryIntro: string := " Product Category: "

  /** The initial value of productCopyPrompt. */
  const DefaultPromptTemplate: string :=
    DefaultPromptIntro + TitlePlaceholder + CaptionIntro + CaptionPlaceholder + CategoryIntro + CategoryPlaceholder

  // ---------------------------------------------------------------------------
  // Placeholder values

  /** `openSignal.value?.name ?? "No product title"` */
  function TitleValue(open: Option<Product>): (r: string)
    ensures open.Some? && open.value.name.Str? ==> r == open.value.name.s
    ensures open.None? || !open.value.name.Str? ==> r == NoTitle
  {
    if open.Some? then Coalesce(open.value.name, NoTitle) else NoTitle
  }

  /** `openSignal.value?.imageDescription ?? "No product caption"` */
  function CaptionValue(open: Option<Product>): (r: string)
    ensures open.Some? && open.value.imageDescription.Str? ==> r == open.value.imageDescription.s
    ensures open.None? || !open.value.imageDescription.Str? ==> r == NoCaption
  {
    if open.Some? then Coalesce(open.value.imageDescription, NoCaption) else NoCaption
  }

  /** `openSignal.value?.labels?.join(" ") ?? "No product labels"`: an empty label
      list joins to "", which `??` keeps. */
  function CategoryValue(open: Option<Product>): (r: string)
    ensures open.Some? && open.value.labels.Some? ==>
      r == JoinValues(open.value.labels.value, " ") &&
      forall k :: 0 <= k < |open.value.labels.value| && open.value.labels.value[k].Str? ==>
        Contains(r, open.value.labels.value[k].s)
    ensures open.None? || open.value.labels.None? ==> r == NoLabels
  {
    if open.Some? && open.value.labels.Some? then
      JoinValuesContains(open.value.labels.value, " ");
      JoinValues(open.value.labels.value, " ")
    else NoLabels
  }

  // ---------------------------------------------------------------------------
  // Filling the prompt

  /** The three `replace` calls on given values, each on the first occurrence of
      its placeholder, title first, then caption, then category; the values are
      inserted literally. */
  function FillWith(template: string, title: string, caption: string, category: string): string {
    var t1 := ReplaceFirst(template, TitlePlaceholder, title);
    var t2 := ReplaceFirst(t1, CaptionPlaceholder, caption);
    ReplaceFirst(t2, CategoryPlaceholder, category)
  }

  /** The prompt sent for the open product. */
  function FillPrompt(template: string, open: Option<Product>): (r: string)
    ensures open.None? ==> r == FillWith(template, NoTitle, NoCaption, NoLabels)
  {
    FillWith(template, TitleValue(open), CaptionValue(open), CategoryValue(open))
  }

  /** A template without placeholders is sent as it is. */
  lemma FillPromptWithoutPlaceholders(template: string, open: Option<Product>)
    requires !Contains(template, TitlePlaceholder)
    requires !Contains(template, CaptionPlaceholder)
    requires !Contains(template, CategoryPlaceholder)
    ensures FillPrompt(template, open) == template
  {
    assert IndexOf(template, TitlePlaceholder).None?;
    assert IndexOf(template, CaptionPlaceholder).None?;
    assert IndexOf(template, CategoryPlaceholder).None?;
  }

  /** Replacing the title placeholder of a template in the default layout. */
  lemma ReplaceTitleStep(a: string, b: string, c: string, title: string)
    requires '{' !in a
    ensures ReplaceFirst(a + TitlePlaceholder + b + CaptionPlaceholder + c + CategoryPlaceholder, TitlePlaceholder, title)
      == a + title + b + CaptionPlaceholder + c + CategoryPlaceholder
  {
    var rest := b + CaptionPlaceholder + c + CategoryPlaceholder;
    assert a + TitlePlaceholder + b + CaptionPlaceholder + c + CategoryPlaceholder == a + TitlePlaceholder + rest;
    ReplaceFirstAfterPrefix(a, TitlePlaceholder, rest, title);
    assert a + title + rest == a + title + b + CaptionPlaceholder + c + CategoryPlaceholder;
  }

  /** Replacing the caption placeholder once the title is in. */
  lemma ReplaceCaptionStep(front: string, c: string, caption: string)
    requires '{' !in front
    ensures ReplaceFirst(front + CaptionPlaceholder + c + CategoryPlaceholder, CaptionPlaceholder, caption)
      == front + caption + c + CategoryPlaceholder
  {
    var rest := c + CategoryPlaceholder;
    assert front + CaptionPlaceholder + c + CategoryPlaceholder == front + CaptionPlaceholder + rest;
    ReplaceFirstAfterPrefix(front, CaptionPlaceholder, rest, caption);
    assert front + caption + rest == front + caption + c + CategoryPlaceholder;
  }

  /** Replacing the category placeholder once the title and caption are in. */
  lemma ReplaceCategoryStep(front: string, category: string)
    requires '{' !in front
    ensures ReplaceFirst(front + CategoryPlaceholder, CategoryPlaceholder, category) == front + category
  {
    assert front + CategoryPlaceholder == front + CategoryPlaceholder + "";
    ReplaceFirstAfterPrefix(front, CategoryPlaceholder, "", category);
    assert front + category + "" == front + category;
  }

  /** A template holding the three placeholders once each, in order, with no `{`
      elsewhere before the last one, gets each value where its placeholder stood, as
      long as the title and the caption hold no `{` themselves (a value holding a
      later placeholder would have that placeholder replaced inside it). */
  lemma FillWithInOrder(a: string, b: string, c: string, title: string, caption: string, category: string)
    requires '{' !in a && '{' !in b && '{' !in c && '{' !in title && '{' !in caption
    ensures FillWith(a + TitlePlaceholder + b + CaptionPlaceholder + c + CategoryPlaceholder, title, caption, category)
      == a + title + b + caption + c + category
  {
    ReplaceTitleStep(a, b, c, title);
    ReplaceCaptionStep(a + title + b, c, caption);
    ReplaceCategoryStep(a + title + b + caption + c, category);
  }

  /** The default prompt filled in: the title, caption and category stand where
      their placeholders stood. */
  lemma FillDefaultPrompt(open: Option<Product>)
    requires '{' !in TitleValue(open) && '{' !in CaptionValue(open)
    ensures FillPrompt(DefaultPromptTemplate, open) ==
      DefaultPromptIntro + TitleValue(open) + CaptionIntro + CaptionValue(open) + CategoryIntro + CategoryValue(open)
  {
    assert '{' !in "Please make a brief ";
    assert '{' !in "product description; ";
    assert '{' !in "at most two sentences. ";
    assert '{' !in "Product Title: ";
    assert '{' !in CaptionIntro && '{' !in CategoryIntro;
    FillWithInOrder(DefaultPromptIntro, CaptionIntro, CategoryIntro, TitleValue(open), CaptionValue(open), CategoryValue(open));
  }

  /** With no product open every placeholder of the default prompt gets its fallback. */
  lemma FillDefaultPromptWithoutProduct()
    ensures FillPrompt(DefaultPromptTemplate, None) ==
      DefaultPromptIntro + NoTitle + CaptionIntro + NoCaption + CategoryIntro + NoLabels
  {
    assert '{' !in NoTitle && '{' !in NoCaption;
    FillDefaultPrompt(None);
  }

  // ---------------------------------------------------------------------------
  // `replace` as the code calls it: a string replacement is a pattern

  /** GetSubstitution for a string pattern (ECMAScript, String.prototype.replace):
      `$$` stands for `$`, `$&` for the matched text, `` $` `` for the text before the
      match and `$'` for the text after it; any other `$` is kept. */
  function ExpandReplacement(rep: string, matched: string, before: string, after: string): string
    decreases |rep|
  {
    if |rep| == 0 then ""
    else if rep[0] == '$' && |rep| >= 2 && rep[1] == '$' then "$" + ExpandReplacement(rep[2..], matched, before, after)
    else if rep[0] == '$' && |rep| >= 2 && rep[1] == '&' then matched + ExpandReplacement(rep[2..], matched, before, after)
    else if rep[0] == '$' && |rep| >= 2 && rep[1] == '`' then before + ExpandReplacement(rep[2..], matched, before, after)
    else if rep[0] == '$' && |rep| >= 2 && rep[1] == '\'' then after + ExpandReplacement(rep[2..], matched, before, after)
    else [rep[0]] + ExpandReplacement(rep[1..], matched, before, after)
  }

  /** `s.replace(pat, rep)` with the replacement expanded. */
  function ReplaceAsWritten(s: string, pat: string, rep: string): string {
    match IndexOf(s, pat)
    case None => s
    case Some(i) => s[..i] + ExpandReplacement(rep, pat, s[..i], s[i + |pat|..]) + s[i + |pat|..]
  }

  /** The three `replace` calls exactly as the editor makes them. With no product
      open the fallbacks hold no `$`, so the prompt comes out as intended. */
  function FillPromptAsWritten(template: string, open: Option<Product>): (r: string)
    ensures open.None? ==> r == FillPrompt(template, open)
  {
    if open.None? then
      assert '$' !in NoTitle && '$' !in NoCaption && '$' !in NoLabels;
      var t1 := ReplaceAsWritten(template, TitlePlaceholder, NoTitle);
      ReplaceAsWrittenLiteral(template, TitlePlaceholder, NoTitle);
      var t2 := ReplaceAsWritten(t1, CaptionPlaceholder, NoCaption);
      ReplaceAsWrittenLiteral(t1, CaptionPlaceholder, NoCaption);
      ReplaceAsWrittenLiteral(t2, CategoryPlaceholder, NoLabels);
      ReplaceAsWritten(t2, CategoryPlaceholder, NoLabels)
    else
    var t1 := ReplaceAsWritten(template, TitlePlaceholder, TitleValue(open));
    var t2 := ReplaceAsWritten(t1, CaptionPlaceholder, CaptionValue(open));
    ReplaceAsWritten(t2, CategoryPlaceholder, CategoryValue(open))
  }

  /** A replacement without `$` is inserted literally. */
  lemma {:induction false} ExpandLiteral(rep: string, matched: string, before: string, after: string)
    requires '$' !in rep
    ensures ExpandReplacement(rep, matched, before, after) == rep
  {
    if |rep| > 0 {
      assert rep[0] != '$';
      ExpandLiteral(rep[1..], matched, before, after);
      assert rep == [rep[0]] + rep[1..];
    }
  }

  /** `replace` with a replacement free of `$` is the literal replacement. */
  lemma ReplaceAsWrittenLiteral(s: string, pat: string, rep: string)
    requires '$' !in rep
    ensures ReplaceAsWritten(s, pat, rep) == ReplaceFirst(s, pat, rep)
  {
    match IndexOf(s, pat) {
      case None =>
      case Some(i) => ExpandLiteral(rep, pat, s[..i], s[i + |pat|..]);
    }
  }

  /** When no value holds a `$`, the editor fills the prompt as intended. */
  lemma FillPromptAsWrittenWithoutDollar(template: string, open: Option<Product>)
    requires '$' !in TitleValue(open) && '$' !in CaptionValue(open) && '$' !in CategoryValue(open)
    ensures FillPromptAsWritten(template, open) == FillPrompt(template, open)
  {
    var t1 := ReplaceAsWritten(template, TitlePlaceholder, TitleValue(open));
    ReplaceAsWrittenLiteral(template, TitlePlaceholder, TitleValue(open));
    var t2 := ReplaceAsWritten(t1, CaptionPlaceholder, CaptionValue(open));
    ReplaceAsWrittenLiteral(t1, CaptionPlaceholder, CaptionValue(open));
    ReplaceAsWrittenLiteral(t2, CategoryPlaceholder, CategoryValue(open));
  }

  /** The editor as written also sends a template without placeholders unchanged,
      whatever `$` the values hold. */
  lemma FillPromptAsWrittenWithoutPlaceholders(template: string, open: Option<Product>)
    requires !Contains(template, TitlePlaceholder)
    requires !Contains(template, CaptionPlaceholder)
    requires !Contains(template, CategoryPlaceholder)
    ensures FillPromptAsWritten(template, open) == template
  {
    assert IndexOf(template, TitlePlaceholder).None?;
    assert IndexOf(template, CaptionPlaceholder).None?;
    assert IndexOf(template, CategoryPlaceholder).None?;
  }

  /** A product named `$&` puts the placeholder itself back into the prompt instead
      of its name. */
  lemma DollarPatternInTitle(p: Product)
    requires p.name == Str("$&")
    ensures FillPromptAsWritten(TitlePlaceholder, Some(p)) == TitlePlaceholder
    ensures FillPrompt(TitlePlaceholder, Some(p)) == "$&"
  {
    var open := Some(p);
    assert OccursAt(TitlePlaceholder, TitlePlaceholder, 0);
    assert TitlePlaceholder[..0] == "" && TitlePlaceholder[|TitlePlaceholder|..] == "";
    assert ReplaceAsWritten(TitlePlaceholder, TitlePlaceholder, "$&") == TitlePlaceholder;
    assert ReplaceFirst(TitlePlaceholder, TitlePlaceholder, "$&") == "$&";
  }

  // ---------------------------------------------------------------------------
  // The counter of a generation

  datatype Message = Message(role: string, content: string)

  /** The text the counter measures: the last message's content when the assistant
      wrote it, "" otherwise (no messages, or the last one is the user's or system's). */
  function LastMessageContent(messages: seq<Message>): (r: string)
    ensures |messages| > 0 && messages[|messages| - 1].role == "assistant" ==> r == messages[|messages| - 1].content
    ensures |messages| == 0 || messages[|messages| - 1].role != "assistant" ==> r == ""
  {
    if |messages| > 0 && messages[|messages| - 1].role == "assistant" then messages[|messages| - 1].content else ""
  }

  /** `content.split(" ").length - 1` */
  function NumWords(content: string): int {
    |Split(content, ' ')| - 1
  }

  /** `content.length` */
  function NumChars(content: string): nat {
    |content|
  }

  /** numTokensString */
  function CounterLabel(content: string): (r: string)
    ensures r == "" || (r[0] == '(' && r[|r| - 1] == ')')
  {
    var numWords := NumWords(content);
    if numWords > 0 then "(" + IntToString(NumChars(content)) + " Characters, " + IntToString(numWords) + " Words)"
    else ""
  }

  /** The word count is the number of spaces, so it is never negative. */
  lemma NumWordsCountsSpaces(content: string)
    ensures NumWords(content) == Count(content, ' ')
    ensures NumWords(content) >= 0
  {
    SplitLength(content, ' ');
  }

  /** No spaces, no separators. */
  lemma {:induction false} CountZeroIff(s: string, c: char)
    ensures Count(s, c) == 0 <==> c !in s
  {
    if |s| > 0 {
      CountZeroIff(s[1..], c);
      assert s == [s[0]] + s[1..];
    }
  }

  /** The counter is shown exactly when the content holds a space, and then it
      opens with the character count. */
  lemma CounterLabelEmptyIff(content: string)
    ensures CounterLabel(content) == "" <==> ' ' !in content
    ensures ' ' in content ==>
      CounterLabel(content)[..1 + |IntToString(|content|)|] == "(" + IntToString(|content|)
    ensures ' ' in content ==>
      CounterLabel(content) == "(" + IntToString(|content|) + " Characters, " + IntToString(Count(content, ' ')) + " Words)"
  {
    NumWordsCountsSpaces(content);
    CountZeroIff(content, ' ');
  }

  // ---------------------------------------------------------------------------
  // The modal

  /** ProductEditModal's state: the product in openSignal, if any. */
  class EditModal {
    var openProduct: Option<Product>

    constructor ()
      ensures openProduct == None
    {
      openProduct := None;
    }

    /** The dialog is open exactly when a product is held. */
    function IsOpen(): (r: bool)
      reads this
      ensures r <==> openProduct.Some?
    {
      openProduct != None
    }

    /** A row's edit action puts (a validated copy of) the product in the signal. */
    method Show(p: Product)
      modifies this
      ensures openProduct == Some(p)
    {
      openProduct := Some(p);
    }

    /** setOpenF: a close request empties the signal; an open request changes nothing. */
    method OnOpenChange(open: bool)
      modifies this
      ensures !open ==> openProduct == None && !IsOpen()
      ensures open ==> openProduct == old(openProduct)
    {
      if !open {
        openProduct := None;
      }
    }

    /** The save handler: with a non-empty final description and a product open, the
        product's provided description becomes the final description; nothing else
        of the product changes. */
    method SaveDescription(finalDescription: string)
      modifies this
      ensures finalDescription == "" || old(openProduct).None? ==> openProduct == old(openProduct)
      ensures finalDescription != "" && old(openProduct).Some? ==>
        openProduct == Some(old(openProduct).value.(providedDescription := Str(finalDescription)))
    {
      if finalDescription != "" && openProduct.Some? {
        var p := openProduct.value;
        if p.providedDescription != Str(finalDescription) {
          openProduct := Some(p.(providedDescription := Str(finalDescription)));
        }
      }
    }
  }
}
