/** LoreIntroController (Assets/Scripts/Screens/Menu/LoreIntroController.cs):
    the intro text screen. It types each paragraph one character at a time,
    then shows the continue button; continue moves to the next paragraph, and
    after the last one the screen fades out and loads the next scene. The fades,
    the audio and the waits between characters are not modelled: a paragraph
    is typed by one loop, and the fade-out is recorded by a flag. */
module LoreIntroController {
  import opened Common

  /** The label after typing the first n characters of a paragraph, one
      `text += c` at a time from the empty string. */
  function Typed(full: string, n: nat): string
    requires n <= |full|
    decreases n
  {
    if n == 0 then "" else Typed(full, n - 1) + [full[n - 1]]
  }

  /** Typing shows the paragraph's prefix, one more character per step. */
  lemma {:induction false} TypedIsPrefix(full: string, n: nat)
    requires n <= |full|
    ensures Typed(full, n) == full[..n]
    ensures |Typed(full, n)| == n
    decreases n
  {
    if n > 0 {
      TypedIsPrefix(full, n - 1);
      assert full[..n] == full[..n - 1] + [full[n - 1]];
    }
  }

  class LoreIntroController {
    var paragraphs: seq<string>
    var currentParagraph: int
    var isTyping: bool
    var loreText: string
    var continueShown: bool
    /** FadeOutAndLoad has been started. */
    var leaving: bool

    /** The paragraph index only ever counts up from 0. */
    predicate Valid()
      reads this
    {
      currentParagraph >= 0
    }

    /** Field initialisers and Awake. */
    constructor (paragraphs: seq<string>)
      ensures this.paragraphs == paragraphs && currentParagraph == 0 && !isTyping
      ensures loreText == "" && !continueShown && !leaving && Valid()
    {
      this.paragraphs := paragraphs;
      currentParagraph := 0;
      isTyping := false;
      loreText := "";
      continueShown := false;
      leaving := false;
    }

    /** StartLore(textos); the fade-in runs before the first paragraph. */
    method StartLore(textos: Option<seq<string>>)
      requires Valid()
      modifies this
      ensures Valid()
      ensures textos.None? || |textos.value| == 0 ==>
                paragraphs == old(paragraphs) && currentParagraph == old(currentParagraph)
                && isTyping == old(isTyping) && loreText == old(loreText)
                && continueShown == old(continueShown) && leaving == old(leaving)
      ensures textos.Some? && |textos.value| > 0 ==>
                paragraphs == textos.value && currentParagraph == 0
                && loreText == textos.value[0] && !isTyping && continueShown && leaving == old(leaving)
    {
      if textos.None? || |textos.value| == 0 { return; }
      paragraphs := textos.value;
      currentParagraph := 0;
      ShowNextParagraph();
    }

    /** ShowNextParagraph: the label grows from empty to the whole paragraph. */
    method ShowNextParagraph()
      requires Valid() && currentParagraph < |paragraphs|
      modifies this`isTyping, this`loreText, this`continueShown
      ensures loreText == paragraphs[currentParagraph]
      ensures !isTyping && continueShown
    {
      isTyping := true;
      loreText := "";
      continueShown := false;
      var fullText := paragraphs[currentParagraph];
      for i := 0 to |fullText|
        invariant isTyping && !continueShown
        invariant loreText == Typed(fullText, i)
      {
        loreText := loreText + [fullText[i]];
      }
      TypedIsPrefix(fullText, |fullText|);
      isTyping := false;
      continueShown := true;
    }

    method OnContinueButton()
      requires Valid()
      modifies this
      ensures Valid()
      ensures old(isTyping) ==>
                currentParagraph == old(currentParagraph) && loreText == old(loreText)
                && continueShown == old(continueShown) && leaving == old(leaving)
      ensures !old(isTyping) ==> currentParagraph == old(currentParagraph) + 1 && paragraphs == old(paragraphs)
      ensures !old(isTyping) && currentParagraph < |paragraphs| ==>
                loreText == paragraphs[currentParagraph] && continueShown && !isTyping && leaving == old(leaving)
      ensures !old(isTyping) && currentParagraph >= |paragraphs| ==>
                leaving && !continueShown && loreText == old(loreText)
    {
      if isTyping { return; }
      continueShown := false;
      currentParagraph := currentParagraph + 1;
      if currentParagraph < |paragraphs| {
        ShowNextParagraph();
      } else {
        leaving := true;
      }
    }
  }
}
