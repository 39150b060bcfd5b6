/**
 * The post composer: the 280-character budget and its counter, the post
 * guard, posting, discarding on close and removing an attached image.
 */
module CreatePostModal {
  import opened Wrappers
  import opened Decimal

  const MaxChars: int := 280

  /** Characters left in the budget; negative once the text is too long. */
  function CharsLeft(content: string): int {
    MaxChars - |content|
  }

  predicate IsOverLimit(content: string) {
    CharsLeft(content) < 0
  }

  predicate IsNearLimit(content: string) {
    CharsLeft(content) <= 20 && CharsLeft(content) >= 0
  }

  /** The three bands, stated on the length: over above 280, near from 260 to 280, and never both. */
  lemma LimitBands(content: string)
    ensures CharsLeft(content) + |content| == 280
    ensures IsOverLimit(content) <==> |content| > 280
    ensures IsNearLimit(content) <==> 260 <= |content| <= 280
    ensures !(IsOverLimit(content) && IsNearLimit(content))
  {
  }

  /** The counter under the text: "+k" when k characters over, otherwise the characters left. */
  function CounterText(content: string): (text: string)
    ensures IsOverLimit(content) ==>
      |text| >= 2 && text[0] == '+' && IsNumeral(text[1..]) && ParseDigits(text[1..]) == |content| - MaxChars
    ensures !IsOverLimit(content) ==> IsNumeral(text) && ParseDigits(text) == CharsLeft(content)
  {
    var left := CharsLeft(content);
    if left < 0 then
      ParseNatToString(-left);
      assert ("+" + NatToString(-left))[1..] == NatToString(-left);
      "+" + NatToString(-left)
    else
      ParseNatToString(left);
      NatToString(left)
  }

  /**
   * The characters that trimming removes. The model uses the ASCII white
   * space, no-break space, the byte-order mark, and the line and paragraph
   * separators.
   */
  predicate IsWhitespace(c: char) {
    c == ' ' || c == '\t' || c == '\n' || c == '\r' || c == '\U{000B}' || c == '\U{000C}'
    || c == '\U{00A0}' || c == '\U{FEFF}' || c == '\U{2028}' || c == '\U{2029}'
  }

  /** The text has no character other than white space. */
  predicate IsBlank(s: string) {
    forall i :: 0 <= i < |s| ==> IsWhitespace(s[i])
  }

  /** The text without its leading white space. */
  function TrimStart(s: string): (r: string)
    ensures |r| <= |s| && r == s[|s| - |r|..]
    ensures IsBlank(s[..|s| - |r|])
    ensures r != [] ==> !IsWhitespace(r[0])
  {
    if s != [] && IsWhitespace(s[0]) then TrimStart(s[1..]) else s
  }

  /** The text without its trailing white space. */
  function TrimEnd(s: string): (r: string)
    ensures |r| <= |s| && r == s[..|r|]
    ensures IsBlank(s[|r|..])
    ensures r != [] ==> !IsWhitespace(r[|r| - 1])
  {
    if s != [] && IsWhitespace(s[|s| - 1]) then TrimEnd(s[..|s| - 1]) else s
  }

  function Trim(s: string): string {
    TrimEnd(TrimStart(s))
  }

  /** `content.trim()` is empty exactly when the text is blank. */
  lemma TrimEmptyIffBlank(s: string)
    ensures Trim(s) == "" <==> IsBlank(s)
  {
  }

  /** The Post button is disabled for blank text, text over the limit, or while a post is in progress. */
  predicate PostDisabled(content: string, isPosting: bool) {
    Trim(content) == "" || IsOverLimit(content) || isPosting
  }

  /** The button state, stated on the text itself. */
  lemma PostDisabledMeans(content: string, isPosting: bool)
    ensures PostDisabled(content, isPosting) <==> IsBlank(content) || |content| > 280 || isPosting
  {
  }

  /** What a post hands to `onPost`. */
  datatype Submission = Submission(content: string, images: seq<string>)

  /** The list with the element at `index` left out (the others in order); unchanged when no element has that index. */
  function RemoveAt<T>(s: seq<T>, index: int): (r: seq<T>)
    ensures 0 <= index < |s| ==> |r| == |s| - 1
    ensures 0 <= index < |s| ==> forall j :: 0 <= j < index ==> r[j] == s[j]
    ensures 0 <= index < |s| ==> forall j :: index <= j < |r| ==> r[j] == s[j + 1]
    ensures !(0 <= index < |s|) ==> r == s
  {
    if s == [] then []
    else if index == 0 then s[1..]
    else [s[0]] + RemoveAt(s[1..], index - 1)
  }

  class Composer {
    var content: string
    var images: seq<string>
    var isPosting: bool

    constructor ()
      ensures content == "" && images == [] && !isPosting
    {
      content := "";
      images := [];
      isPosting := false;
    }

    /** Typing in the text area. */
    method SetContent(value: string)
      modifies this
      ensures content == value && images == old(images) && isPosting == old(isPosting)
    {
      content := value;
    }

    /**
     * Post: nothing happens for blank text or text over the limit; otherwise
     * the text and images go to `onPost`, the form is reset, and the modal
     * asks to close (`closeRequested`).
     */
    method HandlePost() returns (submitted: Option<Submission>, closeRequested: bool)
      modifies this
      ensures old(IsBlank(content) || IsOverLimit(content)) ==>
        submitted == None && !closeRequested
        && content == old(content) && images == old(images) && isPosting == old(isPosting)
      ensures !old(IsBlank(content) || IsOverLimit(content)) ==>
        submitted == Some(Submission(old(content), old(images))) && closeRequested
        && content == "" && images == [] && !isPosting
    {
      TrimEmptyIffBlank(content);
      if Trim(content) == "" || IsOverLimit(content) {
        submitted, closeRequested := None, false;
        return;
      }
      isPosting := true;
      submitted := Some(Submission(content, images));
      content := "";
      images := [];
      isPosting := false;
      closeRequested := true;
    }

    /**
     * Close: with non-blank text and a declined discard confirmation nothing
     * changes; otherwise text and images are cleared and the modal asks to close.
     */
    method HandleClose(confirmDiscard: bool) returns (closeRequested: bool)
      modifies this
      ensures old(!IsBlank(content)) && !confirmDiscard ==>
        !closeRequested && content == old(content) && images == old(images)
      ensures !(old(!IsBlank(content)) && !confirmDiscard) ==>
        closeRequested && content == "" && images == []
      ensures isPosting == old(isPosting)
    {
      TrimEmptyIffBlank(content);
      if Trim(content) != "" && !confirmDiscard {
        return false;
      }
      content := "";
      images := [];
      closeRequested := true;
    }

    /** The remove button on the preview at position `index`. */
    method RemoveImage(index: int)
      modifies this
      ensures images == RemoveAt(old(images), index)
      ensures content == old(content) && isPosting == old(isPosting)
    {
      images := RemoveAt(images, index);
    }
  }
}
