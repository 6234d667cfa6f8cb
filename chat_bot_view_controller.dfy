/**
  The chat screen (ChatBotViewController.swift): the composer state (draft
  text, pending images, input-bar layout) and the message log it appends to.
*/
module ChatBotViewController {
  import opened Wrappers
  import opened ChatModel
  import CameraPicker
  import ComposeView

  // ---------------------------------------------------------------------------
  // Trimming
  // ---------------------------------------------------------------------------

  /**
    `whitespacesAndNewlines` as CoreFoundation implements it: Unicode
    general category Z, the tab, the line breaks U+000A to U+000D and
    U+0085, and also U+200B ZERO WIDTH SPACE, which its whitespace range
    U+2000 to U+200B takes in.
  */
  predicate IsWhitespace(c: char)
  {
    || ('\U{0009}' <= c <= '\U{000D}')
    || c == ' ' || c == '\U{0085}' || c == '\U{00A0}' || c == '\U{1680}'
    || ('\U{2000}' <= c <= '\U{200B}')
    || c == '\U{2028}' || c == '\U{2029}' || c == '\U{202F}' || c == '\U{205F}' || c == '\U{3000}'
  }

  predicate AllWhitespace(s: string)
  {
    forall i :: 0 <= i < |s| ==> IsWhitespace(s[i])
  }

  function TrimLeading(s: string): string
  {
    if s != [] && IsWhitespace(s[0]) then TrimLeading(s[1..]) else s
  }

  function TrimTrailing(s: string): string
  {
    if s != [] && IsWhitespace(s[|s| - 1]) then TrimTrailing(s[..|s| - 1]) else s
  }

  /** `trimmingCharacters(in: .whitespacesAndNewlines)`. */
  function Trimmed(s: string): string
  {
    TrimTrailing(TrimLeading(s))
  }

  /** The send guard: the trimmed text is empty. */
  predicate IsBlank(s: string)
  {
    Trimmed(s) == []
  }

  lemma {:induction false} TrimLeadingEmpty(s: string)
    ensures TrimLeading(s) == [] <==> AllWhitespace(s)
    ensures TrimLeading(s) != [] ==> !IsWhitespace(TrimLeading(s)[0])
  {
    if s != [] && IsWhitespace(s[0]) {
      TrimLeadingEmpty(s[1..]);
      if AllWhitespace(s[1..]) {
        forall i | 0 <= i < |s| ensures IsWhitespace(s[i]) {
          if i > 0 { assert s[i] == s[1..][i - 1]; }
        }
      }
    }
  }

  lemma {:induction false} TrimTrailingKeepsHead(s: string)
    requires s != [] && !IsWhitespace(s[0])
    ensures TrimTrailing(s) != []
  {
    if IsWhitespace(s[|s| - 1]) {
      assert |s| > 1;
      TrimTrailingKeepsHead(s[..|s| - 1]);
    }
  }

  /** A text is blank exactly when every character of it is whitespace. */
  lemma BlankIffAllWhitespace(s: string)
    ensures IsBlank(s) <==> AllWhitespace(s)
  {
    TrimLeadingEmpty(s);
    if TrimLeading(s) != [] {
      TrimTrailingKeepsHead(TrimLeading(s));
    }
  }

  /** A draft of spaces, zero width spaces and line breaks is blank, so sending it does nothing. */
  lemma ZeroWidthSpaceIsBlank()
    ensures IsBlank("\U{200B}")
    ensures IsBlank(" \U{200B}\n")
    ensures !IsBlank("\U{200B}a")
  {
    BlankIffAllWhitespace(" \U{200B}\n");
    BlankIffAllWhitespace("\U{200B}a");
    assert !IsWhitespace("\U{200B}a"[1]);
  }

  // ---------------------------------------------------------------------------
  // Input-bar layout
  // ---------------------------------------------------------------------------

  const TextPadding: real := 15.0
  const MaxTextViewHeight: real := 120.0
  const ImageStripHeight: real := 60.0
  /** The bar's height right after a send. */
  const DefaultBarHeight: real := 60.0
  /** The bar's height set when the screen loads. */
  const InitialBarHeight: real := 50.0

  /** The input bar's height, whether the text view scrolls, and whether the image strip shows. */
  datatype BarLayout = BarLayout(height: real, textScrolls: bool, stripVisible: bool)

  /**
    The rule of `textViewDidChange`: the padded text height plus the strip,
    capped at 120 plus the strip. Equivalently, the text part is clamped to
    120 and the strip adds exactly 60 on top; the text scrolls exactly when
    the padded text alone is over 120.
  */
  function InputBarLayout(measured: real, hasImages: bool): (l: BarLayout)
    ensures l.height == Min(measured + TextPadding, MaxTextViewHeight)
                        + (if hasImages then ImageStripHeight else 0.0)
    ensures l.textScrolls <==> measured + TextPadding > MaxTextViewHeight
    ensures l.stripVisible == hasImages
  {
    var strip := if hasImages then ImageStripHeight else 0.0;
    var raw := measured + TextPadding + strip;
    var cap := MaxTextViewHeight + strip;
    if raw > cap then BarLayout(cap, true, hasImages) else BarLayout(raw, false, hasImages)
  }

  /** The height grows with the text and never passes the cap. */
  lemma InputBarHeightMonotonic(a: real, b: real, hasImages: bool)
    requires a <= b
    ensures InputBarLayout(a, hasImages).height <= InputBarLayout(b, hasImages).height
    ensures InputBarLayout(b, hasImages).height <= MaxTextViewHeight + (if hasImages then ImageStripHeight else 0.0)
  {
  }

  /** Pending images add exactly the strip's 60 points and do not change scrolling. */
  lemma StripAddsItsHeight(measured: real)
    ensures InputBarLayout(measured, true).height == InputBarLayout(measured, false).height + ImageStripHeight
    ensures InputBarLayout(measured, true).textScrolls == InputBarLayout(measured, false).textScrolls
  {
  }

  /**
    The reusable composer reports the same height as this screen's rule
    except with images and a measured text height strictly between 45 and
    105, where it reports 180.
  */
  lemma ComposersAgreeUnlessStripOvershoots(measured: real, hasImages: bool)
    ensures ComposeView.ReportedHeight(measured, hasImages) == InputBarLayout(measured, hasImages).height
        <==> !hasImages || measured <= 45.0 || measured >= 105.0
    ensures hasImages && 45.0 < measured < 105.0 ==> ComposeView.ReportedHeight(measured, hasImages) == 180.0
  {
  }

  // ---------------------------------------------------------------------------
  // Pending-image removal
  // ---------------------------------------------------------------------------

  /**
    `remove(at:)`: drops exactly the element at `index`; the others keep
    their relative order.
  */
  function RemovedAt<T>(s: seq<T>, index: nat): (r: seq<T>)
    requires index < |s|
    ensures |r| == |s| - 1
    ensures forall j :: 0 <= j < index ==> r[j] == s[j]
    ensures forall j :: index <= j < |r| ==> r[j] == s[j + 1]
    ensures multiset(r) + multiset{s[index]} == multiset(s)
  {
    assert s == s[..index] + [s[index]] + s[index + 1..];
    s[..index] + s[index + 1..]
  }

  /** Attaching three images and removing the second leaves the first and the third. */
  lemma RemoveMiddleOfThree(a: Image, b: Image, c: Image)
    ensures RemovedAt([a, b, c], 1) == [a, c]
  {
  }

  // ---------------------------------------------------------------------------
  // The screen
  // ---------------------------------------------------------------------------

  /** What a successful send appends: text with images when images are pending, else text alone. */
  function SentType(text: string, pending: seq<Image>): (kind: ChatMessageType)
    ensures !kind.Images?
    ensures Caption(kind) == Some(text)
    ensures Attachments(kind) == pending
    ensures kind.TextWithImages? <==> pending != []
  {
    if pending != [] then TextWithImages(text, pending) else Text(text)
  }

  class ChatBotViewController {
    /** The text of the message text view. */
    var draftText: string
    var pendingImages: seq<Image>
    var messages: seq<ChatMessage>
    /** `sendBgHeightConstraint.constant`. */
    var inputBarHeight: real
    /** The message text view's `isScrollEnabled`. */
    var textScrolls: bool
    /** The image strip container's `isHidden`. */
    var stripHidden: bool

    /** The screen never logs an image-only message. */
    ghost predicate Valid()
      reads this
    {
      forall i :: 0 <= i < |messages| ==> !messages[i].kind.Images?
    }

    /**
      `viewDidLoad`: an empty log, no pending images, a 50-point bar and a
      non-scrolling text view. The initial text and the strip's visibility
      come from the storyboard.
    */
    constructor (textInStoryboard: string, stripHiddenInStoryboard: bool)
      ensures Valid()
      ensures draftText == textInStoryboard && pendingImages == [] && messages == []
      ensures inputBarHeight == InitialBarHeight && !textScrolls && stripHidden == stripHiddenInStoryboard
    {
      draftText := textInStoryboard;
      pendingImages := [];
      messages := [];
      inputBarHeight := InitialBarHeight;
      textScrolls := false;
      stripHidden := stripHiddenInStoryboard;
    }

    /** `numberOfRowsInSection`: one row per message. */
    function NumberOfRows(): (n: nat)
      reads this
      ensures n == |messages|
    {
      |messages|
    }

    /** `cellForRowAt`: row `row` shows the message at that index. */
    function MessageAt(row: nat): (message: ChatMessage)
      reads this
      requires row < NumberOfRows()
      ensures message == messages[row]
    {
      messages[row]
    }

    /** `numberOfItemsInSection` of the strip: one item per pending image. */
    function NumberOfItems(): (n: nat)
      reads this
      ensures n == |pendingImages|
    {
      |pendingImages|
    }

    /** `cellForItemAt` of the strip: item `item` shows the pending image at that index. */
    function ItemAt(item: nat): (image: Image)
      reads this
      requires item < NumberOfItems()
      ensures image == pendingImages[item]
    {
      pendingImages[item]
    }

    /**
      `insertMessage`: appends at the end; earlier messages are untouched
      and the new row is the old count.
    */
    method InsertMessage(message: ChatMessage) returns (row: nat)
      requires Valid() && !message.kind.Images?
      modifies this`messages
      ensures Valid()
      ensures messages == old(messages) + [message]
      ensures row == old(|messages|) && row < NumberOfRows() && MessageAt(row) == message
    {
      messages := messages + [message];
      row := |messages| - 1;
    }

    /** `addUserMessage`: appends a user text message. */
    method AddUserMessage(text: string, id: Uuid, now: Time)
      requires Valid()
      modifies this`messages
      ensures Valid()
      ensures messages == old(messages) + [ChatMessage(id, User, Text(text), now)]
    {
      var message := ChatMessage(id, User, Text(text), now);
      var _ := InsertMessage(message);
    }

    /** `addBotMessage`: appends a bot text message. */
    method AddBotMessage(text: string, id: Uuid, now: Time)
      requires Valid()
      modifies this`messages
      ensures Valid()
      ensures messages == old(messages) + [ChatMessage(id, Bot, Text(text), now)]
    {
      var message := ChatMessage(id, Bot, Text(text), now);
      var _ := InsertMessage(message);
    }

    /** `sendUserTextWithImages`: appends a user message with text and images. */
    method SendUserTextWithImages(text: string, images: seq<Image>, id: Uuid, now: Time)
      requires Valid()
      modifies this`messages
      ensures Valid()
      ensures messages == old(messages) + [ChatMessage(id, User, TextWithImages(text, images), now)]
    {
      var message := ChatMessage(id, User, TextWithImages(text, images), now);
      var _ := InsertMessage(message);
    }

    /**
      `onClickSendButton`. A blank text (even with images pending) changes
      nothing. Otherwise exactly one user message is appended, carrying the
      untrimmed text and, if any, the pending images in order; then the
      images and the text are cleared, the strip hidden and the bar set to
      60. Clearing the text by assignment does not run the text-change
      handler, so the scroll flag stays as it was.
    */
    method OnClickSendButton(id: Uuid, now: Time)
      requires Valid()
      modifies this
      ensures Valid()
      ensures IsBlank(old(draftText)) ==> unchanged(this)
      ensures !IsBlank(old(draftText)) ==>
        && messages == old(messages) + [ChatMessage(id, User, SentType(old(draftText), old(pendingImages)), now)]
        && pendingImages == [] && draftText == ""
        && inputBarHeight == DefaultBarHeight && stripHidden
        && textScrolls == old(textScrolls)
    {
      if IsBlank(draftText) {
        return;
      }
      var text := draftText;
      if pendingImages != [] {
        SendUserTextWithImages(text, pendingImages, id, now);
        pendingImages := [];
      } else {
        AddUserMessage(text, id, now);
      }
      stripHidden := true;
      draftText := "";
      inputBarHeight := DefaultBarHeight;
    }

    /**
      `textViewDidChange`: lays the bar out for the measured text height
      (the result of `sizeThatFits`) and the current pending images.
    */
    method TextViewDidChange(measured: real)
      modifies this`inputBarHeight, this`textScrolls, this`stripHidden
      ensures var l := InputBarLayout(measured, pendingImages != []);
        inputBarHeight == l.height && textScrolls == l.textScrolls && stripHidden == !l.stripVisible
    {
      var inputBarHeight' := measured + TextPadding;
      stripHidden := true;
      if pendingImages != [] {
        inputBarHeight' := inputBarHeight' + ImageStripHeight;
        stripHidden := false;
      }
      if inputBarHeight' > MaxTextViewHeight + (if pendingImages == [] then 0.0 else ImageStripHeight) {
        inputBarHeight' := MaxTextViewHeight + (if pendingImages == [] then 0.0 else ImageStripHeight);
        textScrolls := true;
      } else {
        textScrolls := false;
      }
      inputBarHeight := inputBarHeight';
    }

    /** The user edits the text; the text view then reports the change. */
    method EditText(text: string, measured: real)
      modifies this
      ensures draftText == text
      ensures pendingImages == old(pendingImages) && messages == old(messages)
      ensures var l := InputBarLayout(measured, pendingImages != []);
        inputBarHeight == l.height && textScrolls == l.textScrolls && stripHidden == !l.stripVisible
    {
      draftText := text;
      TextViewDidChange(measured);
    }

    /**
      `imagePickerManager(_:didSelect:)`: a non-empty selection replaces the
      pending images with the normalized selection, same length and order;
      an empty one leaves them. The bar is laid out again either way.
    */
    method ImagePickerManagerDidSelect(images: seq<Image>, draw: (Image, Size) -> Option<Image>, measured: real)
      requires forall i :: 0 <= i < |images| ==> CameraPicker.Normalizable(images[i])
      modifies this
      ensures images == [] ==> pendingImages == old(pendingImages)
      ensures images != [] ==>
        && |pendingImages| == |images|
        && forall i :: 0 <= i < |images| ==> pendingImages[i] == CameraPicker.SetImageProportional(images[i], draw)
      ensures draftText == old(draftText) && messages == old(messages)
      ensures var l := InputBarLayout(measured, pendingImages != []);
        inputBarHeight == l.height && textScrolls == l.textScrolls && stripHidden == !l.stripVisible
    {
      if |images| > 0 {
        var imageArr: seq<Image> := [];
        for i := 0 to |images|
          invariant |imageArr| == i
          invariant forall k :: 0 <= k < i ==> imageArr[k] == CameraPicker.SetImageProportional(images[k], draw)
        {
          imageArr := imageArr + [CameraPicker.SetImageProportional(images[i], draw)];
        }
        pendingImages := imageArr;
      }
      TextViewDidChange(measured);
    }

    /**
      The strip cell's remove callback: `pendingImages.remove(at:)`, which
      traps on an index out of range. The bar is not laid out again.
    */
    method RemovePendingImage(index: nat)
      requires index < |pendingImages|
      modifies this`pendingImages
      ensures pendingImages == RemovedAt(old(pendingImages), index)
    {
      pendingImages := pendingImages[..index] + pendingImages[index + 1..];
    }
  }

  /**
    A client of the screen: "Hello" with nothing pending is logged as a
    text message; an empty draft with two images pending sends nothing and
    keeps the images.
  */
  method SendScenarios(first: Image, second: Image)
    requires first.pngBytes.None? && second.pngBytes.None?
  {
    var screen := new ChatBotViewController("", true);
    screen.EditText("Hello", 20.0);
    BlankIffAllWhitespace("Hello");
    assert !IsWhitespace("Hello"[0]);
    screen.OnClickSendButton(1, 100);
    assert screen.messages == [ChatMessage(1, User, Text("Hello"), 100)];
    assert screen.pendingImages == [] && screen.inputBarHeight == DefaultBarHeight;

    screen.ImagePickerManagerDidSelect([first, second], (image, size) => None, 20.0);
    assert screen.pendingImages == [first, second];
    screen.EditText("", 20.0);
    screen.OnClickSendButton(2, 200);
    assert |screen.messages| == 1 && screen.pendingImages == [first, second];
  }
}
