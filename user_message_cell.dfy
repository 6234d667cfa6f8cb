/**
  The user bubble (UserMessageCell.swift): `configure(with:)` decides which
  of the label and the image view a message shows, and with what.
*/
module UserMessageCell {
  import opened Wrappers
  import opened ChatModel

  /** What the cell displays: each view's hidden flag and its content. */
  datatype CellView = CellView(labelHidden: bool, labelText: Option<string>, imageHidden: bool, image: Option<Image>)

  /**
    The decision table of `configure`: the label shows the message's text if
    it has one, the image view shows its first image if it has any, and a
    view is visible exactly when it holds something.
  */
  function Presentation(kind: ChatMessageType): (v: CellView)
    ensures v.labelText == Caption(kind)
    ensures v.image == First(Attachments(kind))
    ensures v.labelHidden <==> v.labelText.None?
    ensures v.imageHidden <==> v.image.None?
  {
    match kind
    case Text(t) => CellView(false, Some(t), true, None)
    case Images(l) =>
      if l == [] then CellView(true, None, true, None) else CellView(true, None, false, Some(l[0]))
    case TextWithImages(t, l) =>
      if l == [] then CellView(false, Some(t), true, None) else CellView(false, Some(t), false, Some(l[0]))
  }

  class UserMessageCell {
    var labelHidden: bool
    var labelText: Option<string>
    var imageHidden: bool
    var image: Option<Image>

    function View(): CellView
      reads this
    {
      CellView(labelHidden, labelText, imageHidden, image)
    }

    /** A cell taken from the reuse queue, still showing whatever it showed before. */
    constructor (previous: CellView)
      ensures View() == previous
    {
      labelHidden := previous.labelHidden;
      labelText := previous.labelText;
      imageHidden := previous.imageHidden;
      image := previous.image;
    }

    /**
      `configure(with:)`: both views are first hidden and emptied, then set
      from the message type alone. The new view depends neither on what the
      cell showed before (so configuring twice equals configuring once) nor
      on the sender, id or timestamp.
    */
    method Configure(message: ChatMessage)
      modifies this
      ensures View() == Presentation(message.kind)
    {
      labelHidden := true;
      imageHidden := true;
      labelText := None;
      image := None;
      match message.kind {
        case Text(t) =>
          labelHidden := false;
          labelText := Some(t);
        case Images(l) =>
          if l == [] {
            return;
          }
          imageHidden := false;
          image := Some(l[0]);
        case TextWithImages(t, l) =>
          labelHidden := false;
          labelText := Some(t);
          if l != [] {
            imageHidden := false;
            image := Some(l[0]);
          }
      }
    }
  }
}
