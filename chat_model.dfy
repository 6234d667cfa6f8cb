/**
  The chat transcript's data types (ChatModel.swift), together with value
  stand-ins for the UIKit and Foundation types they mention.
*/
module ChatModel {
  import opened Wrappers

  /** A width and a height in points (CGSize). */
  datatype Size = Size(width: real, height: real)

  /**
    A stand-in for UIImage: an opaque pixel content, the size in points, and
    the byte count of the image's PNG encoding (None when `pngData()` fails).
  */
  datatype Image = Image(content: nat, size: Size, pngBytes: Option<nat>)

  /** Opaque stand-ins for Foundation's UUID and Date. */
  type Uuid = nat
  type Time = int

  /** Who a message is attributed to. */
  datatype ChatSender = User | Bot

  /**
    The content of a message: exactly one variant, each with its own payload.
    As in the source, nothing forbids an empty image list.
  */
  datatype ChatMessageType =
    | Text(text: string)
    | Images(images: seq<Image>)
    | TextWithImages(text: string, images: seq<Image>)

  /**
    A message of the transcript. Every field of the Swift struct is a `let`,
    so a datatype value (which never changes) is the faithful rendering.
  */
  datatype ChatMessage = ChatMessage(id: Uuid, sender: ChatSender, kind: ChatMessageType, timestamp: Time)

  /** The text a message carries, if its variant has one. */
  function Caption(kind: ChatMessageType): Option<string>
  {
    match kind
    case Text(t) => Some(t)
    case Images(_) => None
    case TextWithImages(t, _) => Some(t)
  }

  /** The images a message carries; a text-only message carries none. */
  function Attachments(kind: ChatMessageType): seq<Image>
  {
    match kind
    case Text(_) => []
    case Images(l) => l
    case TextWithImages(_, l) => l
  }

  /** The smaller of two numbers (Swift's `min`). */
  function Min(a: real, b: real): (m: real)
    ensures m <= a && m <= b
    ensures m == a || m == b
  {
    if a <= b then a else b
  }

  /** Swift's `Array.first`. */
  function First<T>(s: seq<T>): (r: Option<T>)
    ensures r.None? <==> s == []
    ensures r.Some? ==> r.value in s
  {
    if s == [] then None else Some(s[0])
  }
}
