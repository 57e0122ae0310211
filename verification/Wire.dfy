/** A stored message as the canonical request holds it: string content, or parts with images. */
module Wire {
  import opened Messages

  type Text = seq<bv8>

  datatype Part = TextPart(text: Text) | ImagePart(image: Attachment)

  datatype Payload = Absent | Str(text: Text) | Parts(parts: seq<Part>)

  /** content_to_parts: the text, unless empty, then one part per image. */
  function ImageParts(images: seq<Attachment>): seq<Part> {
    seq(|images|, i requires 0 <= i < |images| => ImagePart(images[i]))
  }

  /** clm_message_to_json; packed content appears unpacked. */
  function WireContent(m: Message): Payload {
    var text := if m.content.Null? then [] else m.content.bytes;
    if m.attachments == [] then (if m.content.Null? then Absent else Str(text))
    else Parts((if text == [] then [] else [TextPart(text)]) + ImageParts(m.attachments))
  }

  // ------------------------------------------------------ what a message holds

  datatype Atom = Says(text: Text) | Shows(image: Attachment)

  function Shown(images: seq<Attachment>): seq<Atom> {
    if images == [] then [] else [Shows(images[0])] + Shown(images[1..])
  }

  /** The stored text, if any, and the attachments. */
  function Stuff(m: Message): seq<Atom> {
    (if m.content.Null? || m.content.bytes == [] then [] else [Says(m.content.bytes)]) + Shown(m.attachments)
  }

  function ReadText(t: Text): seq<Atom> { if t == [] then [] else [Says(t)] }

  function ReadParts(parts: seq<Part>): seq<Atom> {
    if parts == [] then []
    else (match parts[0] case TextPart(t) => ReadText(t) case ImagePart(a) => [Shows(a)]) + ReadParts(parts[1..])
  }

  function ReadPayload(c: Payload): seq<Atom> {
    match c
    case Absent => []
    case Str(t) => ReadText(t)
    case Parts(ps) => ReadParts(ps)
  }

  lemma {:induction false} ReadImageParts(images: seq<Attachment>)
    ensures ReadParts(ImageParts(images)) == Shown(images)
    decreases |images|
  {
    if images != [] {
      assert ImageParts(images)[1..] == ImageParts(images[1..]);
      ReadImageParts(images[1..]);
    }
  }

  /** The request holds what the message does. */
  lemma {:induction false} PayloadHolds(m: Message)
    ensures ReadPayload(WireContent(m)) == Stuff(m)
  {
    var t := if m.content.Null? then [] else m.content.bytes;
    assert ReadText(t) + [] == ReadText(t);
    ReadImageParts(m.attachments);
    if t == [] {
      assert [] + ImageParts(m.attachments) == ImageParts(m.attachments) && [] + Shown(m.attachments) == Shown(m.attachments);
    } else {
      assert ([TextPart(t)] + ImageParts(m.attachments))[1..] == ImageParts(m.attachments);
    }
  }
}
