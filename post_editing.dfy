/** The toolbar edits that both post dialogs apply to the text being written:
    an emoji, a mention, a link and (in the create dialog) an image marker.
    Each one appends a piece to the text and changes nothing before it. */
module PostEditing {

  datatype Edit =
    | Emoji(native: string)         // `prev + emoji.native`
    | Mention                       // `${prev} @user`
    | Link(url: string)             // `${prev} ${linkUrl}`, only when the link is not empty
    | ImageMarker(fileName: string) // `${prev}\n[Image: ${file.name}]`

  /** The piece an edit appends: nothing for an empty link. */
  function Piece(e: Edit): string
  {
    match e
    case Emoji(native) => native
    case Mention => " @user"
    case Link(url) => if url == "" then "" else " " + url
    case ImageMarker(name) => "\n[Image: " + name + "]"
  }

  /** The text after one edit: the piece goes at the end. */
  function Apply(content: string, e: Edit): string
  {
    content + Piece(e)
  }

  /** The text after a series of edits, applied left to right. */
  function ApplyAll(content: string, edits: seq<Edit>): string
    decreases |edits|
  {
    if edits == [] then content else ApplyAll(Apply(content, edits[0]), edits[1..])
  }

  /** All the pieces of a series of edits, in order. */
  function Pieces(edits: seq<Edit>): string
  {
    if edits == [] then "" else Piece(edits[0]) + Pieces(edits[1..])
  }

  /** A series of edits leaves the original text untouched at the front and
      appends every piece in the order the edits were made. */
  lemma {:induction false} ApplyAllAppendsPieces(content: string, edits: seq<Edit>)
    ensures ApplyAll(content, edits) == content + Pieces(edits)
    decreases |edits|
  {
    if edits != [] {
      var piece, rest := Piece(edits[0]), edits[1..];
      ApplyAllAppendsPieces(content + piece, rest);
      assert ApplyAll(content, edits) == ApplyAll(content + piece, rest);
      assert Pieces(edits) == piece + Pieces(rest);
      assert (content + piece) + Pieces(rest) == content + (piece + Pieces(rest));
    }
  }
}
