/** The JavaScript values the game's arrays and globals hold, and the two
    ways a property access in the game's code can go: it yields a value or
    it throws a TypeError (reading a member of `null` or `undefined`). */
module Values {

  datatype Option<T> = None | Some(value: T)

  /** The outcome of an expression that may throw a TypeError. */
  datatype Checked<T> = Ok(value: T) | TypeError

  /** An element of a deck, hand or board array: a card or token name, the
      `null` that drawing from an empty deck yields, or a number (the board
      receives the hand index of the played card). */
  datatype Value = Name(s: string) | Null | Num(n: int)

  /** The pixel size of a loaded image. */
  datatype Size = Size(width: real, height: real)

  /** What an image expression evaluates to: the `null` that `cardDetail`
      holds when no card is shown, `undefined` (an entry missing from the
      resource table), or a loaded image. */
  datatype ImageRef = NullRef | Undefined | Image(size: Size)

  /** `resources.items[v]`: only a name that was registered as an image
      finds one. A `null` or numeric key is converted to the string
      `"null"` or a numeral, and no registered image has such a name, so
      neither finds an image. */
  function Lookup(images: map<string, Size>, v: Value): (r: ImageRef)
    ensures r.Image? <==> v.Name? && v.s in images
    ensures r.Image? ==> r.size == images[v.s]
    ensures !r.NullRef?
  {
    match v
    case Name(s) => if s in images then Image(images[s]) else Undefined
    case _ => Undefined
  }

  /** The images of a row of array entries, entry by entry. */
  function LookupAll(images: map<string, Size>, vs: seq<Value>): (r: seq<ImageRef>)
    ensures |r| == |vs|
    ensures forall j :: 0 <= j < |vs| ==> r[j] == Lookup(images, vs[j])
  {
    seq(|vs|, j requires 0 <= j < |vs| => Lookup(images, vs[j]))
  }

  /** `s.substring(2)`: everything after the first two characters, or the
      empty string when there are fewer. */
  function Substring2(s: string): (r: string)
    ensures |s| >= 2 ==> s == s[..2] + r
    ensures |s| < 2 ==> r == ""
  {
    if |s| < 2 then "" else s[2..]
  }
}
