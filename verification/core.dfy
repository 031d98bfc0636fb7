/** The records the lister produces. Their Python definitions live in the
    `core` package, which is not part of this model; the shapes here follow
    the keyword arguments the lister passes to them. */
module Core {

  /** The three kinds of release unit; there is no fallback member. */
  datatype VolumeType = Volume | Extra | Serialized

  /** Identity of one book. `author`, `status` and `lastUpdate` are never
      filled in by the lister. */
  datatype BookInfo = BookInfo(
    id: string,
    name: string,
    url: string,
    author: string,
    status: string,
    lastUpdate: string)

  /** One volume of a book. `size` keeps the raw text of the feed field the
      source converts with `float()`. */
  datatype VolInfo = VolInfo(
    id: string,
    extraInfo: string,
    isLast: bool,
    volType: VolumeType,
    index: int,
    pages: int,
    name: string,
    size: string)

  /** The exceptions the lister lets escape, one constructor per cause. */
  datatype Error =
    | TitleMissing               // no title element: `.text` on None
    | BookIdMissing              // no `bookid` input or no `value` attribute
    | NoScriptFound              // `[-1]` on an empty list of scripts
    | PatternNotMatched          // `.group(0)` on a failed search
    | MalformedRecord            // IndexError while splitting or indexing a line
    | UnknownVolumeType(value: string)  // ValueError from the volume-type decoder
    | NotAnInteger(value: string)       // ValueError from `int()`
}
