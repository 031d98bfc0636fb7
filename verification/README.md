# kmdr lister: book and volume extraction

This project models the text-processing half of the lister in
`module/lister/utils.py`. The lister reads a book's landing page and takes
the title and the `bookid` value from it. It then finds the data-feed path
in the page's last javascript block and turns the feed's `volinfo` lines
into volume records.

Everything is pure string-to-record code, so the model is made of
datatypes, functions and lemmas:

- `Wrappers`: `Option`, `Result`, and `MapResult`. `MapResult` is what
  `list(map(f, xs))` does when `f` may raise: the first exception wins and
  no partial list is returned.
- `PyStr`: the Python `str` operations used, with Python's semantics:
  `s.split(c)`, `pat in s` and `s[n:]`.
- `PyInt`: `int(s)` on ASCII decimal text, and its inverse `str(n)`.
- `Core`: `BookInfo`, `VolInfo`, `VolumeType`, and one error constructor
  per exception the lister lets escape.
- `Decoders`: `__extract_extra_info`, which is total, and
  `__extract_volume_type`, which is partial.
- `FeedUrl`: a matcher for exactly the pattern `/book_data.php\?h=\w+`.
  It finds the leftmost match, and `\w+` takes the longest run of word
  characters. The unescaped `.` matches any character except a newline.
- `VolumeFeed`: the feed-body parser (split into lines, keep the `volinfo`
  lines, take the text between the first and second `"`, drop 8
  characters, split on `,`, read fixed positions).
- `FeedEncoding`: the inverse of the parser. It writes records as feed
  lines, so that parsing can be proved to give the records back.
- `Lister`: the book-record assembly, the volume extraction and the
  top-level pair.

The two network fetches are not modelled as I/O. The landing page is given
already parsed, as a `Page`: the title text, the `bookid` value (each
`None` when absent), and the texts of the javascript blocks in document
order. The feed fetch is a parameter `get: string -> string` from URL to
body. "The feed is not fetched when no URL is found" is stated as: the
result does not depend on `get`.

Details of the code that the model keeps:

- Exactly 8 characters are dropped before splitting on `,`, whatever the
  wrapper looks like.
- A record may have more than 12 fields; the extra ones are ignored.
- The label for code `0` is `无`.
- Errors are reported in the order Python evaluates the `VolInfo(...)`
  keyword arguments. A missing field up to position 3 comes first, then an
  unknown type label, then field 4, then field 6, then fields 7 to 11.

## Model

| member | source | states |
|---|---|---|
| `Decoders.ExtractExtraInfo` | module/lister/utils.py:61-69 | Total; `0`, `1`, `2` give their fixed labels, and every other code `v` gives `未知(v)` |
| `Decoders.ExtraInfoRoundTrip` | module/lister/utils.py:61-69 | The code can be read back from its label (via `ExtraCode`), so decoding loses nothing |
| `Decoders.ExtraCodeSound` | module/lister/utils.py:61-69 | Every label `ExtraCode` accepts is the decoding of the code it returns (the other direction of the inverse) |
| `Decoders.ExtraInfoInjective` | module/lister/utils.py:61-69 | Distinct codes give distinct labels |
| `Decoders.ExtractVolumeType` | module/lister/utils.py:71-79 | On success the input is the label of the returned type. Otherwise the error carries the input, and no type has that label (no fallback member) |
| `Decoders.VolumeTypeRoundTrip` | module/lister/utils.py:71-79 | `單行本`, `番外篇` and `話` decode to VOLUME, EXTRA and SERIALIZED |
| `FeedUrl.WordRun` | module/lister/utils.py:40 | The greedy `\w+`: a run of word characters that stops at the end of the text or at a non-word character |
| `FeedUrl.SearchFrom` | module/lister/utils.py:40-41 | Returns the first index at or after `i` where the pattern matches, or reports that there is none |
| `FeedUrl.Search` | module/lister/utils.py:40-41 | `re.search`: no match exactly when no index matches. Otherwise the match is leftmost, the matched text is a whole feed path, and the text cannot be extended by another word character |
| `FeedUrl.FindFeedUrl` | module/lister/utils.py:40-43 | Fails with PatternNotMatched exactly when nothing matches. Otherwise the result is `https://kox.moe` followed by exactly the text of the leftmost match that `Search` finds in the script, which is a feed path |
| `FeedUrl.MatchedSliceIsPath` | module/lister/utils.py:41 | A match start followed only by word characters up to some end delimits a whole feed path |
| `FeedUrl.SearchWholePath` | module/lister/utils.py:40-41 | A text that is itself a feed path is matched from its first to its last character |
| `FeedUrl.WildcardMatchesAnyChar` | module/lister/utils.py:40 | The unescaped `.` accepts any non-newline character before `php`, and such a path is still found whole |
| `PyStr.Split` | module/lister/utils.py:43-46 | `str.split`: one more piece than there are separators, no piece contains the separator, and joining the pieces gives back the input |
| `PyStr.SplitJoin` | module/lister/utils.py:43-46 | Splitting a join of separator-free pieces gives those pieces back, so the split is the only such decomposition |
| `PyStr.SplitHasSecond` | module/lister/utils.py:45 | `split('"')[1]` exists exactly when the line contains a `"` |
| `PyStr.SecondPiece` | module/lister/utils.py:45 | `split('"')[1]` is the text after the first `"`, up to the second `"` or the end of the line |
| `PyStr.ContainsOccurs` | module/lister/utils.py:44 | `pat in s` holds exactly when `pat` occurs at some index of `s` |
| `PyStr.DropPrefix` | module/lister/utils.py:46 | `s[8:]` is what follows the first 8 characters; a shorter text gives the empty string, not an error |
| `PyInt.ParseInt` | module/lister/utils.py:53-54 | Succeeds exactly on an optionally signed, non-empty run of ASCII digits. Unsigned text gives a value of at least 0, and `-` text a value of at most 0. The value itself is fixed by `ParseFormat`, `ParseLeadingZero`, `ParsePlus` and `ParseMinus` |
| `PyInt.ParseFormat` | module/lister/utils.py:53-54 | `int(str(n)) == n` for every integer |
| `PyInt.ParseLeadingZero` | module/lister/utils.py:53-54 | A leading `0` on a digit string does not change its value (`int('007') == 7`) |
| `PyInt.ParsePlus` | module/lister/utils.py:53-54 | For a digit string `d`, `+d` parses to the same value as `d` |
| `PyInt.ParseMinus` | module/lister/utils.py:53-54 | For a digit string `d`, `-d` parses to minus the value of `d` |
| `VolumeFeed.LineFields` | module/lister/utils.py:45-46 | The comma fields exist exactly when the line contains a `"`. They are the comma-separated pieces of the text between the first `"` and the next `"` (or the line end), after its first 8 characters are dropped: joined with `,` they give that text, there is at least one, and none contains a comma |
| `VolumeFeed.ParseVolumeLine` | module/lister/utils.py:48-56 | Succeeds exactly when the line has a `"`, at least 12 fields, a known type in field 3 and integers in fields 4 and 6. The record is: id = field 0, extra info = decoded field 1, is_last = (field 2 is `1`), type = decoded field 3, index and pages = fields 4 and 6, name = field 5, size = field 11. No `"` gives MalformedRecord, and a bad type label is reported before the integer fields |
| `VolumeFeed.ParseVolumeLineErrorOrder` | module/lister/utils.py:48-56 | Every failure of a line that has a `"`, in Python's argument order: fewer than 4 fields gives MalformedRecord; then an unknown type label; then fewer than 5 fields; then a non-integer field 4; then fewer than 7 fields; then a non-integer field 6; then fewer than 12 fields |
| `VolumeFeed.KeepVolumeLines` | module/lister/utils.py:44 | Keeps only `volinfo` lines, and keeps every one of them |
| `VolumeFeed.KeepAppend` | module/lister/utils.py:44 | The filter keeps the order: it distributes over concatenation, and it keeps a single line exactly when that line is a `volinfo` line |
| `Wrappers.MapResult` | module/lister/utils.py:48-56 | `list(map(f, xs))` with raising `f`: succeeds exactly when every element succeeds, and then gives one result per element, in order |
| `Wrappers.MapResultFirstError` | module/lister/utils.py:48-56 | A failure is the error of the first failing element; all elements before it succeeded |
| `Wrappers.MapResultPrefixError` | module/lister/utils.py:48-56 | All or nothing: a failure in a prefix is the result for the whole list, whatever follows |
| `Wrappers.MapResultSuffixError` | module/lister/utils.py:48-56 | After a prefix that succeeds, a failure in the rest is the result for the whole list |
| `Wrappers.MapResultAppend` | module/lister/utils.py:48-56 | When both parts succeed, the outputs for the whole list are those of the parts, concatenated in order |
| `VolumeFeed.ParseVolumeLines` | module/lister/utils.py:48-56 | Succeeds exactly when every line is well formed, and then gives one record per line, in line order. Otherwise it gives the error of the first bad line, and every line before it is well formed |
| `VolumeFeed.ExtractVolumeList` | module/lister/utils.py:43-56 | For a feed body: as many records as `volinfo` lines, in their order, and success exactly when every such line is well formed |
| `FeedEncoding.EncodedLineFields` | module/lister/utils.py:44-46 | An encoded record line is a `volinfo` line whose comma fields are exactly the record's 12 fields |
| `FeedEncoding.LineRoundTrip` | module/lister/utils.py:44-56 | A record written as `volinfo="<8-char wrapper><12 fields>"` is kept by the filter and parses back to that record |
| `FeedEncoding.FeedVolumeLines` | module/lister/utils.py:43-44 | The lines kept from an encoded feed body are the encoded records, in order |
| `FeedEncoding.FeedRoundTrip` | module/lister/utils.py:43-56 | Parsing an encoded feed body gives back exactly the records written, in order |
| `Lister.ExtractBookInfo` | module/lister/utils.py:22-34 | The record holds the page URL, the scraped id and title, and empty author, status and last_update. A missing title is reported before a missing id |
| `Lister.FeedRequest` | module/lister/utils.py:38-43 | No javascript block gives NoScriptFound. Otherwise only the last block is searched: PatternNotMatched exactly when it has no match, and the URL is the origin followed by the text of the leftmost match in that block |
| `Lister.ExtractVolumes` | module/lister/utils.py:37-59 | A failed URL lookup is the result. Otherwise the result is the parse of the body fetched from that URL |
| `Lister.ExtractBookInfoAndVolumes` | module/lister/utils.py:7-20 | Succeeds exactly when both parts succeed, and then pairs them. A book-record failure is reported first; when the book record succeeds, a volume failure is the result |
| `Lister.NoFeedUrlNoFetch` | module/lister/utils.py:40-43 | Without a feed URL the result is an error that does not depend on the transport (no feed fetch) |
| `Lister.ExtractsEncodedFeed` | module/lister/utils.py:7-59 | End to end: a page with title, id and a feed path, whose feed holds encoded records, yields the book record and exactly those records |

## Left out

- HTTP: both `session.get` calls. The landing page is an input, and the feed fetch is the parameter `get`. Timeouts and transport errors are not modelled.
- HTML parsing: BeautifulSoup's lookup of the title element, the `bookid` input and the javascript blocks. Their results are the fields of `Page`. A missing `value` attribute on a present `bookid` input is folded into `BookIdMissing`.
- `float(x[11])`: floating point is not modelled. `VolInfo.size` keeps the raw text of field 11, and a field 11 that `float()` would reject does not fail the parse here.
- `PyInt.ParseInt`: does not accept all of Python's `int()` grammar. Surrounding whitespace, `_` digit separators and non-ASCII digits are rejected, although Python accepts them.
- `FeedUrl.IsWordChar`: `\w` is ASCII letters, digits and `_`. Python's Unicode word characters outside ASCII are not matched here.
- A general regular-expression engine: only the one fixed pattern is modelled.
- The `core` package's dataclasses are not part of this model. `BookInfo`, `VolInfo` and `VolumeType` are declared with the fields the lister passes to them.
- Calling the extraction twice gives identical results; in this model that holds by construction, because every operation is a function.
