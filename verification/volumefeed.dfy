/** Parsing of the data-feed body into volume records. Each line holding
    `volinfo` carries one record: the text between its first and second
    double quote, after a fixed 8-character wrapper, is a comma-separated
    list whose fixed positions are the fields of a VolInfo. */
module VolumeFeed {
  import opened Wrappers
  import opened Core
  import opened PyStr
  import opened PyInt
  import opened Decoders

  /** The marker that makes a feed line a volume line. */
  const Marker := "volinfo"
  /** Length of the call wrapper in front of the record fields. */
  const WrapperLength := 8
  /** Fields a record must have: the highest position read is 11. */
  const FieldCount := 12

  predicate IsVolumeLine(line: string)
  {
    Contains(line, Marker)
  }

  /** `line[i + 1..j]` is the text between the first double quote of the
      line (at `i`) and the next one (at `j`), or the end of the line. */
  ghost predicate IsFirstQuoted(line: string, i: int, j: int)
  {
    && 0 <= i < j <= |line|
    && line[i] == '"'
    && '"' !in line[..i]
    && '"' !in line[i + 1..j]
    && (j == |line| || line[j] == '"')
  }

  /** The fields of a line: `line.split('"')[1][8:].split(',')`, or None
      when the line has no double quote (the IndexError case). The fields
      are the comma-free pieces that, joined by commas, give the first
      quoted segment without its first 8 characters. */
  function LineFields(line: string): (r: Option<seq<string>>)
    ensures r.Some? <==> '"' in line
    ensures r.Some? ==> |r.value| >= 1
    ensures r.Some? ==> forall k :: 0 <= k < |r.value| ==> ',' !in r.value[k]
    ensures r.Some? ==> exists i, j :: (IsFirstQuoted(line, i, j)
      && Join(r.value, ',') == DropPrefix(line[i + 1..j], WrapperLength))
  {
    SplitHasSecond(line, '"');
    var parts := Split(line, '"');
    if |parts| < 2 then None
    else
      SecondPiece(line, '"');
      var i := |parts[0]|;
      var j := i + 1 + |parts[1]|;
      assert IsFirstQuoted(line, i, j);
      Some(Split(DropPrefix(parts[1], WrapperLength), ','))
  }

  /** The conditions under which a line yields a record. */
  predicate IsWellFormed(line: string)
  {
    var f := LineFields(line);
    && f.Some?
    && |f.value| >= FieldCount
    && ExtractVolumeType(f.value[3]).Ok?
    && IsIntLiteral(f.value[4])
    && IsIntLiteral(f.value[6])
  }

  /** Builds one VolInfo from one line. The checks follow the order in
      which Python evaluates the constructor's arguments, so the error is
      the first one the source would raise. */
  function ParseVolumeLine(line: string): (r: Result<VolInfo, Error>)
    ensures r.Ok? <==> IsWellFormed(line)
    ensures r.Ok? ==> var x := LineFields(line).value;
      && r.value.id == x[0]
      && r.value.extraInfo == ExtractExtraInfo(x[1])
      && r.value.isLast == (x[2] == "1")
      && TypeLabel(r.value.volType) == x[3]
      && ParseInt(x[4]) == Some(r.value.index)
      && r.value.name == x[5]
      && ParseInt(x[6]) == Some(r.value.pages)
      && r.value.size == x[11]
    ensures '"' !in line ==> r == Err(MalformedRecord)
    ensures LineFields(line).Some? && |LineFields(line).value| >= 4
      && ExtractVolumeType(LineFields(line).value[3]).Err?
      ==> r == Err(UnknownVolumeType(LineFields(line).value[3]))
    ensures r.Err? ==> r.error.MalformedRecord? || r.error.UnknownVolumeType? || r.error.NotAnInteger?
  {
    match LineFields(line)
    case None => Err(MalformedRecord)
    case Some(x) =>
      if |x| < 4 then Err(MalformedRecord)
      else
        match ExtractVolumeType(x[3])
        case Err(e) => Err(e)
        case Ok(volType) =>
          if |x| < 5 then Err(MalformedRecord)
          else
            match ParseInt(x[4])
            case None => Err(NotAnInteger(x[4]))
            case Some(index) =>
              if |x| < 7 then Err(MalformedRecord)
              else
                match ParseInt(x[6])
                case None => Err(NotAnInteger(x[6]))
                case Some(pages) =>
                  if |x| < FieldCount then Err(MalformedRecord)
                  else Ok(VolInfo(x[0], ExtractExtraInfo(x[1]), x[2] == "1", volType, index, pages, x[5], x[11]))
  }

  /** The error of a line with a double quote, in the order Python
      evaluates the constructor's arguments: a row too short to reach
      field 3, then an unknown type, then field 4 missing or not an integer,
      then field 6 missing or not an integer, then fewer than 12 fields. */
  lemma ParseVolumeLineErrorOrder(line: string)
    requires LineFields(line).Some?
    ensures var x := LineFields(line).value;
      && (|x| < 4 ==> ParseVolumeLine(line) == Err(MalformedRecord))
      && (|x| >= 4 && ExtractVolumeType(x[3]).Err? ==> ParseVolumeLine(line) == Err(UnknownVolumeType(x[3])))
      && (|x| >= 4 && ExtractVolumeType(x[3]).Ok? && |x| < 5 ==> ParseVolumeLine(line) == Err(MalformedRecord))
      && ((|x| >= 5 && ExtractVolumeType(x[3]).Ok? && !IsIntLiteral(x[4]))
          ==> ParseVolumeLine(line) == Err(NotAnInteger(x[4])))
      && ((|x| >= 5 && ExtractVolumeType(x[3]).Ok? && IsIntLiteral(x[4]) && |x| < 7)
          ==> ParseVolumeLine(line) == Err(MalformedRecord))
      && ((|x| >= 7 && ExtractVolumeType(x[3]).Ok? && IsIntLiteral(x[4]) && !IsIntLiteral(x[6]))
          ==> ParseVolumeLine(line) == Err(NotAnInteger(x[6])))
      && ((|x| >= 7 && ExtractVolumeType(x[3]).Ok? && IsIntLiteral(x[4]) && IsIntLiteral(x[6])
           && |x| < FieldCount) ==> ParseVolumeLine(line) == Err(MalformedRecord))
  {
  }

  /** `filter(lambda x: 'volinfo' in x, lines)`. */
  function KeepVolumeLines(lines: seq<string>): (kept: seq<string>)
    ensures |kept| <= |lines|
    ensures forall k :: 0 <= k < |kept| ==> IsVolumeLine(kept[k])
    ensures forall l :: l in kept <==> l in lines && IsVolumeLine(l)
    decreases |lines|
  {
    if |lines| == 0 then []
    else if IsVolumeLine(lines[0]) then [lines[0]] + KeepVolumeLines(lines[1..])
    else KeepVolumeLines(lines[1..])
  }

  /** Filtering preserves order: it keeps a single line exactly when it
      is a volume line and distributes over concatenation, which together
      determine the result for every list. */
  lemma {:induction false} KeepAppend(a: seq<string>, b: seq<string>)
    ensures KeepVolumeLines(a + b) == KeepVolumeLines(a) + KeepVolumeLines(b)
    ensures |a| == 1 ==> KeepVolumeLines(a) == if IsVolumeLine(a[0]) then a else []
    decreases |a|
  {
    if |a| > 0 {
      assert (a + b)[1..] == a[1..] + b;
      KeepAppend(a[1..], b);
    } else {
      assert a + b == b;
    }
  }

  /** The records of a list of lines, all or nothing: every line must
      yield a record, and then the records are those of the lines, in order;
      otherwise the error is that of the first line that fails. */
  function ParseVolumeLines(lines: seq<string>): (r: Result<seq<VolInfo>, Error>)
    ensures r.Ok? <==> forall k :: 0 <= k < |lines| ==> IsWellFormed(lines[k])
    ensures r.Ok? ==> |r.value| == |lines|
    ensures r.Ok? ==> forall k :: 0 <= k < |lines| ==> ParseVolumeLine(lines[k]) == Ok(r.value[k])
    ensures r.Err? ==> exists k :: (0 <= k < |lines| && ParseVolumeLine(lines[k]) == Err(r.error)
      && forall j :: 0 <= j < k ==> IsWellFormed(lines[j]))
  {
    var r := MapResult(ParseVolumeLine, lines);
    if r.Err? then MapResultFirstError(ParseVolumeLine, lines); r else r
  }

  /** The volume lines of a feed body, in order. */
  function VolumeLines(body: string): seq<string>
  {
    KeepVolumeLines(Split(body, '\n'))
  }

  /** `__extract_volumes` from the feed body on: split into lines, keep the
      volume lines, parse each. */
  function ExtractVolumeList(body: string): (r: Result<seq<VolInfo>, Error>)
    ensures r.Ok? <==> forall k :: 0 <= k < |VolumeLines(body)| ==> IsWellFormed(VolumeLines(body)[k])
    ensures r.Ok? ==> |r.value| == |VolumeLines(body)|
    ensures r.Ok? ==> forall k :: 0 <= k < |r.value| ==> ParseVolumeLine(VolumeLines(body)[k]) == Ok(r.value[k])
  {
    ParseVolumeLines(VolumeLines(body))
  }
}
