/** The inverse of the feed parser: writes volume records as feed lines in
    the layout the parser expects, so that parsing can be proved to give
    back exactly the records written. */
module FeedEncoding {
  import opened Wrappers
  import opened Core
  import opened PyStr
  import opened PyInt
  import opened Decoders
  import opened VolumeFeed

  /** Text that can stand in a field: it does not end the field, the
      quoted segment or the line. */
  predicate IsPlainField(s: string)
  {
    ',' !in s && '"' !in s && '\n' !in s
  }

  /** A record whose text fields can be written without being split
      differently, and whose extra-info label has a code. */
  predicate IsEncodable(v: VolInfo)
  {
    && IsPlainField(v.id)
    && IsPlainField(v.name)
    && IsPlainField(v.size)
    && ExtraCode(v.extraInfo).Some?
    && IsPlainField(ExtraCode(v.extraInfo).value)
  }

  /** A call wrapper of the length the parser drops. */
  predicate IsWrapper(w: string)
  {
    |w| == WrapperLength && '"' !in w && '\n' !in w
  }

  /** The twelve comma fields of a record; positions 7 to 10, which the
      parser ignores, are left empty. */
  function RecordFields(v: VolInfo): seq<string>
    requires ExtraCode(v.extraInfo).Some?
  {
    [v.id, ExtraCode(v.extraInfo).value, if v.isLast then "1" else "0",
     TypeLabel(v.volType), FormatInt(v.index), v.name, FormatInt(v.pages),
     "", "", "", "", v.size]
  }

  /** One feed line: `volinfo="<wrapper><fields>"`. */
  function EncodeLine(v: VolInfo, w: string): string
    requires ExtraCode(v.extraInfo).Some?
  {
    Marker + "=\"" + w + Join(RecordFields(v), ',') + "\""
  }

  /** A feed body: one line per record, each ended by a newline. */
  function EncodeFeed(vs: seq<VolInfo>, w: string): string
    requires forall k :: 0 <= k < |vs| ==> IsEncodable(vs[k])
    decreases |vs|
  {
    if |vs| == 0 then ""
    else
      assert IsEncodable(vs[0]);
      EncodeLine(vs[0], w) + "\n" + EncodeFeed(vs[1..], w)
  }

  lemma IntLiteralPlain(s: string)
    requires IsIntLiteral(s)
    ensures IsPlainField(s)
  {
    assert forall k :: 0 <= k < |s| ==> IsDigit(s[k]) || IsSign(s[k]) by {
      if !IsDigits(s) {
        assert forall k :: 1 <= k < |s| ==> s[k] == s[1..][k - 1];
      }
    }
  }

  lemma FieldsPlain(v: VolInfo)
    requires IsEncodable(v)
    ensures forall k :: 0 <= k < |RecordFields(v)| ==> IsPlainField(RecordFields(v)[k])
  {
    IntLiteralPlain(FormatInt(v.index));
    IntLiteralPlain(FormatInt(v.pages));
  }

  /** An encoded line is a volume line whose fields are the record's
      twelve fields. */
  lemma EncodedLineFields(v: VolInfo, w: string)
    requires IsEncodable(v) && IsWrapper(w)
    ensures IsVolumeLine(EncodeLine(v, w))
    ensures LineFields(EncodeLine(v, w)) == Some(RecordFields(v))
  {
    var fields := RecordFields(v);
    var joined := Join(fields, ',');
    FieldsPlain(v);
    JoinAvoids(fields, ',', '"');
    SplitJoin(fields, ',');
    var line := EncodeLine(v, w);
    assert line[..|Marker|] == Marker;
    assert Contains(line, Marker);

    var head := Marker + "=";
    assert '"' !in head;
    assert '"' !in w + joined;
    assert line == head + ['"'] + ((w + joined) + ['"'] + "");
    SplitCons(head, '"', (w + joined) + ['"'] + "");
    SplitCons(w + joined, '"', "");
    assert Split(line, '"')[1] == w + joined;
    assert DropPrefix(w + joined, WrapperLength) == joined;
  }

  /** An encoded line is a volume line and parses back to its record. */
  lemma LineRoundTrip(v: VolInfo, w: string)
    requires IsEncodable(v) && IsWrapper(w)
    ensures IsVolumeLine(EncodeLine(v, w))
    ensures ParseVolumeLine(EncodeLine(v, w)) == Ok(v)
  {
    EncodedLineFields(v, w);
    VolumeTypeRoundTrip(v.volType);
    ParseFormat(v.index);
    ParseFormat(v.pages);
    ExtraCodeSound(v.extraInfo);
    var r := ParseVolumeLine(EncodeLine(v, w));
    assert r.Ok?;
    assert TypeLabel(r.value.volType) == TypeLabel(v.volType);
    assert ExtractVolumeType(TypeLabel(r.value.volType)) == Ok(r.value.volType) by {
      VolumeTypeRoundTrip(r.value.volType);
    }
  }

  /** The lines of an encoded feed that the parser keeps are exactly the
      encoded records, in order. */
  lemma {:induction false} FeedVolumeLines(vs: seq<VolInfo>, w: string)
    requires forall k :: 0 <= k < |vs| ==> IsEncodable(vs[k])
    requires IsWrapper(w)
    ensures |VolumeLines(EncodeFeed(vs, w))| == |vs|
    ensures forall k :: 0 <= k < |vs| ==> VolumeLines(EncodeFeed(vs, w))[k] == EncodeLine(vs[k], w)
    decreases |vs|
  {
    if |vs| == 0 {
      assert Split("", '\n') == [""];
      assert !Contains("", Marker);
    } else {
      var line := EncodeLine(vs[0], w);
      var rest := EncodeFeed(vs[1..], w);
      FieldsPlain(vs[0]);
      JoinAvoids(RecordFields(vs[0]), ',', '\n');
      assert '\n' !in line;
      SplitCons(line, '\n', rest);
      LineRoundTrip(vs[0], w);
      var lines := Split(EncodeFeed(vs, w), '\n');
      assert lines == [line] + Split(rest, '\n');
      assert lines[1..] == Split(rest, '\n');
      assert VolumeLines(EncodeFeed(vs, w)) == [line] + VolumeLines(rest);
      FeedVolumeLines(vs[1..], w);
    }
  }

  /** Parsing an encoded feed gives back the records, in order. */
  lemma FeedRoundTrip(vs: seq<VolInfo>, w: string)
    requires forall k :: 0 <= k < |vs| ==> IsEncodable(vs[k])
    requires IsWrapper(w)
    ensures ExtractVolumeList(EncodeFeed(vs, w)) == Ok(vs)
  {
    FeedVolumeLines(vs, w);
    forall k | 0 <= k < |vs| ensures ParseVolumeLine(VolumeLines(EncodeFeed(vs, w))[k]) == Ok(vs[k]) {
      LineRoundTrip(vs[k], w);
    }
    var r := ExtractVolumeList(EncodeFeed(vs, w));
    assert r.Ok?;
    assert r.value == vs;
  }
}
