/** The two field decoders of the lister: a total one for the extra-info
    code and a partial one for the volume-type label. */
module Decoders {
  import opened Wrappers
  import opened Core

  const NoneLabel := "无"
  const RecentLabel := "最近一週更新"
  const PushedLabel := "90天內曾下載/推送"
  const UnknownPrefix := "未知("

  /** The fallback label for a code without a table entry. */
  function UnknownLabel(code: string): string
  {
    UnknownPrefix + code + ")"
  }

  predicate IsKnownExtraCode(code: string)
  {
    code == "0" || code == "1" || code == "2"
  }

  /** Decodes the recency/availability code of a volume. Total: every
      string has a label. */
  function ExtractExtraInfo(value: string): (text: string)
    ensures value == "0" ==> text == NoneLabel
    ensures value == "1" ==> text == RecentLabel
    ensures value == "2" ==> text == PushedLabel
    ensures !IsKnownExtraCode(value) ==> text == UnknownLabel(value)
  {
    if value == "0" then NoneLabel
    else if value == "1" then RecentLabel
    else if value == "2" then PushedLabel
    else UnknownLabel(value)
  }

  /** Inverse of ExtractExtraInfo: the code a label was decoded from, or
      None for text no code decodes to. */
  function ExtraCode(text: string): Option<string>
  {
    if text == NoneLabel then Some("0")
    else if text == RecentLabel then Some("1")
    else if text == PushedLabel then Some("2")
    else if |text| >= |UnknownPrefix| + 1 && text[..|UnknownPrefix|] == UnknownPrefix
         && text[|text| - 1] == ')'
         && !IsKnownExtraCode(text[|UnknownPrefix|..|text| - 1])
    then Some(text[|UnknownPrefix|..|text| - 1])
    else None
  }

  /** No code is lost by decoding: the code is recovered from its label,
      so distinct codes always get distinct labels. */
  lemma ExtraInfoRoundTrip(value: string)
    ensures ExtraCode(ExtractExtraInfo(value)) == Some(value)
  {
    if !IsKnownExtraCode(value) {
      var text := UnknownLabel(value);
      assert text[0] == '未';
      assert text[..|UnknownPrefix|] == UnknownPrefix;
      assert text[|UnknownPrefix|..|text| - 1] == value;
    }
  }

  /** Every label ExtraCode accepts is the decoding of that code. */
  lemma ExtraCodeSound(text: string)
    requires ExtraCode(text).Some?
    ensures ExtractExtraInfo(ExtraCode(text).value) == text
  {
    if text != NoneLabel && text != RecentLabel && text != PushedLabel {
      var code := text[|UnknownPrefix|..|text| - 1];
      assert text == text[..|UnknownPrefix|] + code + [text[|text| - 1]];
    }
  }

  /** Distinct codes decode to distinct labels. */
  lemma ExtraInfoInjective(a: string, b: string)
    requires ExtractExtraInfo(a) == ExtractExtraInfo(b)
    ensures a == b
  {
    ExtraInfoRoundTrip(a);
    ExtraInfoRoundTrip(b);
  }

  /** The site's label for each volume type. */
  function TypeLabel(t: VolumeType): string
  {
    match t
    case Volume => "單行本"
    case Extra => "番外篇"
    case Serialized => "話"
  }

  /** Decodes a volume-type label; any text that is not one of the three
      labels is an error carrying that text. */
  function ExtractVolumeType(value: string): (r: Result<VolumeType, Error>)
    ensures r.Ok? ==> TypeLabel(r.value) == value
    ensures r.Err? ==> r.error == UnknownVolumeType(value)
    ensures r.Err? ==> forall t: VolumeType :: TypeLabel(t) != value
  {
    if value == "單行本" then Ok(Volume)
    else if value == "番外篇" then Ok(Extra)
    else if value == "話" then Ok(Serialized)
    else Err(UnknownVolumeType(value))
  }

  /** Every volume type's label decodes back to it. */
  lemma VolumeTypeRoundTrip(t: VolumeType)
    ensures ExtractVolumeType(TypeLabel(t)) == Ok(t)
  {
    match t
    case Volume =>
    case Extra =>
      assert TypeLabel(t) != "單行本";
    case Serialized =>
      assert TypeLabel(t) != "單行本";
      assert TypeLabel(t) != "番外篇";
  }
}
