/**
 * The request bodies the client sends: URL-encoded forms, "key=value"
 * pairs joined by '&' with every value percent-encoded. This covers the
 * machine sample, the machine text, the metric inc/set value and the
 * metric value batch.
 */
module Forms {
  import opened Wrappers
  import opened Text
  import opened Decimal
  import opened Percent
  import Batch

  /** One "key=value" pair; keys are fixed names and go out as they are. */
  function Field(key: string, value: string): string
  {
    key + "=" + EncodeValue(value)
  }

  function Fields(pairs: seq<(string, string)>): (r: seq<string>)
    ensures |r| == |pairs| && forall i :: 0 <= i < |r| ==> r[i] == Field(pairs[i].0, pairs[i].1)
  {
    if |pairs| == 0 then [] else [Field(pairs[0].0, pairs[0].1)] + Fields(pairs[1..])
  }

  /** The pairs in order, joined by '&'. */
  function FormBody(pairs: seq<(string, string)>): string
  {
    Join(Fields(pairs), '&')
  }

  /**
   * One telemetry sample. Load averages are held as whole thousandths
   * (1.01 is 1010), the precision the wire format keeps.
   */
  datatype MachineSample = MachineSample(
    tstamp: int64,
    load1: int,
    load5: int,
    load15: int,
    cpuPercent: int64,
    memPercent: int64,
    diskPercent: int64,
    diskRead: int64,
    diskWrite: int64,
    netRecv: int64,
    netSend: int64)

  /** The field names of a sample body, in their fixed wire order. */
  const SampleKeys: seq<string> :=
    ["tstamp", "load1", "load5", "load15", "cpu", "mem", "disk",
     "diskRead", "diskWrite", "netRecv", "netSend"]

  function SampleValues(s: MachineSample): (r: seq<string>)
    ensures |r| == |SampleKeys|
  {
    [IntToString(s.tstamp), FormatMilli(s.load1), FormatMilli(s.load5), FormatMilli(s.load15),
     IntToString(s.cpuPercent), IntToString(s.memPercent), IntToString(s.diskPercent),
     IntToString(s.diskRead), IntToString(s.diskWrite), IntToString(s.netRecv), IntToString(s.netSend)]
  }

  function Zip(keys: seq<string>, values: seq<string>): (r: seq<(string, string)>)
    requires |keys| == |values|
    ensures |r| == |keys| && forall i :: 0 <= i < |r| ==> r[i] == (keys[i], values[i])
  {
    if |keys| == 0 then [] else [(keys[0], values[0])] + Zip(keys[1..], values[1..])
  }

  /** Body of POST machine/{id}/sample. */
  function SampleBody(s: MachineSample): string
  {
    FormBody(Zip(SampleKeys, SampleValues(s)))
  }

  /** Body of POST machine/{id}/text. */
  function TextBody(text: string): string
  {
    FormBody([("text", text)])
  }

  /** Body of POST metric/{id}/inc and POST metric/{id}/set. */
  function ValueBody(value: int64): string
  {
    FormBody([("value", IntToString(value))])
  }

  /** Body of POST metric/{id}/values. */
  function ValuesBody(values: seq<int64>): string
  {
    FormBody([("values", Batch.Compact(values))])
  }

  // ----- reading a form body back -----

  /** The decoded value of "key=value" when the piece carries that key. */
  function FieldValue(piece: string, key: string): Option<string>
  {
    if |piece| > |key| && piece[..|key|] == key && piece[|key|] == '=' then
      DecodeAsciiValue(piece[|key| + 1..])
    else None
  }

  function FieldValues(pieces: seq<string>, keys: seq<string>): (r: Option<seq<string>>)
    requires |pieces| == |keys|
    ensures r.Some? ==> |r.value| == |keys|
  {
    if |keys| == 0 then Some([])
    else
      match (FieldValue(pieces[0], keys[0]), FieldValues(pieces[1..], keys[1..]))
      case (Some(v), Some(rest)) => Some([v] + rest)
      case _ => None
  }

  /** The values of a form body whose keys are exactly keys, in that order. */
  function ParseForm(body: string, keys: seq<string>): (r: Option<seq<string>>)
    ensures r.Some? ==> |r.value| == |keys|
  {
    var pieces := Split(body, '&');
    if |pieces| != |keys| then None else FieldValues(pieces, keys)
  }

  lemma FieldRoundTrip(key: string, value: string)
    requires IsAscii(value)
    ensures FieldValue(Field(key, value), key) == Some(value)
  {
    var f := Field(key, value);
    assert f[..|key|] == key;
    assert f[|key| + 1..] == EncodeValue(value);
    AsciiValueRoundTrip(value);
  }

  lemma NoAmpersandInField(key: string, value: string)
    requires '&' !in key
    ensures '&' !in Field(key, value)
  {
    var e := EncodeValue(value);
    assert !WireSafe('&');
    assert '&' !in e;
  }

  lemma {:induction false} FieldValuesRoundTrip(keys: seq<string>, values: seq<string>)
    requires |keys| == |values|
    requires forall i :: 0 <= i < |values| ==> IsAscii(values[i])
    ensures FieldValues(Fields(Zip(keys, values)), keys) == Some(values)
  {
    if |keys| > 0 {
      FieldRoundTrip(keys[0], values[0]);
      FieldValuesRoundTrip(keys[1..], values[1..]);
      assert Fields(Zip(keys, values))[1..] == Fields(Zip(keys[1..], values[1..]));
      assert [values[0]] + values[1..] == values;
    }
  }

  /** A form of ASCII values reads back as the same values under the same keys. */
  lemma ParseFormBody(keys: seq<string>, values: seq<string>)
    requires |keys| == |values| >= 1
    requires forall i :: 0 <= i < |keys| ==> '&' !in keys[i]
    requires forall i :: 0 <= i < |values| ==> IsAscii(values[i])
    ensures ParseForm(FormBody(Zip(keys, values)), keys) == Some(values)
  {
    var pieces := Fields(Zip(keys, values));
    forall i | 0 <= i < |pieces| ensures '&' !in pieces[i] {
      NoAmpersandInField(keys[i], values[i]);
    }
    SplitJoin(pieces, '&');
    FieldValuesRoundTrip(keys, values);
  }

  /** A field never ends in white space: it ends in '=' or in a percent-encoded character. */
  lemma FieldEnd(key: string, value: string)
    ensures var f := Field(key, value); |f| >= 1 && !IsSpace(f[|f| - 1])
  {
    var f := Field(key, value);
    var e := EncodeValue(value);
    if |e| > 0 {
      assert f[|f| - 1] == e[|e| - 1];
      assert WireSafe(e[|e| - 1]);
    }
  }

  /** A form with at least one pair is non-empty and does not end in white space. */
  lemma FormBodyEnd(pairs: seq<(string, string)>)
    requires |pairs| >= 1
    ensures var b := FormBody(pairs); |b| >= 1 && !IsSpace(b[|b| - 1])
  {
    var fs := Fields(pairs);
    var n := |pairs| - 1;
    FieldEnd(pairs[n].0, pairs[n].1);
    JoinLast(fs, '&');
  }

  function InRange(x: int): Option<int64>
  {
    if -0x8000_0000_0000_0000 <= x < 0x8000_0000_0000_0000 then Some(x) else None
  }

  function ParseInt64(s: string): Option<int64>
  {
    match ParseInt(s)
    case Some(x) => InRange(x)
    case None => None
  }

  /** Reads a sample body back into the sample it encodes. */
  function DecodeSample(body: string): Option<MachineSample>
  {
    match ParseForm(body, SampleKeys)
    case None => None
    case Some(v) =>
      match (ParseInt64(v[0]), ParseMilli(v[1]), ParseMilli(v[2]), ParseMilli(v[3]),
             ParseInt64(v[4]), ParseInt64(v[5]), ParseInt64(v[6]), ParseInt64(v[7]),
             ParseInt64(v[8]), ParseInt64(v[9]), ParseInt64(v[10]))
      case (Some(t), Some(l1), Some(l5), Some(l15), Some(c), Some(m), Some(d),
            Some(dr), Some(dw), Some(nr), Some(ns)) =>
        Some(MachineSample(t, l1, l5, l15, c, m, d, dr, dw, nr, ns))
      case _ => None
  }

  lemma NumeralIsAscii(s: string)
    requires AllNumeral(s)
    ensures IsAscii(s)
  {
  }

  lemma ParseInt64RoundTrip(x: int64)
    ensures ParseInt64(IntToString(x)) == Some(x)
  {
    ParseIntToString(x);
  }

  lemma SampleValuesNumeral(s: MachineSample)
    ensures forall i :: 0 <= i < |SampleValues(s)| ==> AllNumeral(SampleValues(s)[i])
  {
    IntToStringNumeral(s.tstamp);
    IntToStringNumeral(s.cpuPercent);
    IntToStringNumeral(s.memPercent);
    IntToStringNumeral(s.diskPercent);
    IntToStringNumeral(s.diskRead);
    IntToStringNumeral(s.diskWrite);
    IntToStringNumeral(s.netRecv);
    IntToStringNumeral(s.netSend);
  }

  lemma SampleValuesAscii(s: MachineSample)
    ensures forall i :: 0 <= i < |SampleValues(s)| ==> IsAscii(SampleValues(s)[i])
  {
    var vs := SampleValues(s);
    SampleValuesNumeral(s);
    forall i | 0 <= i < |vs| ensures IsAscii(vs[i]) {
      NumeralIsAscii(vs[i]);
    }
  }

  lemma NumeralUnreserved(s: string)
    requires AllNumeral(s)
    ensures AllUnreserved(s)
  {
  }

  /** Numerals need no escaping: every field of a sample body is its key, '=' and the bare value. */
  lemma SampleBodyPlain(s: MachineSample)
    ensures SampleBody(s) ==
      Join(seq(11, i requires 0 <= i < 11 => SampleKeys[i] + "=" + SampleValues(s)[i]), '&')
  {
    var vs := SampleValues(s);
    var fs := Fields(Zip(SampleKeys, vs));
    SampleValuesNumeral(s);
    var plain := seq(11, i requires 0 <= i < 11 => SampleKeys[i] + "=" + vs[i]);
    forall i | 0 <= i < |fs| ensures fs[i] == plain[i] {
      NumeralUnreserved(vs[i]);
      EncodeUnreserved(vs[i]);
    }
    assert fs == plain;
  }

  /** A sample body names exactly the eleven fields in their fixed order. */
  lemma SampleBodyFields(s: MachineSample)
    ensures ParseForm(SampleBody(s), SampleKeys) == Some(SampleValues(s))
  {
    SampleValuesAscii(s);
    SampleKeysPlain();
    ParseFormBody(SampleKeys, SampleValues(s));
  }

  lemma SampleKeysPlain()
    ensures forall i :: 0 <= i < |SampleKeys| ==> '&' !in SampleKeys[i]
  {
  }

  /** The values of a sample body read back as the sample: nothing is lost or reordered. */
  lemma SampleBodyRoundTrip(s: MachineSample)
    ensures DecodeSample(SampleBody(s)) == Some(s)
  {
    SampleBodyFields(s);
    ParseInt64RoundTrip(s.tstamp);
    ParseFormatMilli(s.load1);
    ParseFormatMilli(s.load5);
    ParseFormatMilli(s.load15);
    ParseInt64RoundTrip(s.cpuPercent);
    ParseInt64RoundTrip(s.memPercent);
    ParseInt64RoundTrip(s.diskPercent);
    ParseInt64RoundTrip(s.diskRead);
    ParseInt64RoundTrip(s.diskWrite);
    ParseInt64RoundTrip(s.netRecv);
    ParseInt64RoundTrip(s.netSend);
  }

  /**
   * The text goes out as one field: "text=" and then the percent-encoded
   * UTF-8 bytes, with no '&' that could split it.
   */
  lemma TextBodyOneField(text: string)
    ensures var b := TextBody(text);
      |b| >= 5 && b[..5] == "text=" && '&' !in b[5..] && Unescape(b[5..]) == Some(Utf8String(text))
  {
    var b := TextBody(text);
    assert b == "text=" + EncodeValue(text);
    assert b[5..] == EncodeValue(text);
    NoAmpersandInField("text", text);
    UnescapeEscape(Utf8String(text));
  }

  /** An inc/set body reads back as the one integer it carries. */
  lemma ValueBodyRoundTrip(value: int64)
    ensures ParseForm(ValueBody(value), ["value"]) == Some([IntToString(value)])
    ensures ParseInt64(IntToString(value)) == Some(value)
  {
    IntToStringNumeral(value);
    NumeralIsAscii(IntToString(value));
    assert Zip(["value"], [IntToString(value)]) == [("value", IntToString(value))];
    ParseFormBody(["value"], [IntToString(value)]);
    ParseInt64RoundTrip(value);
  }

  /** A values body reads back as every value with its count, in ascending order. */
  lemma ValuesBodyRoundTrip(values: seq<int64>)
    ensures match ParseForm(ValuesBody(values), ["values"])
      case Some(v) => |v| == 1 && Batch.DecodeCompact(v[0]) == Some(Batch.Sort(values))
      case None => false
  {
    var c := Batch.Compact(values);
    Batch.CompactAscii(values);
    assert Zip(["values"], [c]) == [("values", c)];
    ParseFormBody(["values"], [c]);
    Batch.DecodeCompactRoundTrip(values);
  }
}
