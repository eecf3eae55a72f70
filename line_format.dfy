/** The text of one InfluxDB line-protocol record, as each of the two writers builds it. */
module LineFormat {
  import opened Text

  /** The value handed to a writer: a Java `String`, or any other non-null object,
      represented by the text its `toString()` returns. */
  datatype Value = Str(s: string) | Other(text: string)

  /** Strips one pair of surrounding double quotes, if there is one. */
  function Unquote(t: string): Option<string>
  {
    if |t| >= 2 && t[0] == '"' && t[|t| - 1] == '"' then Some(t[1..|t| - 1]) else None
  }

  /** The field value: a `String` in double quotes, anything else by its `toString()`. */
  function RenderValue(v: Value): (r: string)
    ensures v.Str? ==> |r| == |v.s| + 2 && Unquote(r) == Some(v.s)
    ensures v.Other? ==> r == v.text
  {
    match v
    case Str(s) => "\"" + s + "\""
    case Other(text) => text
  }

  /** The measurement: the metric name with every `.` turned into `_`. */
  function MeasurementName(name: string): (r: string)
    ensures |r| == |name| && '.' !in r
    ensures forall i :: 0 <= i < |name| && name[i] != '.' ==> r[i] == name[i]
    ensures forall i :: 0 <= i < |name| && name[i] == '.' ==> r[i] == '_'
  {
    ReplaceChar(name, '.', '_')
  }

  /** The tag segment of the newer writer. The source sanitises `"," + tags` as a whole;
      since `,` is neither `.` nor a space, that is a comma followed by the sanitised tags. */
  function TagSegment(tags: Option<string>): (r: string)
    ensures r == "," + RemoveChar(ReplaceChar(NullableText(tags), '.', '_'), ' ')
    ensures '.' !in r && ' ' !in r
  {
    var raw := "," + NullableText(tags);
    ReplaceCharAppend(",", NullableText(tags), '.', '_');
    assert ReplaceChar(",", '.', '_') == ",";
    RemoveCharAppend(",", ReplaceChar(NullableText(tags), '.', '_'), ' ');
    assert RemoveChar(",", ' ') == ",";
    var r := RemoveChar(ReplaceChar(raw, '.', '_'), ' ');
    assert '.' !in r by {
      var mid := ReplaceChar(raw, '.', '_');
      assert multiset(mid)['.'] == 0;
      assert multiset(r)['.'] == 0;
    }
    r
  }

  /** An absent tag setting prints as `null`, which the sanitising leaves as it is. */
  lemma AbsentTagSegment(tags: Option<string>)
    ensures tags.None? ==> TagSegment(tags) == ",null"
  {
    NullUnchanged();
  }

  /** `null` holds neither a `.` nor a space, so the sanitising leaves it unchanged. */
  lemma NullUnchanged()
    ensures RemoveChar(ReplaceChar("null", '.', '_'), ' ') == "null"
  {
    var t: string := "null";
    var m := ReplaceChar(t, '.', '_');
    assert m == t by {
      forall i | 0 <= i < |t| ensures m[i] == t[i] { assert t[i] != '.'; }
    }
    RemoveCharAbsent(t, ' ');
  }

  /** A tag setting that already has no `.` and no space is emitted verbatim after the comma. */
  lemma CleanTagsVerbatim(t: string)
    requires '.' !in t && ' ' !in t
    ensures TagSegment(Some(t)) == "," + t
  {
    assert ReplaceChar(t, '.', '_') == t;
    RemoveCharAbsent(t, ' ');
  }

  /** The timestamp field of the newer writer: the milliseconds followed by six zeros. */
  function TimestampText(millis: int): (r: string)
    ensures |r| >= 7 && ' ' !in r && '\n' !in r
    ensures r[|r| - 6..] == "000000"
  {
    LongToString(millis) + "000000"
  }

  /** Read as a decimal number, the timestamp field is the clock value in nanoseconds. */
  lemma TimestampIsNanoseconds(millis: int)
    ensures var ts := TimestampText(millis);
            |ts| >= 1 && (ts[0] == '-' ==> AllDigits(ts[1..])) && (ts[0] != '-' ==> AllDigits(ts))
            && ParseLong(ts) == millis * 1000000
  {
    var ts := TimestampText(millis);
    if millis < 0 {
      var d := NatToString(-millis);
      assert ts == "-" + (d + "000000");
      assert ts[1..] == d + "000000";
      ParseNatAppendSixZeros(d);
      ParseNatToString(-millis);
    } else {
      ParseNatAppendSixZeros(NatToString(millis));
      ParseNatToString(millis);
    }
  }

  /** The line the newer writer sends for one metric. */
  function ProtocolLine(name: string, tags: Option<string>, v: Value, millis: int): (r: string)
    ensures |r| >= 1 && r[|r| - 1] == '\n'
  {
    MeasurementName(name) + TagSegment(tags) + " value=" + RenderValue(v) + " " + TimestampText(millis) + "\n"
  }

  /** Where each field of a newer-writer line sits: the measurement first, then the tag
      segment, then ` value=` and the value, then a space and the timestamp, then `\n`. */
  lemma ProtocolLineLayout(name: string, tags: Option<string>, v: Value, millis: int)
    ensures var line := ProtocolLine(name, tags, v, millis);
            var mn, t, vs, ts := MeasurementName(name), TagSegment(tags), RenderValue(v), TimestampText(millis);
            var i1, i2 := |mn|, |mn| + |t|;
            var i3, i4 := i2 + 7, i2 + 7 + |vs|;
            var i5, i6 := i4 + 1, i4 + 1 + |ts|;
            |line| == i6 + 1
            && line[..i1] == mn && line[i1..i2] == t && line[i2..i3] == " value="
            && line[i3..i4] == vs && line[i4..i5] == " " && line[i5..i6] == ts && line[i6..] == "\n"
  {
    ProtocolPieces(MeasurementName(name), TagSegment(tags), RenderValue(v), TimestampText(millis));
  }

  /** The same layout on plain strings. */
  lemma ProtocolPieces(mn: string, t: string, vs: string, ts: string)
    ensures var line := mn + t + " value=" + vs + " " + ts + "\n";
            var i1, i2 := |mn|, |mn| + |t|;
            var i3, i4 := i2 + 7, i2 + 7 + |vs|;
            var i5, i6 := i4 + 1, i4 + 1 + |ts|;
            |line| == i6 + 1
            && line[..i1] == mn && line[i1..i2] == t && line[i2..i3] == " value="
            && line[i3..i4] == vs && line[i4..i5] == " " && line[i5..i6] == ts && line[i6..] == "\n"
  {
    ConcatSlices(mn, t, " value=", vs, " ", ts, "\n");
  }

  /** A value whose text has no line break. */
  predicate NewlineFree(v: Value)
  {
    match v
    case Str(s) => '\n' !in s
    case Other(text) => '\n' !in text
  }

  /** Sanitising the tags introduces no line break. */
  lemma TagSegmentNewlineFree(tags: Option<string>)
    requires '\n' !in NullableText(tags)
    ensures '\n' !in TagSegment(tags)
  {
    SanitisedNewlineFree(NullableText(tags));
  }

  /** The same on a plain tag string. */
  lemma SanitisedNewlineFree(t: string)
    requires '\n' !in t
    ensures '\n' !in "," + RemoveChar(ReplaceChar(t, '.', '_'), ' ')
  {
    var replaced := ReplaceChar(t, '.', '_');
    assert '\n' !in replaced;
    var r := RemoveChar(replaced, ' ');
    assert multiset(r)['\n'] == 0 by {
      assert multiset(replaced)['\n'] == 0;
    }
  }

  /** When neither the name, the tags nor the value holds a line break, the line holds
      exactly one, its last character. */
  lemma ProtocolLineIsOneLine(name: string, tags: Option<string>, v: Value, millis: int)
    requires '\n' !in name && '\n' !in NullableText(tags) && NewlineFree(v)
    ensures var line := ProtocolLine(name, tags, v, millis);
            line[|line| - 1] == '\n' && '\n' !in line[..|line| - 1]
  {
    TagSegmentNewlineFree(tags);
    assert '\n' !in RenderValue(v);
    OneLinePieces(MeasurementName(name), TagSegment(tags), RenderValue(v), TimestampText(millis));
  }

  /** The same on plain strings. */
  lemma OneLinePieces(mn: string, t: string, vs: string, ts: string)
    requires '\n' !in mn && '\n' !in t && '\n' !in vs && '\n' !in ts
    ensures var line := mn + t + " value=" + vs + " " + ts + "\n";
            line[|line| - 1] == '\n' && '\n' !in line[..|line| - 1]
  {
    var body := mn + t + " value=" + vs + " " + ts;
    assert '\n' !in body;
    assert (body + "\n")[..|body|] == body;
  }

  /** What the exception listener makes of a notification message: every line break
      becomes `#`. */
  function MangleMessage(message: string): (r: string)
    ensures |r| == |message| && '\n' !in r
    ensures forall i :: 0 <= i < |message| && message[i] != '\n' ==> r[i] == message[i]
    ensures forall i :: 0 <= i < |message| && message[i] == '\n' ==> r[i] == '#'
  {
    ReplaceChar(message, '\n', '#')
  }

  /** The line the newer writer sends for a JMX exception notification: the notification
      type as the metric name and the mangled message as a `String` value. */
  function NotificationLine(notificationType: string, message: string, tags: Option<string>, millis: int): (r: string)
    ensures |r| >= 1 && r[|r| - 1] == '\n'
  {
    ProtocolLine(notificationType, tags, Str(MangleMessage(message)), millis)
  }

  /** A message without a line break is sent as it is: the notification line is the
      newer writer's line for the message itself. */
  lemma NotificationWithoutBreakVerbatim(notificationType: string, message: string, tags: Option<string>, millis: int)
    ensures '\n' !in message ==>
              NotificationLine(notificationType, message, tags, millis) == ProtocolLine(notificationType, tags, Str(message), millis)
  {
    if '\n' !in message {
      var m := MangleMessage(message);
      assert m == message by {
        forall i | 0 <= i < |message| ensures m[i] == message[i] { assert message[i] != '\n'; }
      }
    }
  }

  /** A notification line is single-line whatever the message holds. */
  lemma NotificationLineIsOneLine(notificationType: string, message: string, tags: Option<string>, millis: int)
    requires '\n' !in notificationType && '\n' !in NullableText(tags)
    ensures var line := NotificationLine(notificationType, message, tags, millis);
            line[|line| - 1] == '\n' && '\n' !in line[..|line| - 1]
  {
    ProtocolLineIsOneLine(notificationType, tags, Str(MangleMessage(message)), millis);
  }

  /** The value of a notification line is the mangled message in double quotes. */
  lemma NotificationValueQuoted(notificationType: string, message: string, tags: Option<string>, millis: int)
    ensures var line := NotificationLine(notificationType, message, tags, millis);
            var quoted := "\"" + MangleMessage(message) + "\"";
            var p := |MeasurementName(notificationType)| + |TagSegment(tags)|;
            |line| > p + 7 + |quoted|
            && line[p..p + 7] == " value="
            && line[p + 7..p + 7 + |quoted|] == quoted
  {
    ProtocolLineLayout(notificationType, tags, Str(MangleMessage(message)), millis);
  }

  /** The line the older writer sends: tags verbatim, two spaces before `value=`, and no
      timestamp. */
  function LegacyLine(name: string, tags: Option<string>, v: Value): (r: string)
    ensures |r| >= 1 && r[|r| - 1] == '\n'
  {
    MeasurementName(name) + "," + NullableText(tags) + " " + " value=" + RenderValue(v) + "\n"
  }

  /** Where each field of an older-writer line sits; the tag setting is copied unchanged,
      dots and spaces included. */
  lemma LegacyLineLayout(name: string, tags: Option<string>, v: Value)
    ensures var line := LegacyLine(name, tags, v);
            var mn, tt, vs := MeasurementName(name), NullableText(tags), RenderValue(v);
            var m := |mn|;
            |line| == m + 1 + |tt| + 8 + |vs| + 1
            && line[..m] == mn
            && line[m..m + 1 + |tt|] == "," + tt
            && line[m + 1 + |tt|..m + 1 + |tt| + 8] == "  value="
            && line[m + 1 + |tt| + 8..|line| - 1] == vs
            && line[|line| - 1] == '\n'
    ensures tags.None? ==> LegacyLine(name, tags, v)[|MeasurementName(name)|..|MeasurementName(name)| + 5] == ",null"
  {
    LegacyPieces(MeasurementName(name), NullableText(tags), RenderValue(v));
  }

  /** The same layout on plain strings. */
  lemma LegacyPieces(mn: string, tt: string, vs: string)
    ensures var line := mn + "," + tt + " " + " value=" + vs + "\n";
            var m := |mn|;
            |line| == m + 1 + |tt| + 8 + |vs| + 1
            && line[..m] == mn
            && line[m..m + 1 + |tt|] == "," + tt
            && line[m + 1 + |tt|..m + 1 + |tt| + 8] == "  value="
            && line[m + 1 + |tt| + 8..|line| - 1] == vs
            && line[|line| - 1] == '\n'
  {
    var line := mn + "," + tt + " " + " value=" + vs + "\n";
    ConcatSlices(mn, ",", tt, " ", " value=", vs, "\n");
    var m := |mn|;
    assert line[m..m + 1 + |tt|] == line[m..m + 1] + line[m + 1..m + 1 + |tt|];
    assert line[m + 1 + |tt|..m + 1 + |tt| + 8] == line[m + 1 + |tt|..m + 2 + |tt|] + line[m + 2 + |tt|..m + 9 + |tt|];
  }

  /** The two line shapes regrouped around what they share, on plain strings. */
  lemma RegroupPieces(mn: string, t: string, vs: string, ts: string)
    ensures mn + "," + t + " " + " value=" + vs + "\n" == (mn + "," + t) + " " + (" value=" + vs) + "\n"
    ensures mn + ("," + t) + " value=" + vs + " " + ts + "\n" == (mn + "," + t) + (" value=" + vs) + " " + ts + "\n"
  {
  }

  /** For a tag setting without dots or spaces, the two writers share the measurement, the
      tags and the field; the older line has one more space before the field and no
      timestamp, the newer one ends with ` <timestamp>`. */
  lemma LegacyAndProtocolLineDiffer(name: string, t: string, v: Value, millis: int)
    requires '.' !in t && ' ' !in t
    ensures var head, field := MeasurementName(name) + "," + t, " value=" + RenderValue(v);
            LegacyLine(name, Some(t), v) == head + " " + field + "\n"
            && ProtocolLine(name, Some(t), v, millis) == head + field + " " + TimestampText(millis) + "\n"
  {
    ProtocolLineCleanTags(name, t, v, millis);
    RegroupPieces(MeasurementName(name), t, RenderValue(v), TimestampText(millis));
  }

  /** With clean tags, the newer line spelled out piece by piece. */
  lemma ProtocolLineCleanTags(name: string, t: string, v: Value, millis: int)
    requires '.' !in t && ' ' !in t
    ensures ProtocolLine(name, Some(t), v, millis)
              == MeasurementName(name) + ("," + t) + " value=" + RenderValue(v) + " " + TimestampText(millis) + "\n"
  {
    CleanTagsVerbatim(t);
  }
}
