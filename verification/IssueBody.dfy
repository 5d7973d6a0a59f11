/** The text of an issue: a note, and a document between two markers. */
module IssueBody {
  import opened Records
  import Text

  datatype Markers = Markers(begin: string, end: string)

  const MARKERS: Markers := Markers("<" + "!-- protobot-wms-v1 -->", "<!-- /protobot-wms-v1 -->")

  predicate OccursAt(s: string, marker: string, i: int) {
    0 <= i <= |s| - |marker| && s[i..i + |marker|] == marker
  }

  ghost predicate Contains(s: string, marker: string) {
    exists i :: OccursAt(s, marker, i)
  }

  /** The first occurrence at or after `from`. */
  function IndexFrom(s: string, marker: string, from: nat): (index: Option<nat>)
    requires from <= |s|
    ensures index.Some? ==> from <= index.value && OccursAt(s, marker, index.value)
    ensures index.Some? ==> forall i | from <= i < index.value :: !OccursAt(s, marker, i)
    ensures index.None? ==> forall i | from <= i :: !OccursAt(s, marker, i)
    decreases |s| - from
  {
    if OccursAt(s, marker, from) then Some(from)
    else if from < |s| then IndexFrom(s, marker, from + 1)
    else None
  }

  /** The last occurrence before `to`. */
  function LastIndexBefore(s: string, marker: string, to: nat): (index: Option<nat>)
    ensures index.Some? ==> index.value < to && OccursAt(s, marker, index.value)
    ensures index.Some? ==> forall i | index.value < i < to :: !OccursAt(s, marker, i)
    ensures index.None? ==> forall i | i < to :: !OccursAt(s, marker, i)
  {
    if to == 0 then None
    else if OccursAt(s, marker, to - 1) then Some(to - 1)
    else LastIndexBefore(s, marker, to - 1)
  }

  function Index(s: string, marker: string): (index: Option<nat>) {
    IndexFrom(s, marker, 0)
  }

  function LastIndex(s: string, marker: string): (index: Option<nat>) {
    LastIndexBefore(s, marker, |s| + 1)
  }

  function Preamble(note: string): (s: string) {
    if note == "" then "" else note + "\n\n"
  }

  function EncodeWith(m: Markers, note: string, text: string): (body: string) {
    Preamble(note) + m.begin + "\n" + text + "\n" + m.end + "\n"
  }

  function Encode(note: string, text: string): (body: string) {
    EncodeWith(MARKERS, note, text)
  }

  /** The trimmed text between a begin and an end marker. */
  function Between(m: Markers, body: string, start: Option<nat>, end: Option<nat>): (text: Option<string>)
    requires Distinct(m)
    requires start.Some? ==> OccursAt(body, m.begin, start.value)
    requires end.Some? ==> OccursAt(body, m.end, end.value)
  {
    if start.None? || end.None? || end.value <= start.value then None
    else
      MarkersDoNotOverlap(m, body, start.value, end.value);
      Some(Text.Trim(body[start.value + |m.begin|..end.value]))
  }

  function DecodeWith(m: Markers, body: string): (text: Option<string>)
    requires Distinct(m)
  {
    Between(m, body, Index(body, m.begin), LastIndex(body, m.end))
  }

  function Decode(body: string): (text: Option<string>) {
    TheMarkers();
    DecodeWith(MARKERS, body)
  }

  /** A JSON object's text. */
  predicate IsObjectText(text: string) {
    |text| >= 2 && text[0] == '{' && text[|text| - 1] == '}'
  }

  // ----- the markers -----

  /** Both markers open with `<`, which the begin marker holds nowhere else and the end marker
      not right after; neither holds a line break; neither starts the other. */
  predicate Distinct(m: Markers) {
    && 6 <= |m.begin| && 6 <= |m.end|
    && m.begin[0] == '<' == m.end[0] && m.end[1] != '<' && m.end[5] != m.begin[5]
    && '<' !in m.begin[1..]
    && '\n' !in m.begin && '\n' !in m.end
  }

  lemma TheMarkers()
    ensures Distinct(MARKERS)
  {
    NoBreaks();
    OneBracket();
  }

  lemma NoBreaks()
    ensures '\n' !in MARKERS.begin && '\n' !in MARKERS.end
  {
  }

  lemma OneBracket()
    ensures '<' !in MARKERS.begin[1..]
  {
    var tail := "!-- protobot-wms-v1 -->";
    assert '<' !in tail;
    Tail("<", tail);
  }

  lemma Tail(head: string, tail: string)
    ensures (head + tail)[|head|..] == tail
  {
  }

  lemma NoLaterBracket(m: Markers, k: nat)
    requires Distinct(m) && 0 < k < |m.begin|
    ensures m.begin[k] != '<'
  {
    assert m.begin[1..][k - 1] == m.begin[k];
  }

  lemma CharAt(s: string, marker: string, i: nat, k: nat)
    requires OccursAt(s, marker, i) && k < |marker|
    ensures s[i + k] == marker[k]
  {
    assert s[i..i + |marker|][k] == s[i + k];
  }

  /** An end marker that starts after a begin marker starts after all of it, so cutting the
      text between them is always possible. */
  lemma MarkersDoNotOverlap(m: Markers, body: string, start: nat, end: nat)
    requires Distinct(m)
    requires OccursAt(body, m.begin, start) && OccursAt(body, m.end, end) && start < end
    ensures start + |m.begin| <= end
  {
    CharAt(body, m.end, end, 0);
    CharAt(body, m.begin, start, if end < start + |m.begin| then end - start else 0);
    if end < start + |m.begin| {
      NoLaterBracket(m, end - start);
    }
  }

  // ----- where the markers are -----

  lemma EncodedShape(m: Markers, note: string, text: string)
    ensures var body, start := EncodeWith(m, note, text), |Preamble(note)|;
            var end := start + |m.begin| + |text| + 2;
            && |body| == end + |m.end| + 1
            && OccursAt(body, m.begin, start)
            && OccursAt(body, m.end, end)
            && body[start + |m.begin|..end] == "\n" + text + "\n"
            && body[..start] == Preamble(note)
  {
    var body, start := EncodeWith(m, note, text), |Preamble(note)|;
    var end := start + |m.begin| + |text| + 2;
    assert body == Preamble(note) + m.begin + ("\n" + text + "\n") + (m.end + "\n");
    assert body[start..start + |m.begin|] == m.begin;
    assert body[end..end + |m.end|] == m.end;
  }

  /** The end marker of an encoded document is the last one, whatever its text holds. */
  lemma LastEnd(m: Markers, note: string, text: string)
    requires Distinct(m)
    ensures LastIndex(EncodeWith(m, note, text), m.end) == Some(|Preamble(note)| + |m.begin| + |text| + 2)
  {
    EncodedShape(m, note, text);
    var body, end := EncodeWith(m, note, text), |Preamble(note)| + |m.begin| + |text| + 2;
    hide EncodeWith;
    var last := LastIndex(body, m.end).value;
    CharAt(body, m.end, end, 1);
    CharAt(body, m.end, last, 0);
  }

  /** The begin marker is the first one if the note holds none. */
  lemma FirstBegin(m: Markers, note: string, text: string)
    requires Distinct(m) && !Contains(note, m.begin)
    ensures Index(EncodeWith(m, note, text), m.begin) == Some(|Preamble(note)|)
  {
    EncodedShape(m, note, text);
    var body, start := EncodeWith(m, note, text), |Preamble(note)|;
    hide EncodeWith;
    forall i | 0 <= i < start
      ensures OccursAt(body, m.begin, i) ==> OccursAt(note, m.begin, i)
    {
      BeginInNote(m, note, body, i);
    }
  }

  /** No begin marker straddles the end of the note: it has no line break in it. */
  lemma BeginInNote(m: Markers, note: string, body: string, i: nat)
    requires Distinct(m)
    requires note != "" && |body| >= |note| + 2 && body[..|note| + 2] == note + "\n\n"
    requires i < |note| + 2
    ensures OccursAt(body, m.begin, i) ==> OccursAt(note, m.begin, i)
  {
    var at := if i <= |note| then |note| else i;
    assert body[at] == body[..|note| + 2][at] == '\n';
    if OccursAt(body, m.begin, i) {
      if at < i + |m.begin| {
        CharAt(body, m.begin, i, at - i);
      }
      assert body[..|note| + 2][i..i + |m.begin|] == body[i..i + |m.begin|];
    }
  }

  // ----- the round trip -----

  /** Decoding gives the document back, whatever markers its text holds, exactly if the note
      holds no begin marker. */
  lemma RoundTrip(note: string, text: string)
    requires IsObjectText(text)
    ensures Decode(Encode(note, text)) == Some(text) <==> !Contains(note, MARKERS.begin)
  {
    TheMarkers();
    RoundTripWith(MARKERS, note, text);
  }

  lemma RoundTripWith(m: Markers, note: string, text: string)
    requires Distinct(m) && IsObjectText(text)
    ensures DecodeWith(m, EncodeWith(m, note, text)) == Some(text) <==> !Contains(note, m.begin)
  {
    hide EncodeWith, Preamble, OccursAt, Index, LastIndex, DecodeWith, Contains, Text.Trim, Distinct;
    LastEnd(m, note, text);
    EncodedShape(m, note, text);
    if !Contains(note, m.begin) {
      FirstBegin(m, note, text);
      DecodeAt(m, EncodeWith(m, note, text), |Preamble(note)|, |Preamble(note)| + |m.begin| + |text| + 2);
      Text.TrimPadding("\n", text, "\n");
    } else {
      EarlyBegin(m, note, text);
    }
  }

  lemma DecodeAt(m: Markers, body: string, start: nat, end: nat)
    requires Distinct(m) && Index(body, m.begin) == Some(start) && LastIndex(body, m.end) == Some(end) && start < end
    ensures start + |m.begin| <= end <= |body| && DecodeWith(m, body) == Some(Text.Trim(body[start + |m.begin|..end]))
  {
    MarkersDoNotOverlap(m, body, start, end);
    hide Text.Trim, Distinct;
  }

  /** A begin marker in the note makes the decoder start too early. */
  lemma EarlyBegin(m: Markers, note: string, text: string)
    requires Distinct(m) && IsObjectText(text) && Contains(note, m.begin)
    ensures DecodeWith(m, EncodeWith(m, note, text)) != Some(text)
  {
    hide EncodeWith, Preamble, OccursAt, Index, LastIndex, DecodeWith, Contains, Text.Trim;
    var body, start := EncodeWith(m, note, text), |Preamble(note)|;
    LastEnd(m, note, text);
    EncodedShape(m, note, text);
    InPreamble(m, note, body);
    var first := Index(body, m.begin).value;
    DecodeAt(m, body, first, start + |m.begin| + |text| + 2);
    LongerBetween(m, body, text, first, start);
  }

  lemma InPreamble(m: Markers, note: string, body: string)
    requires Contains(note, m.begin) && m.begin != "" && |body| >= |Preamble(note)| && body[..|Preamble(note)|] == Preamble(note)
    ensures Index(body, m.begin).Some? && Index(body, m.begin).value + |m.begin| <= |Preamble(note)|
  {
    var i :| OccursAt(note, m.begin, i);
    assert body[..|note|] == body[..|Preamble(note)|][..|note|] == note;
    assert body[..|note|][i..i + |m.begin|] == body[i..i + |m.begin|];
    assert OccursAt(body, m.begin, i);
  }

  /** What lies between an earlier begin marker and the end holds the whole document and more. */
  lemma LongerBetween(m: Markers, body: string, text: string, first: nat, start: nat)
    requires Distinct(m) && IsObjectText(text)
    requires first + |m.begin| <= start && OccursAt(body, m.begin, start)
    requires start + |m.begin| + |text| + 2 <= |body|
    requires body[start + |m.begin|..start + |m.begin| + |text| + 2] == "\n" + text + "\n"
    ensures |Text.Trim(body[first + |m.begin|..start + |m.begin| + |text| + 2])| > |text|
  {
    var end := start + |m.begin| + |text| + 2;
    var core := m.begin + "\n" + text;
    var left := body[first + |m.begin|..start];
    assert body[first + |m.begin|..end] == left + body[start..start + |m.begin|] + body[start + |m.begin|..end];
    assert body[first + |m.begin|..end] == left + core + "\n";
    Text.TrimKeepsCore(left, core, "\n");
  }

  /** With any printer and parser that agree on it, the document itself comes back. */
  lemma DocumentRoundTrip<D>(show: D -> string, parse: string -> Option<D>, note: string, doc: D)
    requires IsObjectText(show(doc)) && parse(show(doc)) == Some(doc)
    requires !Contains(note, MARKERS.begin)
    ensures Decode(Encode(note, show(doc))).Some? && parse(Decode(Encode(note, show(doc))).value) == Some(doc)
  {
    RoundTrip(note, show(doc));
  }

  // ----- why the last end marker -----

  /** The decoder that would stop at the first end marker. */
  function DecodeToFirstEnd(m: Markers, body: string): (text: Option<string>)
    requires Distinct(m)
  {
    Between(m, body, Index(body, m.begin), Index(body, m.end))
  }

  /** It gives a document back exactly if the text holds no end marker. */
  lemma FirstEndFails(m: Markers, text: string)
    requires Distinct(m) && IsObjectText(text)
    ensures DecodeToFirstEnd(m, EncodeWith(m, "", text)) == Some(text) <==> !Contains(text, m.end)
  {
    var body, end := EncodeWith(m, "", text), |m.begin| + |text| + 2;
    EncodedShape(m, "", text);
    FirstBegin(m, "", text);
    hide EncodeWith;
    var first := Index(body, m.end).value;
    if Contains(text, m.end) {
      StopsEarly(m, body, text, first);
    } else {
      EndInText(m, body, text, first);
      Text.TrimPadding("\n", text, "\n");
    }
  }

  lemma StopsEarly(m: Markers, body: string, text: string, first: nat)
    requires Contains(text, m.end) && Index(body, m.end) == Some(first) && |m.begin| <= first
    requires |body| >= |m.begin| + |text| + 2 && body[|m.begin|..|m.begin| + |text| + 2] == "\n" + text + "\n"
    requires |m.end| > 1
    ensures |Text.Trim(body[|m.begin|..first])| < |text|
  {
    var i :| OccursAt(text, m.end, i);
    InText(m, body, text, i);
    TrimShortens(body[|m.begin|..first]);
  }

  lemma Within(s: string, from: nat, length: nat, i: nat, n: nat)
    requires from + length <= |s| && i + n <= length
    ensures s[from..from + length][i..i + n] == s[from + i..from + i + n]
  {
    var outer, inner := s[from..from + length], s[from + i..from + i + n];
    assert forall k | 0 <= k < n :: outer[i..i + n][k] == inner[k];
  }

  lemma Inside(text: string)
    ensures ("\n" + text + "\n")[1..1 + |text|] == text
  {
    assert "\n" + text + "\n" == "\n" + (text + "\n");
  }

  /** An end marker in the text is one in the body. */
  lemma InText(m: Markers, body: string, text: string, i: nat)
    requires OccursAt(text, m.end, i)
    requires |body| >= |m.begin| + |text| + 2 && body[|m.begin|..|m.begin| + |text| + 2] == "\n" + text + "\n"
    ensures OccursAt(body, m.end, |m.begin| + 1 + i)
  {
    var from := |m.begin| + 1 + i;
    var inner := body[|m.begin|..|m.begin| + |text| + 2];
    Inside(text);
    Within(inner, 1, |text|, i, |m.end|);
    Within(body, |m.begin|, |text| + 2, 1 + i, |m.end|);
    assert body[from..from + |m.end|] == inner[1 + i..1 + i + |m.end|];
  }

  lemma TrimShortens(s: string)
    ensures |Text.Trim(s)| <= |s|
  {
    TrimLeftShortens(s);
    TrimRightShortens(Text.TrimLeft(s));
  }

  lemma {:induction false} TrimLeftShortens(s: string)
    ensures |Text.TrimLeft(s)| <= |s|
  {
    if s != "" {
      TrimLeftShortens(s[1..]);
    }
  }

  lemma {:induction false} TrimRightShortens(s: string)
    ensures |Text.TrimRight(s)| <= |s|
  {
    if s != "" {
      TrimRightShortens(s[..|s| - 1]);
    }
  }

  /** The end marker is not found in the begin marker. */
  lemma EndAfterBegin(m: Markers, body: string, first: nat)
    requires Distinct(m) && OccursAt(body, m.begin, 0) && OccursAt(body, m.end, first)
    ensures |m.begin| <= first
  {
    CharAt(body, m.end, first, 0);
    CharAt(body, m.end, first, 5);
    CharAt(body, m.begin, 0, 5);
    CharAt(body, m.begin, 0, if first < |m.begin| then first else 0);
    hide OccursAt;
    if 0 < first < |m.begin| {
      NoLaterBracket(m, first);
    }
  }

  /** No end marker covers a line break. */
  lemma EndAround(m: Markers, body: string, first: nat, at: nat)
    requires Distinct(m) && OccursAt(body, m.end, first) && at < |body| && body[at] == '\n'
    ensures at < first || first + |m.end| <= at
  {
    CharAt(body, m.end, first, if first <= at < first + |m.end| then at - first else 0);
    hide OccursAt;
  }

  /** An earlier end marker lies in the text. */
  lemma EndInText(m: Markers, body: string, text: string, first: nat)
    requires Distinct(m)
    requires OccursAt(body, m.begin, 0) && OccursAt(body, m.end, first)
    requires |body| >= |m.begin| + |text| + 2 && body[|m.begin|..|m.begin| + |text| + 2] == "\n" + text + "\n"
    ensures first < |m.begin| + |text| + 2 ==> Contains(text, m.end)
  {
    var end := |m.begin| + |text| + 2;
    var inner := body[|m.begin|..end];
    assert body[|m.begin|] == inner[0] == '\n';
    assert body[end - 1] == inner[|text| + 1] == '\n';
    EndAfterBegin(m, body, first);
    EndAround(m, body, first, |m.begin|);
    EndAround(m, body, first, end - 1);
    hide Distinct;
    if first < end {
      var i := first - |m.begin| - 1;
      Inside(text);
      Within(inner, 1, |text|, i, |m.end|);
      Within(body, |m.begin|, |text| + 2, i + 1, |m.end|);
      assert OccursAt(text, m.end, i);
    }
  }
}
