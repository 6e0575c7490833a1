/** The inference client's reply handling (`callOpenRouter`) and the reply
    parser (`parseResponse`), which splits a model reply into a narrative and
    a world state using the two section markers. */
module Ai {
  import opened Common
  import opened Text
  import opened Json
  import opened Constants

  /** Shown when no narrative section can be found. */
  const ParseErrorNarrative := "解析錯誤：無法讀取敘事內容。"

  /** What `callOpenRouter` returns when a successful reply carries no content. */
  const NoResponse := "(no response)"

  /** The error `data.choices` throws when the body is the JSON `null`. */
  const NullBody := "Cannot read properties of null (reading 'choices')"

  /** The error `text.match` throws in `parseResponse` when the content is
      not a string. */
  const NotText := "text.match is not a function"

  /** The completion endpoint's reply: whether the status is a success,
      the status code, and the body text. */
  datatype HttpReply = HttpReply(ok: bool, status: nat, body: string)

  datatype Parsed = Parsed(narrative: string, state: Json)

  predicate IsDigit(c: char) {
    '0' <= c <= '9'
  }

  function DigitsValue(s: string): nat
    requires forall i :: 0 <= i < |s| ==> IsDigit(s[i])
  {
    if s == [] then 0
    else
      assert IsDigit(s[|s| - 1]);
      10 * DigitsValue(s[..|s| - 1]) + (s[|s| - 1] as int - '0' as int)
  }

  /** A number written in decimal, as a template literal prints it. */
  function Decimal(n: nat): (r: string)
    ensures r != [] && forall i :: 0 <= i < |r| ==> IsDigit(r[i])
    ensures DigitsValue(r) == n
    ensures r[0] == '0' ==> r == "0"
  {
    var last := [('0' as int + n % 10) as char];
    if n < 10 then last
    else
      var r := Decimal(n / 10) + last;
      assert r[..|r| - 1] == Decimal(n / 10);
      r
  }

  /** `v?.key` on a value that may be `undefined` (`None`): an object's
      member, and `undefined` for `null` and for values with no such
      property. */
  function Field(v: Option<Json>, key: string): (r: Option<Json>)
    ensures r.Some? ==> v.Some? && v.value.JObject?
    ensures v.Some? && v.value.JObject? ==> r == Member(v.value.members, key)
  {
    match v
    case Some(JObject(m)) => Member(m, key)
    case _ => None
  }

  /** `v?.[0]`: an array's first element, an object's member `"0"`, a
      string's first character, and `undefined` for everything else. */
  function First(v: Option<Json>): (r: Option<Json>)
    ensures v.Some? && v.value.JArray? ==> r == if v.value.items == [] then None else Some(v.value.items[0])
    ensures v.None? || v.value.JNull? || v.value.JNumber? || v.value.JBool? ==> r.None?
  {
    match v
    case Some(JArray(items)) => if items == [] then None else Some(items[0])
    case Some(JObject(m)) => Member(m, "0")
    case Some(JString(t)) => if t == [] then None else Some(JString([t[0]]))
    case _ => None
  }

  /** `data.choices?.[0]?.message?.content ?? "(no response)"` for a
      decoded body other than `null`. */
  function ContentOf(data: Json): (r: Json)
    ensures r != JNull
  {
    match Field(Field(First(Field(Some(data), "choices")), "message"), "content")
    case None => JString(NoResponse)
    case Some(JNull) => JString(NoResponse)
    case Some(c) => c
  }

  /** A completion body in the endpoint's documented shape. */
  function Completion(content: Json): Json {
    JObject([("choices", JArray([JObject([("message", JObject([("role", JString("assistant")), ("content", content)]))])]))])
  }

  /** `callOpenRouter` once `fetch` has settled: a rejected `fetch` passes
      its error on, a failure status becomes an error naming the status
      and the body, a body that is not JSON or is `null` throws, and
      otherwise the reply's content is returned, or `(no response)` when
      there is none. The content is whatever JSON value the body holds. */
  function CallOpenRouter(fetched: Result<HttpReply>, codec: Codec): (r: Result<Json>)
    ensures fetched.Err? ==> r == Err(fetched.error)
    ensures fetched.Ok? && !fetched.value.ok ==>
      r == Err("OpenRouter " + Decimal(fetched.value.status) + ": " + fetched.value.body)
    ensures fetched.Ok? && fetched.value.ok && codec.decode(fetched.value.body).None? ==> r == Err(ParseFailure)
    ensures fetched.Ok? && fetched.value.ok && codec.decode(fetched.value.body) == Some(JNull) ==> r == Err(NullBody)
    ensures r.Ok? <==> fetched.Ok? && fetched.value.ok
                       && codec.decode(fetched.value.body).Some? && codec.decode(fetched.value.body) != Some(JNull)
    ensures r.Ok? ==> r.value != JNull
  {
    match fetched
    case Err(e) => Err(e)
    case Ok(reply) =>
      if !reply.ok then Err("OpenRouter " + Decimal(reply.status) + ": " + reply.body)
      else
        match codec.decode(reply.body)
        case None => Err(ParseFailure)
        case Some(JNull) => Err(NullBody)
        case Some(data) => Ok(ContentOf(data))
  }

  /** A successful reply in the documented shape yields its content; a
      `null` content, or a body without choices, yields `(no response)`. */
  lemma CompletionContent(codec: Codec, status: nat, content: Json, other: seq<(string, Json)>)
    requires Sound(codec)
    requires forall i :: 0 <= i < |other| ==> other[i].0 != "choices"
    ensures var body := codec.encode(Completion(content));
      CallOpenRouter(Ok(HttpReply(true, status, body)), codec)
        == Ok(if content == JNull then JString(NoResponse) else content)
    ensures CallOpenRouter(Ok(HttpReply(true, status, codec.encode(JObject(other)))), codec)
        == Ok(JString(NoResponse))
  {
    var message := JObject([("role", JString("assistant")), ("content", content)]);
    assert Member(message.members, "content") == Some(content);
    assert Member(other, "choices").None?;
  }

  /** The reply text handed to `parseResponse`: a content that is not a
      string makes `text.match` throw. */
  function RawText(content: Result<Json>): (r: Result<string>)
    ensures r.Ok? <==> content.Ok? && content.value.JString?
    ensures r.Ok? ==> content.value == JString(r.value)
    ensures content.Err? ==> r == Err(content.error)
    ensures content.Ok? && !content.value.JString? ==> r == Err(NotText)
  {
    match content
    case Err(e) => Err(e)
    case Ok(JString(t)) => Ok(t)
    case Ok(_) => Err(NotText)
  }

  /** The first regular expression of the parser: the narrative marker,
      optional whitespace, a lazy capture, optional whitespace, the state
      marker. It matches at the first narrative marker provided some state
      marker begins after it, and its capture is then the text up to the
      first such state marker with the whitespace at both ends removed; an
      empty capture counts as no narrative. The result is either the
      placeholder or a non-empty trimmed piece of the reply. */
  function NarrativeOf(text: string): (r: string)
    ensures r == ParseErrorNarrative || (r != [] && IsTrimmed(r) && exists i :: OccursAt(text, r, i))
  {
    match IndexOf(text, NarrativeMarker, 0)
    case None => ParseErrorNarrative
    case Some(p) =>
      var a := p + |NarrativeMarker|;
      match IndexOf(text, StateMarker, a)
      case None => ParseErrorNarrative
      case Some(s) =>
        NarrativeBody(text, a, s)
  }

  /** The trimmed text between the end of the narrative marker and the
      start of the state marker, or the placeholder if it is blank. */
  function NarrativeBody(text: string, a: nat, b: nat): (r: string)
    requires a <= b <= |text|
    ensures r == ParseErrorNarrative || (r != [] && IsTrimmed(r) && exists i :: OccursAt(text, r, i))
  {
    var section := text[a..b];
    var body := Trim(section);
    if body == [] then ParseErrorNarrative
    else
      TrimmedSliceOccurs(text, a, b);
      body
  }

  /** The trimmed text of a slice occurs in the whole text. */
  lemma TrimmedSliceOccurs(text: string, a: nat, b: nat)
    requires a <= b <= |text|
    ensures OccursAt(text, Trim(text[a..b]), a + TrimOffset(text[a..b]))
  {
    var section := text[a..b];
    assert OccursAt(section, Trim(section), TrimOffset(section));
    PieceOccurs(text, a, b, Trim(section), TrimOffset(section));
  }

  /** A piece of a slice is a piece of the whole text. */
  lemma PieceOccurs(text: string, a: nat, b: nat, piece: string, o: nat)
    requires a <= b <= |text| && OccursAt(text[a..b], piece, o)
    ensures OccursAt(text, piece, a + o)
  {
    var t := text[a..b][o..o + |piece|];
    forall i | 0 <= i < |piece|
      ensures t[i] == text[a + o..a + o + |piece|][i]
    {
    }
  }

  /** The second regular expression's capture when it is non-empty: all the
      text after the first state marker, leading whitespace dropped. */
  function StateSection(text: string): (r: Option<string>)
    ensures r.Some? ==> r.value != [] && !IsWs(r.value[0])
  {
    match IndexOf(text, StateMarker, 0)
    case None => None
    case Some(q) =>
      var rest := TrimStart(text[q + |StateMarker|..]);
      if rest == [] then None else Some(rest)
  }

  /** Removes a leading "```json" or "```" fence and one trailing "```"
      from an already trimmed section. */
  function Unfence(t: string): (r: string)
    ensures !StartsWith(t, "```") ==> r == t
    ensures StartsWith(t, "```json") && EndsWith(t[7..], "```") ==> r + "```" == t[7..]
    ensures StartsWith(t, "```json") && !EndsWith(t[7..], "```") ==> r == t[7..]
    ensures StartsWith(t, "```") && !StartsWith(t, "```json") && EndsWith(t[3..], "```") ==> r + "```" == t[3..]
    ensures StartsWith(t, "```") && !StartsWith(t, "```json") && !EndsWith(t[3..], "```") ==> r == t[3..]
  {
    if StartsWith(t, "```json") then DropSuffix(t[7..], "```")
    else if StartsWith(t, "```") then DropSuffix(t[3..], "```")
    else t
  }

  /** The text handed to `JSON.parse` for a given state section. */
  function Payload(section: string): (r: string)
    ensures IsTrimmed(r)
    ensures !StartsWith(Trim(section), "```") ==> r == Trim(section)
  {
    Trim(Unfence(Trim(section)))
  }

  /** The parsed state: whatever `JSON.parse` returns for the payload, and
      the initial state when the section is missing or does not parse. */
  function StateOf(text: string, codec: Codec): (r: Json)
    ensures r == InitialStateJson || exists s :: codec.decode(s) == Some(r)
  {
    match StateSection(text)
    case None => InitialStateJson
    case Some(section) =>
      match codec.decode(Payload(section))
      case None => InitialStateJson
      case Some(j) => j
  }

  /** `parseResponse`. */
  function ParseResponse(text: string, codec: Codec): (r: Parsed)
    ensures r.narrative == ParseErrorNarrative
         || (r.narrative != [] && IsTrimmed(r.narrative) && exists i :: OccursAt(text, r.narrative, i))
    ensures r.state == InitialStateJson || exists s :: codec.decode(s) == Some(r.state)
  {
    Parsed(NarrativeOf(text), StateOf(text, codec))
  }

  /** With a narrative marker and a state marker after it, the narrative is
      the trimmed text between the first of each, or the placeholder when
      that text is empty or whitespace; the JSON section plays no part. */
  lemma NarrativeBetweenMarkers(text: string, codec: Codec, p: nat, s: nat)
    requires FirstAt(text, NarrativeMarker, 0, p)
    requires FirstAt(text, StateMarker, p + |NarrativeMarker|, s)
    ensures ParseResponse(text, codec).narrative
         == if IsBlank(text[p + |NarrativeMarker|..s]) then ParseErrorNarrative
            else Trim(text[p + |NarrativeMarker|..s])
  {
    IndexOfFinds(text, NarrativeMarker, 0, p);
    IndexOfFinds(text, StateMarker, p + |NarrativeMarker|, s);
  }

  /** Without a narrative marker the narrative is the placeholder. */
  lemma NarrativeWithoutMarker(text: string, codec: Codec)
    requires forall k :: !OccursAt(text, NarrativeMarker, k)
    ensures ParseResponse(text, codec).narrative == ParseErrorNarrative
  {
    assert IndexOf(text, NarrativeMarker, 0).None?;
  }

  /** A narrative marker with no state marker after it also gives the
      placeholder, even when the narrative text itself is there. */
  lemma NarrativeWithoutStateMarker(text: string, codec: Codec, p: nat)
    requires FirstAt(text, NarrativeMarker, 0, p)
    requires forall k :: p + |NarrativeMarker| <= k ==> !OccursAt(text, StateMarker, k)
    ensures ParseResponse(text, codec).narrative == ParseErrorNarrative
  {
    IndexOfFinds(text, NarrativeMarker, 0, p);
    assert IndexOf(text, StateMarker, p + |NarrativeMarker|).None?;
  }

  /** The narrative never depends on the codec: broken JSON keeps a good narrative. */
  lemma NarrativeIgnoresJson(text: string, c1: Codec, c2: Codec)
    ensures ParseResponse(text, c1).narrative == ParseResponse(text, c2).narrative
  {
  }

  /** Without a state marker the state is the initial state. */
  lemma StateWithoutMarker(text: string, codec: Codec)
    requires forall k :: !OccursAt(text, StateMarker, k)
    ensures ParseResponse(text, codec).state == InitialStateJson
  {
    assert IndexOf(text, StateMarker, 0).None?;
    assert StateSection(text).None?;
  }

  /** After the first state marker: nothing but whitespace gives the initial
      state; otherwise the state is exactly what `JSON.parse` makes of the
      payload, with no check of its shape, or the initial state (never the
      previous one) when it does not parse. */
  lemma StateAfterMarker(text: string, codec: Codec, q: nat)
    requires FirstAt(text, StateMarker, 0, q)
    ensures IsBlank(text[q + |StateMarker|..]) ==> ParseResponse(text, codec).state == InitialStateJson
    ensures !IsBlank(text[q + |StateMarker|..]) ==>
      ParseResponse(text, codec).state
        == match codec.decode(Payload(text[q + |StateMarker|..]))
           case Some(j) => j
           case None => InitialStateJson
  {
    IndexOfFinds(text, StateMarker, 0, q);
    var after := text[q + |StateMarker|..];
    var rest := TrimStart(after);
    assert StateSection(text) == if rest == [] then None else Some(rest);
    TrimAfterTrimStart(after);
    assert Payload(rest) == Payload(after);
  }

  /** A bare payload is handed to `JSON.parse` as it is. */
  lemma BarePayload(p: string)
    requires p != [] && IsTrimmed(p) && !StartsWith(p, "```")
    ensures Unfence(p) == p && Payload(p) == p
  {
    TrimOfTrimmed(p);
    StartsWithPrefix(p, "```json", 3);
    assert "```json"[..3] == "```";
    assert Unfence(p) == p;
  }

  lemma DropFence(inner: string)
    ensures DropSuffix(inner + "```", "```") == inner
  {
    var t := inner + "```";
    assert t[|t| - 3..] == "```";
    assert t[..|inner|] == inner;
  }

  lemma UnfenceJson(inner: string)
    ensures Unfence("```json" + inner + "```") == inner
  {
    var f := "```json" + inner + "```";
    assert f[..7] == "```json";
    assert f[7..] == inner + "```";
    DropFence(inner);
  }

  lemma UnfencePlain(inner: string)
    requires inner == [] || inner[0] != 'j'
    ensures Unfence("```" + inner + "```") == inner
  {
    var f := "```" + inner + "```";
    assert f[3] != 'j';
    assert !StartsWith(f, "```json");
    assert f[..3] == "```";
    assert f[3..] == inner + "```";
    DropFence(inner);
  }

  /** Whitespace around a fenced section is trimmed away and the fence kept. */
  lemma OuterTrim(w0: string, open: string, inner: string, w3: string)
    requires IsBlank(w0) && IsBlank(w3) && open != [] && open[0] == '`'
    ensures Trim(w0 + open + inner + "```" + w3) == open + inner + "```"
  {
    var fenced := open + inner + "```";
    assert w0 + open + inner + "```" + w3 == w0 + fenced + w3;
    assert fenced[0] == '`' && fenced[|fenced| - 1] == '`';
    TrimPadded(w0, fenced, w3);
  }

  /** A payload fenced as "```json" ... "```", with any whitespace around
      and inside the fence, is handed to `JSON.parse` exactly as the bare
      payload would be. */
  lemma JsonFencedPayload(w0: string, w1: string, p: string, w2: string, w3: string)
    requires IsBlank(w0) && IsBlank(w1) && IsBlank(w2) && IsBlank(w3)
    requires p != [] && IsTrimmed(p) && !StartsWith(p, "```")
    ensures Payload(w0 + "```json" + w1 + p + w2 + "```" + w3) == Payload(p)
  {
    var inner := w1 + p + w2;
    assert w0 + "```json" + w1 + p + w2 + "```" + w3 == w0 + "```json" + inner + "```" + w3;
    OuterTrim(w0, "```json", inner, w3);
    UnfenceJson(inner);
    TrimPadded(w1, p, w2);
    BarePayload(p);
  }

  /** The same for a plain "```" fence, provided the fence is not itself
      followed by the letter j (which would make it a "```json" fence). */
  lemma PlainFencedPayload(w0: string, w1: string, p: string, w2: string, w3: string)
    requires IsBlank(w0) && IsBlank(w1) && IsBlank(w2) && IsBlank(w3)
    requires p != [] && IsTrimmed(p) && !StartsWith(p, "```")
    requires w1 != [] || p[0] != 'j'
    ensures Payload(w0 + "```" + w1 + p + w2 + "```" + w3) == Payload(p)
  {
    var inner := w1 + p + w2;
    assert w0 + "```" + w1 + p + w2 + "```" + w3 == w0 + "```" + inner + "```" + w3;
    OuterTrim(w0, "```", inner, w3);
    assert inner[0] == if w1 != [] then w1[0] else p[0];
    UnfencePlain(inner);
    TrimPadded(w1, p, w2);
    BarePayload(p);
  }

  /** In a reply in the instructed format the markers are found where they
      were placed. */
  lemma MarkersPlaced(w1: string, n: string, w2: string, rest: string)
    requires IsBlank(w1) && IsBlank(w2) && StateMarker[4] !in n
    ensures var text := NarrativeMarker + w1 + n + w2 + StateMarker + rest;
      && FirstAt(text, NarrativeMarker, 0, 0)
      && FirstAt(text, StateMarker, 0, |NarrativeMarker + w1 + n + w2|)
  {
    var text := NarrativeMarker + w1 + n + w2 + StateMarker + rest;
    var pre := NarrativeMarker + w1 + n + w2;
    MarkerFacts();
    assert text == pre + (StateMarker + rest);
    assert text[..|NarrativeMarker|] == NarrativeMarker;
    assert StateMarker[4] !in pre by {
      assert pre == NarrativeMarker + (w1 + (n + w2));
      assert !IsWs(StateMarker[4]);
    }
    FirstAfterPrefix(pre, StateMarker + rest, StateMarker, 4);
  }

  /** A reply in the instructed format — narrative marker, the narrative,
      state marker, a bare JSON payload, separated by whitespace — parses
      to that narrative and to the decoded payload. */
  lemma WellFormedReply(codec: Codec, w1: string, n: string, w2: string, w3: string, payload: string)
    requires IsBlank(w1) && IsBlank(w2) && IsBlank(w3)
    requires n != [] && IsTrimmed(n) && StateMarker[4] !in n
    requires payload != [] && IsTrimmed(payload) && !StartsWith(payload, "```")
    ensures var text := NarrativeMarker + w1 + n + w2 + StateMarker + w3 + payload;
      ParseResponse(text, codec)
        == Parsed(n, match codec.decode(payload) case Some(j) => j case None => InitialStateJson)
  {
    var text := NarrativeMarker + w1 + n + w2 + StateMarker + (w3 + payload);
    assert text == NarrativeMarker + w1 + n + w2 + StateMarker + w3 + payload;
    var q := |NarrativeMarker + w1 + n + w2|;
    MarkersPlaced(w1, n, w2, w3 + payload);
    assert text[|NarrativeMarker|..q] == w1 + n + w2;
    TrimPadded(w1, n, w2);
    NarrativeBetweenMarkers(text, codec, 0, q);
    assert text[q + |StateMarker|..] == w3 + payload;
    StateAfterMarker(text, codec, q);
    WhitespaceThenPayload(w3, payload);
  }

  /** Whitespace before a bare payload is not handed to `JSON.parse`. */
  lemma WhitespaceThenPayload(w: string, payload: string)
    requires IsBlank(w)
    requires payload != [] && IsTrimmed(payload) && !StartsWith(payload, "```")
    ensures !IsBlank(w + payload) && Payload(w + payload) == payload
  {
    var s := w + payload;
    assert s[|w|] == payload[0];
    assert w + payload + [] == s;
    TrimPadded(w, payload, []);
    assert Trim(s) == payload;
    BarePayload(payload);
  }

  /** Any value `JSON.parse` returns becomes the state: a reply whose payload
      parses to `null` yields a state that is no world state at all. */
  lemma NoShapeCheck(codec: Codec, n: string, payload: string)
    requires n != [] && IsTrimmed(n) && StateMarker[4] !in n
    requires payload != [] && IsTrimmed(payload) && !StartsWith(payload, "```")
    requires codec.decode(payload) == Some(JNull)
    ensures var s := ParseResponse(NarrativeMarker + "\n" + n + "\n\n" + StateMarker + "\n" + payload, codec).state;
      s == JNull && forall w :: s != Types.WorldStateToJson(w)
  {
    WellFormedReply(codec, "\n", n, "\n\n", "\n", payload);
  }
}
