/** JSON values and the `JSON.stringify` / `JSON.parse` pair, kept abstract.
    The server never inspects the structure of what it decodes; it only needs
    the assumptions collected in `Sound`. */
module Json {
  import opened Common
  import opened Text

  /** A decoded JSON value. Object members keep their insertion order, as
      JavaScript objects do. */
  datatype Json =
    | JNull
    | JBool(b: bool)
    | JNumber(n: int)
    | JString(s: string)
    | JArray(items: seq<Json>)
    | JObject(members: seq<(string, Json)>)

  /** `JSON.stringify` and `JSON.parse`; `decode` gives `None` where
      `JSON.parse` throws. */
  datatype Codec = Codec(encode: Json -> string, decode: string -> Option<Json>)

  /** What `JSON.stringify` output looks like at its two ends: never empty,
      never padded with whitespace, never beginning with a backtick. */
  predicate Compact(s: string) {
    s != [] && IsTrimmed(s) && s[0] != '`'
  }

  /** Stringified text never starts with a Markdown code fence. */
  lemma CompactIsBare(s: string)
    requires Compact(s)
    ensures !StartsWith(s, "```")
  {
    if 3 <= |s| {
      assert s[..3][0] == s[0];
    }
  }

  /** The message of the error `JSON.parse` throws; its exact wording is not modelled. */
  const ParseFailure := "JSON.parse: invalid JSON"

  /** The assumptions the model makes about the real `JSON.stringify` and
      `JSON.parse`: parsing what was stringified gives the value back,
      stringified text is compact, and `'[]'` parses to the empty array. */
  ghost predicate Sound(c: Codec) {
    && (forall j :: c.decode(c.encode(j)) == Some(j))
    && (forall j :: Compact(c.encode(j)))
    && c.decode("[]") == Some(JArray([]))
  }

  /** The value `obj.key` reads from a parsed object: that of the last
      member named `key`, since `JSON.parse` keeps the last of duplicate keys. */
  function Member(members: seq<(string, Json)>, key: string): (r: Option<Json>)
    ensures r.Some? <==> exists i :: 0 <= i < |members| && members[i].0 == key
    ensures r.Some? ==> exists i :: 0 <= i < |members| && members[i] == (key, r.value)
                          && forall k :: i < k < |members| ==> members[k].0 != key
    decreases |members|, 1
  {
    if members == [] then None
    else
      var n := |members| - 1;
      if members[n].0 == key then Some(members[n].1)
      else
        MemberBeforeLast(members, key);
        Member(members[..n], key)
  }

  /** When the last member has another key, looking in the members before
      it gives what `Member` promises for the whole object. */
  lemma MemberBeforeLast(members: seq<(string, Json)>, key: string)
    requires members != [] && members[|members| - 1].0 != key
    ensures var r := Member(members[..|members| - 1], key);
      && (r.Some? <==> exists i :: 0 <= i < |members| && members[i].0 == key)
      && (r.Some? ==> exists i :: 0 <= i < |members| && members[i] == (key, r.value)
                        && forall k :: i < k < |members| ==> members[k].0 != key)
    decreases |members|, 0
  {
    var n := |members| - 1;
    var p := members[..n];
    var r := Member(p, key);
    if r.Some? {
      var i :| 0 <= i < n && p[i] == (key, r.value) && forall k :: i < k < n ==> p[k].0 != key;
      assert members[i] == p[i];
      forall k | i < k < |members|
        ensures members[k].0 != key
      {
        if k < n {
          assert members[k] == p[k];
        }
      }
    } else {
      forall i | 0 <= i < |members|
        ensures members[i].0 != key
      {
        if i < n {
          assert members[i] == p[i];
        }
      }
    }
  }
}
