/** The URL query string: `getQueryParams`, and the `query=Layer,Field,Value` parameter that
    asks the viewer to zoom to one feature. `decodeURIComponent` is left uninterpreted. */
module QueryParams {
  import opened Wrappers
  import opened Expressions

  // ---------------------------------------------------------------------------
  // String.prototype.split with a one-character separator
  // ---------------------------------------------------------------------------

  /** JavaScript string splitting on one character: the pieces between separators, always at
      least one. */
  function Split(s: string, sep: char): (parts: seq<string>)
    ensures |parts| >= 1
    ensures forall i :: 0 <= i < |parts| ==> sep !in parts[i]
  {
    if s == [] then [""]
    else
      var rest := Split(s[1..], sep);
      if s[0] == sep then [""] + rest
      else [[s[0]] + rest[0]] + rest[1..]
  }

  /** The pieces put back together with the separator between them. */
  function Join(parts: seq<string>, sep: char): string
  {
    if parts == [] then ""
    else if |parts| == 1 then parts[0]
    else parts[0] + [sep] + Join(parts[1..], sep)
  }

  /** Joining the pieces of a split gives back the string. */
  lemma {:induction false} JoinSplit(s: string, sep: char)
    ensures Join(Split(s, sep), sep) == s
  {
    if s != [] {
      var rest := Split(s[1..], sep);
      JoinSplit(s[1..], sep);
      if s[0] == sep {
        assert ([""] + rest)[1..] == rest;
      } else if |rest| > 1 {
        assert ([[s[0]] + rest[0]] + rest[1..])[1..] == rest[1..];
        assert Join(rest, sep) == rest[0] + [sep] + Join(rest[1..], sep);
        assert s == [s[0]] + s[1..];
      } else {
        assert s == [s[0]] + s[1..];
      }
    }
  }

  /** A separator-free prefix stays glued to the first piece of what follows it. */
  lemma {:induction false} SplitPrefix(w: string, t: string, sep: char)
    requires sep !in w
    ensures Split(w + t, sep) == [w + Split(t, sep)[0]] + Split(t, sep)[1..]
  {
    if w != [] {
      SplitPrefix(w[1..], t, sep);
      assert (w + t)[1..] == w[1..] + t;
      assert (w + t)[0] == w[0];
      assert [w[0]] + (w[1..] + Split(t, sep)[0]) == w + Split(t, sep)[0];
    } else {
      var r := Split(t, sep);
      assert w + t == t;
      assert w + r[0] == r[0];
      assert r == [r[0]] + r[1..];
    }
  }

  /** Splitting separator-free pieces joined by the separator gives back the pieces. */
  lemma {:induction false} SplitJoin(parts: seq<string>, sep: char)
    requires |parts| >= 1
    requires forall i :: 0 <= i < |parts| ==> sep !in parts[i]
    ensures Split(Join(parts, sep), sep) == parts
  {
    if |parts| == 1 {
      SplitPrefix(parts[0], "", sep);
      assert parts[0] + "" == parts[0];
    } else {
      var t := Join(parts[1..], sep);
      SplitJoin(parts[1..], sep);
      assert Join(parts, sep) == parts[0] + ([sep] + t);
      SplitPrefix(parts[0], [sep] + t, sep);
      assert ([sep] + t)[1..] == t;
      assert Split([sep] + t, sep) == [""] + parts[1..];
      assert parts[0] + "" == parts[0];
    }
  }

  // ---------------------------------------------------------------------------
  // getQueryParams
  // ---------------------------------------------------------------------------

  /** What `decodeURIComponent` makes of its argument: the decoded text, or the `URIError`
      it throws on a malformed escape. */
  datatype Decoded = Decoded(text: string) | UriError

  /** `decodeURIComponent`, uninterpreted, applied to the text of its argument. */
  type Decoder = string -> Decoded

  /** The one key a plain object does not store: assigning a string to `__proto__` runs the
      setter inherited from `Object.prototype`, which ignores anything but an object or `null`. */
  const ProtoKey: string := "__proto__"

  /** `parts[i]`, which is `undefined` past the end. */
  function Field(parts: seq<string>, i: nat): Option<string>
  {
    if i < |parts| then Some(parts[i]) else None
  }

  /** The decoded text before the first "=" of a pair. */
  function KeyOf(pair: string, decode: Decoder): Decoded
  {
    decode(TemplateText(Field(Split(pair, '='), 0)))
  }

  /** The decoded text between the first and any second "=" of a pair; what follows a second
      "=" is dropped, and a missing value is undefined, which decodes as the text "undefined". */
  function ValueOf(pair: string, decode: Decoder): Decoded
  {
    decode(TemplateText(Field(Split(pair, '='), 1)))
  }

  /** A pair whose key or value makes `decodeURIComponent` throw. */
  predicate Malformed(pair: string, decode: Decoder)
  {
    KeyOf(pair, decode).UriError? || ValueOf(pair, decode).UriError?
  }

  /** `queryParams[key] = value` for one pair: `None` when a decode throws; a `__proto__` key
      leaves the dictionary as it was. */
  function Assigned(m: map<string, string>, pair: string, decode: Decoder): Option<map<string, string>>
  {
    if Malformed(pair, decode) then None
    else if KeyOf(pair, decode).text == ProtoKey then Some(m)
    else Some(m[KeyOf(pair, decode).text := ValueOf(pair, decode).text])
  }

  /** The dictionary the pairs build, each pair assigned in turn; `None` once a decode throws. */
  function ParamsOf(pairs: seq<string>, decode: Decoder): Option<map<string, string>>
  {
    if pairs == [] then Some(map[])
    else
      match ParamsOf(pairs[..|pairs| - 1], decode)
      case None => None
      case Some(m) => Assigned(m, pairs[|pairs| - 1], decode)
  }

  /** The search string without its leading "?". */
  function QueryString(search: string): string
  {
    if |search| == 0 then "" else search[1..]
  }

  /** The dictionary `getQueryParams` returns for a search string. */
  function QueryParamsOf(search: string, decode: Decoder): Option<map<string, string>>
  {
    ParamsOf(Split(QueryString(search), '&'), decode)
  }

  /** Once a prefix of the pairs has thrown, the whole parse has thrown. */
  lemma {:induction false} ParamsErrorPersists(pairs: seq<string>, n: nat, decode: Decoder)
    requires n <= |pairs|
    requires ParamsOf(pairs[..n], decode) == None
    ensures ParamsOf(pairs, decode) == None
  {
    if n < |pairs| {
      var p := pairs[..|pairs| - 1];
      assert p[..n] == pairs[..n];
      ParamsErrorPersists(p, n, decode);
    } else {
      assert pairs[..n] == pairs;
    }
  }

  /** One step of the parse: it throws when the pairs before the last throw or the last one is
      malformed. */
  lemma ParamsStep(pairs: seq<string>, decode: Decoder)
    requires pairs != []
    ensures ParamsOf(pairs, decode) == None
        <==> ParamsOf(pairs[..|pairs| - 1], decode) == None || Malformed(pairs[|pairs| - 1], decode)
  {
  }

  /** The parse throws exactly when some pair has a key or value that does not decode. */
  lemma {:induction false} ParamsErrorIff(pairs: seq<string>, decode: Decoder)
    ensures ParamsOf(pairs, decode) == None
        <==> exists i :: 0 <= i < |pairs| && Malformed(pairs[i], decode)
  {
    if pairs != [] {
      var p := pairs[..|pairs| - 1];
      ParamsStep(pairs, decode);
      ParamsErrorIff(p, decode);
      assert forall i :: 0 <= i < |p| ==> p[i] == pairs[i];
      assert (exists i :: 0 <= i < |pairs| && Malformed(pairs[i], decode))
        <==> (exists i :: 0 <= i < |p| && Malformed(p[i], decode)) || Malformed(pairs[|pairs| - 1], decode);
    }
  }

  /** Every key in the dictionary is the decoded key of some pair, and never `__proto__`. */
  lemma {:induction false} ParamsKeySource(pairs: seq<string>, decode: Decoder, m: map<string, string>, k: string)
    requires ParamsOf(pairs, decode) == Some(m)
    requires k in m
    ensures k != ProtoKey
    ensures exists i :: 0 <= i < |pairs| && KeyOf(pairs[i], decode) == Decoded(k)
  {
    var p := pairs[..|pairs| - 1];
    var last := pairs[|pairs| - 1];
    var mp := ParamsOf(p, decode).value;
    if KeyOf(last, decode) == Decoded(k) && k != ProtoKey {
      assert KeyOf(pairs[|pairs| - 1], decode) == Decoded(k);
    } else {
      assert k in mp;
      ParamsKeySource(p, decode, mp, k);
      var i :| 0 <= i < |p| && KeyOf(p[i], decode) == Decoded(k);
      assert pairs[i] == p[i];
    }
  }

  /** The value of a key other than `__proto__` is the decoded value of the last pair with
      that key: the last assignment wins. */
  lemma {:induction false} ParamsLastWins(pairs: seq<string>, decode: Decoder, m: map<string, string>, i: nat)
    requires ParamsOf(pairs, decode) == Some(m)
    requires i < |pairs| && KeyOf(pairs[i], decode).Decoded? && KeyOf(pairs[i], decode).text != ProtoKey
    requires forall j :: i < j < |pairs| ==> KeyOf(pairs[j], decode) != KeyOf(pairs[i], decode)
    ensures KeyOf(pairs[i], decode).text in m
    ensures ValueOf(pairs[i], decode) == Decoded(m[KeyOf(pairs[i], decode).text])
  {
    var p := pairs[..|pairs| - 1];
    var last := pairs[|pairs| - 1];
    var mp := ParamsOf(p, decode).value;
    if i < |p| {
      assert p[i] == pairs[i];
      forall j | i < j < |p| ensures KeyOf(p[j], decode) != KeyOf(p[i], decode) {
        assert p[j] == pairs[j];
      }
      ParamsLastWins(p, decode, mp, i);
      assert KeyOf(last, decode).text != KeyOf(pairs[i], decode).text;
    }
  }

  /** `getQueryParams`: the index loop over the "&"-separated pairs filling a plain object;
      `None` when `decodeURIComponent` throws. */
  method GetQueryParams(search: string, decode: Decoder) returns (queryParams: Option<map<string, string>>)
    ensures queryParams == QueryParamsOf(search, decode)
  {
    var queryString := if |search| == 0 then "" else search[1..];
    var pairs := Split(queryString, '&');
    var params: map<string, string> := map[];
    for i := 0 to |pairs|
      invariant ParamsOf(pairs[..i], decode) == Some(params)
    {
      assert pairs[..i + 1][..i] == pairs[..i];
      var pair := Split(pairs[i], '=');
      var key := decode(TemplateText(Field(pair, 0)));
      var value := decode(TemplateText(Field(pair, 1)));
      if key.UriError? || value.UriError? {
        ParamsErrorPersists(pairs, i + 1, decode);
        return None;
      }
      if key.text != ProtoKey {
        params := params[key.text := value.text];
      }
    }
    assert pairs[..|pairs|] == pairs;
    queryParams := Some(params);
  }

  // ---------------------------------------------------------------------------
  // The query parameter
  // ---------------------------------------------------------------------------

  /** The first three comma-separated pieces of the `query` parameter: layer, field and value. */
  datatype ZoomRequest = ZoomRequest(layerName: Option<string>, fieldName: Option<string>, fieldValue: Option<string>)

  /** The zoom request, present when the dictionary has a non-empty `query`; pieces past the
      third are ignored and missing ones are `undefined`. */
  function ZoomRequestOf(params: map<string, string>): Option<ZoomRequest>
  {
    if "query" in params && params["query"] != "" then
      var parts := Split(params["query"], ',');
      Some(ZoomRequest(Field(parts, 0), Field(parts, 1), Field(parts, 2)))
    else None
  }

  /** The `where` of the zoom query: the equality clause of the requested field and value, each
      printed as a template prints it. */
  function ZoomWhere(request: ZoomRequest): string
  {
    EqualsClause(TemplateText(request.fieldName), TemplateText(request.fieldValue))
  }

  /** A `query` of three comma-free pieces gives back those three pieces. */
  lemma ZoomRequestOfThree(params: map<string, string>, a: string, b: string, c: string)
    requires ',' !in a && ',' !in b && ',' !in c
    requires "query" in params && params["query"] == a + "," + b + "," + c
    ensures ZoomRequestOf(params) == Some(ZoomRequest(Some(a), Some(b), Some(c)))
  {
    var parts := [a, b, c];
    assert [b, c][1..] == [c];
    assert parts[1..] == [b, c];
    assert "," == [','];
    assert Join([b, c], ',') == b + [','] + c;
    assert Join(parts, ',') == a + [','] + (b + [','] + c);
    assert Join(parts, ',') == a + "," + b + "," + c;
    SplitJoin(parts, ',');
  }

  /** A search string holding a single `key=value` pair gives a one-entry dictionary of the
      decoded key and value, or an empty one when the key decodes to `__proto__`. */
  lemma OnePairQuery(key: string, value: string, decode: Decoder)
    requires '&' !in key && '&' !in value && '=' !in key && '=' !in value
    requires decode(key).Decoded? && decode(value).Decoded?
    ensures QueryParamsOf("?" + key + "=" + value, decode)
         == Some(if decode(key).text == ProtoKey then map[] else map[decode(key).text := decode(value).text])
  {
    var pair := key + "=" + value;
    assert QueryString("?" + key + "=" + value) == pair;
    assert "=" == ['='];
    assert Join([key, value], '=') == pair by {
      assert [key, value][1..] == [value];
    }
    SplitJoin([key, value], '=');
    assert Split(pair, '=') == [key, value];
    assert '&' !in pair;
    assert Join([pair], '&') == pair;
    SplitJoin([pair], '&');
    assert Split(pair, '&') == [pair];
    assert [pair][..0] == [];
    assert KeyOf(pair, decode) == decode(key);
    assert ValueOf(pair, decode) == decode(value);
    assert ParamsOf([pair], decode) == Assigned(map[], pair, decode);
  }

  /** A pair without "=" has the value `undefined`, decoded as the text "undefined", so it
      never throws on that side. */
  lemma BareKeyValue(pair: string, decode: Decoder)
    requires '=' !in pair
    ensures KeyOf(pair, decode) == decode(pair)
    ensures ValueOf(pair, decode) == decode("undefined")
  {
    assert Join([pair], '=') == pair;
    SplitJoin([pair], '=');
  }

  /** `?query=Parcel%20Boundaries,UniqueId,100`, given a decoder that decodes the escaped
      space, yields one `query` parameter ... */
  lemma ParcelQueryExample(decode: Decoder)
    requires decode("query") == Decoded("query")
    requires decode("Parcel%20Boundaries,UniqueId,100") == Decoded("Parcel Boundaries,UniqueId,100")
    ensures QueryParamsOf("?" + "query" + "=" + "Parcel%20Boundaries,UniqueId,100", decode)
         == Some(map["query" := "Parcel Boundaries,UniqueId,100"])
  {
    OnePairQuery("query", "Parcel%20Boundaries,UniqueId,100", decode);
  }

  /** ... whose `query` parameter names the layer, the field and the value to zoom to. */
  lemma ParcelZoomExample()
    ensures ZoomRequestOf(map["query" := "Parcel Boundaries,UniqueId,100"])
         == Some(ZoomRequest(Some("Parcel Boundaries"), Some("UniqueId"), Some("100")))
  {
    var m := map["query" := "Parcel Boundaries,UniqueId,100"];
    assert "Parcel Boundaries,UniqueId,100" == "Parcel Boundaries" + "," + "UniqueId" + "," + "100";
    ZoomRequestOfThree(m, "Parcel Boundaries", "UniqueId", "100");
  }

  /** ... and the zoom query then selects `UniqueId = '100'`. */
  lemma ParcelWhereExample()
    ensures ZoomWhere(ZoomRequest(Some("Parcel Boundaries"), Some("UniqueId"), Some("100"))) == "UniqueId = '100'"
  {
  }
}
