/** `generateSynteticData` (server/seed-database.ts) after the model has answered: the answer
    is sanitised, then given to the schema parser. A fallback follows in the source: parse the
    text as plain JSON and complete every element of the array with defaults for its price,
    description and identifier, or give the empty list. As written the fallback cannot run
    (`GenerateSyntheticData`); the version with the missing `await` added is
    `GenerateSyntheticDataAwaited`. The two parsers are oracles, and the identifier `uuidv4()`
    would produce for the element at index `i` is `freshId(i)`. */
module SyntheticData {
  import opened Js
  import Sanitize

  /** A record: the fields of a JavaScript object. */
  type Record = map<string, Json>

  const PriceKey := "price"
  const DescriptionKey := "item_description"
  const IdKey := "item_id"
  const NoDescription := "No description available"

  /** `item.key` on a value that is not null or undefined (primitives and arrays have none of
      the three properties the normaliser reads). */
  function Property(item: Json, key: string): (r: Option<Json>)
    ensures r.Some? <==> item.JObject? && key in item.fields
    ensures r.Some? ==> r.value == item.fields[key]
  {
    match item
    case JObject(fields) => if key in fields then Some(fields[key]) else None
    case _ => None
  }

  /** The elements of a list under their decimal indices: the object `{...xs}` builds. */
  function IndexKeyed<T>(xs: seq<T>): map<string, T> {
    if xs == [] then map[] else IndexKeyed(xs[..|xs| - 1])[NatToDecimal(|xs| - 1) := xs[|xs| - 1]]
  }

  /** Every index is a key, holding the element at that index. */
  lemma {:induction false} IndexKeyedAt<T>(xs: seq<T>, i: nat)
    requires i < |xs|
    ensures NatToDecimal(i) in IndexKeyed(xs) && IndexKeyed(xs)[NatToDecimal(i)] == xs[i]
  {
    var n := |xs| - 1;
    if i < n {
      IndexKeyedAt(xs[..n], i);
      NatToDecimalRoundTrip(i);
      NatToDecimalRoundTrip(n);
    }
  }

  /** Every key is the decimal form of an index. */
  lemma {:induction false} IndexKeyedKey<T>(xs: seq<T>, k: string)
    requires k in IndexKeyed(xs)
    ensures IsDigits(k) && DecimalValue(k) < |xs| && IndexKeyed(xs)[k] == xs[DecimalValue(k)]
  {
    var n := |xs| - 1;
    if k == NatToDecimal(n) {
      NatToDecimalRoundTrip(n);
    } else {
      IndexKeyedKey(xs[..n], k);
    }
  }

  /** The characters of a string, each as a one-character string. */
  function Characters(s: string): (cs: seq<Json>)
    ensures |cs| == |s| && forall i :: 0 <= i < |s| ==> cs[i] == JString([s[i]])
  {
    if s == [] then [] else [JString([s[0]])] + Characters(s[1..])
  }

  /** The own enumerable properties `{...item}` copies: an object's fields, an array's or a
      string's elements under their decimal indices, and nothing for a number or a boolean. */
  function Spread(item: Json): (r: Record)
    ensures item.JObject? ==> r == item.fields
    ensures item.JArray? ==>
      && (forall i :: 0 <= i < |item.items| ==> NatToDecimal(i) in r && r[NatToDecimal(i)] == item.items[i])
      && (forall k :: k in r ==> IsDigits(k) && DecimalValue(k) < |item.items|)
    ensures item.JString? ==>
      && (forall i :: 0 <= i < |item.s| ==> NatToDecimal(i) in r && r[NatToDecimal(i)] == JString([item.s[i]]))
      && (forall k :: k in r ==> IsDigits(k) && DecimalValue(k) < |item.s|)
    ensures item.JNull? || item.JBool? || item.JNumber? ==> r == map[]
  {
    match item
    case JObject(fields) => fields
    case JArray(xs) =>
      var r := IndexKeyed(xs);
      assert forall i :: 0 <= i < |xs| ==> NatToDecimal(i) in r && r[NatToDecimal(i)] == xs[i] by {
        forall i | 0 <= i < |xs| ensures NatToDecimal(i) in r && r[NatToDecimal(i)] == xs[i] {
          IndexKeyedAt(xs, i);
        }
      }
      assert forall k :: k in r ==> IsDigits(k) && DecimalValue(k) < |xs| by {
        forall k | k in r ensures IsDigits(k) && DecimalValue(k) < |xs| {
          IndexKeyedKey(xs, k);
        }
      }
      r
    case JString(s) =>
      var cs := Characters(s);
      var r := IndexKeyed(cs);
      assert forall i :: 0 <= i < |s| ==> NatToDecimal(i) in r && r[NatToDecimal(i)] == JString([s[i]]) by {
        forall i | 0 <= i < |s| ensures NatToDecimal(i) in r && r[NatToDecimal(i)] == JString([s[i]]) {
          IndexKeyedAt(cs, i);
        }
      }
      assert forall k :: k in r ==> IsDigits(k) && DecimalValue(k) < |s| by {
        forall k | k in r ensures IsDigits(k) && DecimalValue(k) < |s| {
          IndexKeyedKey(cs, k);
        }
      }
      r
    case _ => map[]
  }

  /** The fallback normaliser on one element. Reading a property of `null` throws, which is
      `None`. */
  function Normalize(item: Json, freshId: string): (r: Option<Record>)
    ensures r.None? <==> item == JNull
    ensures r.Some? ==> r.value.Keys == Spread(item).Keys + {PriceKey, DescriptionKey, IdKey}
    ensures r.Some? ==> forall k :: k in Spread(item) && k !in {PriceKey, DescriptionKey, IdKey}
                                    ==> r.value[k] == Spread(item)[k]
    ensures r.Some? ==> r.value[PriceKey] == if Truthy(Property(item, PriceKey))
                                             then Property(item, PriceKey).value else JNumber(0.0)
    ensures r.Some? ==> r.value[DescriptionKey] == if Truthy(Property(item, DescriptionKey))
                                                   then Property(item, DescriptionKey).value
                                                   else JString(NoDescription)
    ensures r.Some? ==> r.value[IdKey] == if Truthy(Property(item, IdKey))
                                          then Property(item, IdKey).value else JString(freshId)
  {
    if item == JNull then None
    else
      Some(Spread(item)
        [PriceKey := OrDefault(Property(item, PriceKey), JNumber(0.0))]
        [DescriptionKey := OrDefault(Property(item, DescriptionKey), JString(NoDescription))]
        [IdKey := OrDefault(Property(item, IdKey), JString(freshId))])
  }

  /** A record the normaliser produced, normalised again, is unchanged, provided the
      identifier it was given is not empty: all three fields are then already filled in
      (a price of 0 is falsy, but it is replaced by 0). */
  lemma NormalizeIdempotent(item: Json, freshId: string, laterId: string)
    requires item != JNull && freshId != ""
    ensures Normalize(JObject(Normalize(item, freshId).value), laterId) == Normalize(item, freshId)
  {
    var r := Normalize(item, freshId).value;
    var again := Normalize(JObject(r), laterId).value;
    assert Truthy(Some(r[DescriptionKey]));
    assert Truthy(Some(r[IdKey]));
    assert !Truthy(Some(r[PriceKey])) ==> r[PriceKey] == JNumber(0.0);
    assert again[PriceKey] == r[PriceKey];
    assert again.Keys == r.Keys;
    assert forall k :: k in r ==> again[k] == r[k];
    assert again == r;
  }

  /** `JSON.parse(text).map(normalise)` on an array: it throws, and is `None`, when an element
      is `null`; otherwise it keeps the length and the order, the element at index `i` being
      normalised with the identifier `freshId(i)`. */
  function NormalizeAll(items: seq<Json>, freshId: nat -> string): (r: Option<seq<Record>>)
    ensures r.None? <==> JNull in items
    ensures r.Some? ==> |r.value| == |items|
                        && forall i :: 0 <= i < |items| ==> Some(r.value[i]) == Normalize(items[i], freshId(i))
  {
    if items == [] then Some([])
    else
      var init := items[..|items| - 1];
      var last := items[|items| - 1];
      assert items == init + [last];
      match NormalizeAll(init, freshId)
      case None => None
      case Some(rs) =>
        match Normalize(last, freshId(|items| - 1))
        case None => None
        case Some(rec) => Some(rs + [rec])
  }

  /** `generateSynteticData` from the model's answer `content` onwards, as written. The schema
      parser's `parse` is asynchronous and its promise is returned from the `try` block without
      `await`, so the block completes before the promise settles: a rejection is not caught by
      the `catch` beside it and becomes the rejection of `generateSynteticData` itself. The
      fallback never runs. `parse(text)` is how that promise settles. */
  function GenerateSyntheticData(content: string, parse: string -> Completion<seq<Record>>)
    : (r: Completion<seq<Record>>)
    ensures var settled := parse(Sanitize.SanitizeLlmOutput(content));
      && (r.Throw? <==> settled.Throw?)
      && (r.Throw? ==> r.error == settled.error)
      && (r.Normal? ==> r.value == settled.value)
  {
    var text := Sanitize.SanitizeLlmOutput(content);
    parse(text)
  }

  /** The evidently intended `generateSynteticData`, with `return await parser.parse(text)`:
      a rejection of the schema parser is caught, the sanitised text is parsed as plain JSON
      and every element of the array is completed by the normaliser; when that fails too, the
      result is the empty list. It never rejects. */
  function GenerateSyntheticDataAwaited(content: string, parse: string -> Completion<seq<Record>>,
                                        jsonParse: string -> Option<Json>, freshId: nat -> string)
    : (r: seq<Record>)
    ensures var text := Sanitize.SanitizeLlmOutput(content);
      && (parse(text).Normal? ==> r == parse(text).value)
      && (parse(text).Throw? && r != [] ==>
            && jsonParse(text).Some? && jsonParse(text).value.JArray?
            && JNull !in jsonParse(text).value.items
            && |r| == |jsonParse(text).value.items|)
  {
    var text := Sanitize.SanitizeLlmOutput(content);
    match parse(text)
    case Normal(items) => items
    case Throw(_) =>
      match jsonParse(text)
      case Some(JArray(xs)) =>
        (match NormalizeAll(xs, freshId)
         case Some(records) => records
         case None => [])
      case _ => []
  }

  /** As written, a rejection of the schema parser is the result, whatever `JSON.parse` would
      have made of the text: the fallback is unreachable. With the `await`, the same rejection
      is caught and the function resolves. */
  lemma MissingAwaitSkipsFallback(content: string, parse: string -> Completion<seq<Record>>,
                                  jsonParse: string -> Option<Json>, freshId: nat -> string)
    requires parse(Sanitize.SanitizeLlmOutput(content)).Throw?
    ensures GenerateSyntheticData(content, parse)
         == Throw(parse(Sanitize.SanitizeLlmOutput(content)).error)
    ensures var xs := jsonParse(Sanitize.SanitizeLlmOutput(content));
      xs.Some? && xs.value.JArray? && xs.value.items != [] && JNull !in xs.value.items ==>
        |GenerateSyntheticDataAwaited(content, parse, jsonParse, freshId)| == |xs.value.items| > 0
  {
  }

  /** What the schema parser resolves to is returned as it is, with or without the `await`,
      and both parsers see the sanitised text. */
  lemma SchemaParseWins(content: string, parse: string -> Completion<seq<Record>>,
                        jsonParse: string -> Option<Json>, freshId: nat -> string)
    requires parse(Sanitize.SanitizeLlmOutput(content)).Normal?
    ensures var items := parse(Sanitize.SanitizeLlmOutput(content)).value;
      && GenerateSyntheticData(content, parse) == Normal(items)
      && GenerateSyntheticDataAwaited(content, parse, jsonParse, freshId) == items
  {
  }

  /** With the `await`: when the schema parser rejects and the text parses as a JSON array
      without nulls, the result has one record per element, in order, each produced by the
      normaliser. */
  lemma FallbackNormalizesEveryElement(content: string, parse: string -> Completion<seq<Record>>,
                                       jsonParse: string -> Option<Json>, freshId: nat -> string)
    requires var text := Sanitize.SanitizeLlmOutput(content);
      parse(text).Throw? && jsonParse(text).Some? && jsonParse(text).value.JArray?
      && JNull !in jsonParse(text).value.items
    ensures var xs := jsonParse(Sanitize.SanitizeLlmOutput(content)).value.items;
      var r := GenerateSyntheticDataAwaited(content, parse, jsonParse, freshId);
      |r| == |xs| && forall i :: 0 <= i < |xs| ==> Some(r[i]) == Normalize(xs[i], freshId(i))
  {
  }

  /** With the `await`: when both parsers fail (JSON.parse throws, the value is not an array,
      or an element is null) the result is the empty list. */
  lemma BothParsersFailGivesEmpty(content: string, parse: string -> Completion<seq<Record>>,
                                  jsonParse: string -> Option<Json>, freshId: nat -> string)
    requires var text := Sanitize.SanitizeLlmOutput(content);
      parse(text).Throw?
      && (|| jsonParse(text).None?
          || !jsonParse(text).value.JArray?
          || JNull in jsonParse(text).value.items)
    ensures GenerateSyntheticDataAwaited(content, parse, jsonParse, freshId) == []
  {
  }
}
