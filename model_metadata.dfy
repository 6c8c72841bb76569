/**
 * app/api/model-metadata/route.ts: reads `model_list` from litellm-config.yaml and returns,
 * for each named model, its context size (as a count and as a short label such as "128k")
 * and its prices per million tokens. Reading the file and parsing YAML are parameters.
 */
module ModelMetadata {
  import opened Wrappers
  import opened Js
  import opened Text
  import opened Seqs

  /** `toK(n)`: "" for an absent or non-positive count, else the count in millions ("M"), thousands ("k") or units, rounded half-up. */
  function ToK(n: Option<int>): (r: string)
    ensures r == "" <==> n.None? || n.value <= 0
    ensures n.Some? && 1 <= n.value < 1000 ==> r == NatToString(n.value)
  {
    match n
    case None => ""
    case Some(v) =>
      if v <= 0 then ""
      else if v >= 1_000_000 then
        var m := Round(v as real / 1_000_000.0);
        NatToString(m) + "M"
      else if v >= 1_000 then
        var k := Round(v as real / 1_000.0);
        NatToString(k) + "k"
      else NatToString(v)
  }

  /** The label of a scaled count: decimal digits and a unit letter. */
  predicate Scaled(r: string, unit: char) {
    |r| >= 2 && r[|r| - 1] == unit && forall k :: 0 <= k < |r| - 1 ==> '0' <= r[k] <= '9'
  }

  /** The number the digits of a scaled label spell. */
  function ScaledValue(r: string): nat
    requires |r| >= 1 && forall k :: 0 <= k < |r| - 1 ==> '0' <= r[k] <= '9'
  {
    DecimalValue(r[..|r| - 1])
  }

  /** `n` is `v` units of `size`, rounded half-up. */
  predicate RoundsTo(n: int, size: nat, v: nat) {
    v * size - size / 2 <= n < v * size + size / 2
  }

  /** Reading back a rendered count with a unit letter after it. */
  lemma {:induction false} ScaledRoundTrip(m: nat, unit: char)
    ensures Scaled(NatToString(m) + [unit], unit)
    ensures ScaledValue(NatToString(m) + [unit]) == m
  {
    var r := NatToString(m) + [unit];
    assert r[..|r| - 1] == NatToString(m);
    DecimalRoundTrip(m);
  }

  /** A count of at least a million is written in millions: the digits, rounded half-up, then "M". */
  lemma {:induction false} ToKMillions(n: int)
    requires n >= 1_000_000
    ensures Scaled(ToK(Some(n)), 'M')
    ensures RoundsTo(n, 1_000_000, ScaledValue(ToK(Some(n))))
  {
    var m := Round(n as real / 1_000_000.0);
    assert ToK(Some(n)) == NatToString(m) + "M";
    ScaledRoundTrip(m, 'M');
    MillionsBounds(n, m);
  }

  lemma MillionsBounds(n: int, m: int)
    requires (m as real) - 0.5 <= n as real / 1_000_000.0 < (m as real) + 0.5
    ensures m * 1_000_000 - 500_000 <= n < m * 1_000_000 + 500_000
  {
    assert ((m as real) - 0.5) * 1_000_000.0 <= n as real < ((m as real) + 0.5) * 1_000_000.0;
  }

  /** A count from a thousand to below a million is written in thousands: the digits, rounded half-up, then "k". */
  lemma {:induction false} ToKThousands(n: int)
    requires 1_000 <= n < 1_000_000
    ensures Scaled(ToK(Some(n)), 'k')
    ensures RoundsTo(n, 1_000, ScaledValue(ToK(Some(n))))
  {
    var k := Round(n as real / 1_000.0);
    assert ToK(Some(n)) == NatToString(k) + "k";
    ScaledRoundTrip(k, 'k');
    ThousandsBounds(n, k);
  }

  lemma ThousandsBounds(n: int, k: int)
    requires (k as real) - 0.5 <= n as real / 1_000.0 < (k as real) + 0.5
    ensures k * 1_000 - 500 <= n < k * 1_000 + 500
  {
    assert ((k as real) - 0.5) * 1_000.0 <= n as real < ((k as real) + 0.5) * 1_000.0;
  }

  /** Half-up rounding: 1500 tokens read "2k" and 2500 read "3k". */
  lemma {:induction false} ToKHalvesRoundUp()
    ensures ToK(Some(1_500)) == "2k"
    ensures ToK(Some(2_500)) == "3k"
  {
    assert Round(1.5) == 2;
    assert Round(2.5) == 3;
  }

  /** The top of the thousands range rounds to a thousand thousands: 999500 reads "1000k", not "1M". */
  lemma {:induction false} ToKTopOfThousands()
    ensures ToK(Some(999_500)) == "1000k"
  {
    assert Round(999.5) == 1000;
    assert NatToString(1000) == "1000" by {
      assert NatToString(100) == "100" by {
        assert NatToString(10) == "10";
      }
    }
  }

  /** Exact multiples and small counts: 128000 reads "128k", a million "1M", and 999 "999". */
  lemma {:induction false} ToKExamples()
    ensures ToK(Some(128_000)) == "128k"
    ensures ToK(Some(1_000_000)) == "1M"
    ensures ToK(Some(999)) == "999"
  {
    RoundOfInteger(128);
    assert ToK(Some(128_000)) == NatToString(128) + "k";
    assert NatToString(128) == "128" by {
      assert NatToString(12) == "12";
    }
    RoundOfInteger(1);
    assert ToK(Some(1_000_000)) == NatToString(1) + "M";
    assert NatToString(999) == "999" by {
      assert NatToString(99) == "99";
    }
  }

  /**
   * `model_info` of one `model_list` entry. A price the YAML does not give as a number is `None`,
   * as the `typeof` tests of the route make it. `max_input_tokens` is modelled only as an integer
   * or as absent; other values are not modelled.
   */
  datatype ItemInfo = ItemInfo(
    maxInputTokens: Option<int>,
    inputCostPerToken: Option<real>,
    outputCostPerToken: Option<real>)

  /** One `model_list` entry; `model_name` is modelled only as a string or as absent. */
  datatype Item = Item(modelName: Option<string>, modelInfo: Option<ItemInfo>)

  /**
   * The parsed file: `model_list` when it is an array, `None` otherwise (also when the document is empty).
   * An element of the array is `None` when the YAML gives it as `null` (a `-` with nothing after it).
   */
  datatype Doc = Doc(modelList: Option<seq<Option<Item>>>)

  /** `YAML.parse`, or the message of the error it throws. */
  type YamlParser = string -> Result<Doc>

  /** One model of the response. */
  datatype Entry = Entry(
    model: string,
    contextTokens: Option<int>,
    context: string,
    inputCostPer1M: Option<real>,
    outputCostPer1M: Option<real>)

  /** The response body: an error message (the status is 200 either way) and the models. */
  datatype Response = Response(error: Option<string>, models: seq<Entry>)

  const NotFoundError: string := "litellm-config.yaml not found at project root"
  const ReadError: string := "Failed to read config"
  /** The message of the `TypeError` Node throws for `m.model_name` when `m` is `null`. */
  const NullItemError: string := "Cannot read properties of null (reading 'model_name')"

  /** The row built for one entry; the per-token prices are scaled to a million tokens (the 4-decimal rounding is not modelled). */
  function ToEntry(item: Item): (e: Entry)
    ensures e.model == item.modelName.GetOr("")
    ensures e.contextTokens == item.modelInfo.GetOr(ItemInfo(None, None, None)).maxInputTokens
    ensures var price := item.modelInfo.GetOr(ItemInfo(None, None, None)).inputCostPerToken;
      e.inputCostPer1M == if price.Some? then Some(price.value * 1_000_000.0) else None
    ensures var price := item.modelInfo.GetOr(ItemInfo(None, None, None)).outputCostPerToken;
      e.outputCostPer1M == if price.Some? then Some(price.value * 1_000_000.0) else None
  {
    var info := item.modelInfo.GetOr(ItemInfo(None, None, None));
    var maxTokens := info.maxInputTokens;
    Entry(
      item.modelName.GetOr(""),
      maxTokens,
      if maxTokens.Some? && maxTokens.value != 0 then ToK(maxTokens) else "",
      if info.inputCostPerToken.Some? then Some(info.inputCostPerToken.value * 1_000_000.0) else None,
      if info.outputCostPerToken.Some? then Some(info.outputCostPerToken.value * 1_000_000.0) else None)
  }

  /** The filter `x => x.model`: a model with an empty name is dropped. */
  predicate Named(e: Entry) {
    e.model != ""
  }

  /** The items of a list without `null` elements. */
  function Items(list: seq<Option<Item>>): (items: seq<Item>)
    requires forall k :: 0 <= k < |list| ==> list[k].Some?
    ensures |items| == |list|
    ensures forall k :: 0 <= k < |list| ==> list[k] == Some(items[k])
  {
    if list == [] then [] else [list[0].value] + Items(list[1..])
  }

  /** `modelList.map(...)`: the callback reads `m.model_name` first, so a `null` element throws. */
  function MapEntries(list: seq<Option<Item>>): (r: Result<seq<Entry>>)
    ensures r.Ok? <==> forall k :: 0 <= k < |list| ==> list[k].Some?
    ensures r.Ok? ==> r.value == Map(Items(list), ToEntry)
    ensures r.Err? ==> r.message == NullItemError
  {
    if list == [] then Ok([])
    else if list[0].None? then Err(NullItemError)
    else
      match MapEntries(list[1..])
      case Err(message) => Err(message)
      case Ok(rest) =>
        assert Items(list)[1..] == Items(list[1..]);
        assert Map(Items(list), ToEntry) == [ToEntry(list[0].value)] + Map(Items(list)[1..], ToEntry);
        Ok([ToEntry(list[0].value)] + rest)
  }

  /** `GET`: a missing file, a parse error or a `null` list element gives an error and no models; otherwise the named entries in file order. */
  function Get(file: Option<string>, parse: YamlParser): (r: Response)
    ensures file.None? ==> r == Response(Some(NotFoundError), [])
    ensures r.error.Some? ==> r.models == []
    ensures forall k :: 0 <= k < |r.models| ==> r.models[k].model != ""
  {
    match file
    case None => Response(Some(NotFoundError), [])
    case Some(text) =>
      match parse(text)
      case Err(message) => Response(Some(if message != "" then message else ReadError), [])
      case Ok(doc) =>
        var list := if doc.modelList.Some? then doc.modelList.value else [];
        match MapEntries(list)
        case Err(message) => Response(Some(message), [])
        case Ok(entries) => Response(None, Filter(entries, Named))
  }

  /** A `null` element anywhere in `model_list` makes the whole answer the `TypeError`'s message, with no models. */
  lemma {:induction false} NullItemFails(text: string, parse: YamlParser, k: nat)
    requires parse(text).Ok? && parse(text).value.modelList.Some?
    requires k < |parse(text).value.modelList.value| && parse(text).value.modelList.value[k].None?
    ensures Get(Some(text), parse) == Response(Some(NullItemError), [])
  {
  }

  /** The context label is `toK` of the context size in every case, also for a size of 0. */
  lemma {:induction false} ContextIsToK(item: Item)
    ensures ToEntry(item).context == ToK(ToEntry(item).contextTokens)
  {
  }

  function EntryModel(e: Entry): string {
    e.model
  }

  function ItemName(item: Item): string {
    item.modelName.GetOr("")
  }

  predicate NonEmpty(name: string) {
    name != ""
  }

  /** The names in the response are the non-empty names of the list, in list order. */
  lemma {:induction false} NamesKept(items: seq<Item>)
    ensures Map(Filter(Map(items, ToEntry), Named), EntryModel) == Filter(Map(items, ItemName), NonEmpty)
  {
    if items != [] {
      NamesKept(items[1..]);
      assert Map(items, ToEntry)[1..] == Map(items[1..], ToEntry);
      assert Map(items, ItemName)[1..] == Map(items[1..], ItemName);
      var kept := Filter(Map(items[1..], ToEntry), Named);
      if Named(ToEntry(items[0])) {
        assert Map([ToEntry(items[0])] + kept, EntryModel)[1..] == Map(kept, EntryModel);
      }
    }
  }

  /** The models of a parsed file: the named entries of the list, in order; with no array, none. */
  lemma {:induction false} GetListsNamedEntries(text: string, parse: YamlParser)
    requires parse(text).Ok?
    ensures parse(text).value.modelList.None? ==> Get(Some(text), parse) == Response(None, [])
    ensures var r := Get(Some(text), parse);
      var list := parse(text).value.modelList;
      list.Some? && (forall k :: 0 <= k < |list.value| ==> list.value[k].Some?) ==>
        && r.error.None?
        && IsSubsequence(r.models, Map(Items(list.value), ToEntry))
        && Map(r.models, EntryModel) == Filter(Map(Items(list.value), ItemName), NonEmpty)
  {
    var doc := parse(text).value;
    if doc.modelList.Some? && forall k :: 0 <= k < |doc.modelList.value| ==> doc.modelList.value[k].Some? {
      var items := Items(doc.modelList.value);
      FilterIsSubsequence(Map(items, ToEntry), Named);
      NamesKept(items);
    }
  }
}
