/**
 * app/api/config-models/route.ts: the models of the LiteLLM configuration file, read by two
 * line scanners instead of a YAML parser. `extractModelList` collects the `model_name:`
 * values after the `model_list:` line; `extractModelInfo` reads the optional `model_info:`
 * block of context and price entries; `GET` merges the two.
 *
 * Every regular expression is written out as a function over the line; `\s` is the
 * white space of `Text.IsSpace`.
 */
module ConfigModels {
  import opened Wrappers
  import opened Js
  import opened Text
  import opened Seqs

  const ListHeader: string := "model_list:"
  const NameKey: string := "model_name:"
  const InfoKey: string := "model_info"

  /** `[^\s#]`: a character of a value. */
  predicate IsValueChar(c: char) {
    !IsSpace(c) && c != '#'
  }

  // extractModelList

  /** `model_name:\s*([^\s#]+)` tried at position `k` of `s`: the captured value. */
  function NameAt(s: string, k: nat): (r: Option<string>)
    requires k <= |s|
    ensures r.Some? ==> r.value != [] && forall j :: 0 <= j < |r.value| ==> IsValueChar(r.value[j])
  {
    if StartsWith(s[k..], NameKey) then
      var value := Span(TrimStart(s[k + |NameKey|..]), IsValueChar);
      if value == [] then None else Some(value)
    else None
  }

  /** The first position at or after `from` where the pattern matches; `|s| + 1` when there is none. */
  function NamePos(s: string, from: nat): (k: nat)
    requires from <= |s|
    ensures from <= k <= |s| + 1
    ensures k <= |s| ==> NameAt(s, k).Some?
    ensures forall j :: from <= j < k && j <= |s| ==> NameAt(s, j).None?
    decreases |s| - from
  {
    if NameAt(s, from).Some? then from
    else if from == |s| then |s| + 1
    else NamePos(s, from + 1)
  }

  /** `raw.match(/model_name:\s*([^\s#]+)/)?.[1]`: the value of the leftmost match. */
  function LineName(raw: string): Option<string> {
    var k := NamePos(raw, 0);
    if k <= |raw| then NameAt(raw, k) else None
  }

  /** The value of a line is that of the leftmost position where the pattern matches. */
  lemma LineNameLeftmost(raw: string)
    ensures LineName(raw).None? <==> forall k :: 0 <= k <= |raw| ==> NameAt(raw, k).None?
    ensures LineName(raw).Some? ==>
      exists k :: 0 <= k <= |raw| && NameAt(raw, k) == LineName(raw) && forall j :: 0 <= j < k ==> NameAt(raw, j).None?
  {
    var k := NamePos(raw, 0);
    if k <= |raw| {
      assert NameAt(raw, k) == LineName(raw);
    }
  }

  /** The state of the `extractModelList` loop after some lines: `inModelList` and the values pushed into `models`. */
  datatype ListScan = ListScan(inList: bool, found: seq<string>)

  /**
   * The `extractModelList` loop over `lines`, with the header test and the value matcher
   * as parameters: a header line sets the flag and is skipped; once the flag is set, every
   * other line's value is pushed. The check for a later top-level key has an empty body in
   * the source, so nothing ever clears the flag.
   */
  function ScanList(lines: seq<string>, header: string -> bool, name: string -> Option<string>): ListScan {
    if lines == [] then ListScan(false, [])
    else
      var st := ScanList(lines[..|lines| - 1], header, name);
      var raw := lines[|lines| - 1];
      if header(raw) then st.(inList := true)
      else if st.inList && name(raw).Some? then st.(found := st.found + [name(raw).value])
      else st
  }

  /** The position of the first line that passes `header`. */
  function FirstWhere(lines: seq<string>, header: string -> bool): (h: Option<nat>)
    ensures h.Some? ==> h.value < |lines| && header(lines[h.value]) && forall k :: 0 <= k < h.value ==> !header(lines[k])
    ensures h.None? ==> forall k :: 0 <= k < |lines| ==> !header(lines[k])
  {
    if lines == [] then None
    else
      var p := lines[..|lines| - 1];
      match FirstWhere(p, header)
      case Some(h) => Some(h)
      case None => if header(lines[|lines| - 1]) then Some(|lines| - 1) else None
  }

  /** The values of the lines that are not headers, in order and with repeats. */
  function Values(lines: seq<string>, header: string -> bool, name: string -> Option<string>): seq<string> {
    if lines == [] then []
    else
      var raw := lines[|lines| - 1];
      Values(lines[..|lines| - 1], header, name) + (if !header(raw) && name(raw).Some? then [name(raw).value] else [])
  }

  /** The loop collects the values of the lines after the first header, and nothing before one. */
  lemma {:induction false} ScanListIsValues(lines: seq<string>, header: string -> bool, name: string -> Option<string>)
    ensures ScanList(lines, header, name).inList <==> FirstWhere(lines, header).Some?
    ensures FirstWhere(lines, header).None? ==> ScanList(lines, header, name).found == []
    ensures FirstWhere(lines, header).Some? ==>
      ScanList(lines, header, name).found == Values(lines[FirstWhere(lines, header).value + 1..], header, name)
  {
    if lines != [] {
      var p := lines[..|lines| - 1];
      ScanListIsValues(p, header, name);
      if FirstWhere(p, header).Some? {
        var h := FirstWhere(p, header).value;
        ValuesSnocAfter(lines, h + 1, header, name);
        assert lines[h + 1..|lines| - 1] == p[h + 1..];
      }
    }
  }

  /** A line added at the end is seen by `Values` of every suffix that contains it. */
  lemma ValuesSnocAfter(lines: seq<string>, a: nat, header: string -> bool, name: string -> Option<string>)
    requires a < |lines|
    ensures var raw := lines[|lines| - 1];
      Values(lines[a..], header, name) == Values(lines[a..|lines| - 1], header, name)
        + (if !header(raw) && name(raw).Some? then [name(raw).value] else [])
  {
    assert lines[a..][..|lines| - 1 - a] == lines[a..|lines| - 1];
  }

  /** A value is in `Values` of the lines from `a` on exactly when some such non-header line has it. */
  lemma {:induction false} ValuesMembers(lines: seq<string>, a: nat, header: string -> bool, name: string -> Option<string>, m: string)
    requires a <= |lines|
    ensures m in Values(lines[a..], header, name) <==>
      exists k :: a <= k < |lines| && !header(lines[k]) && name(lines[k]) == Some(m)
    decreases |lines|
  {
    if a == |lines| {
      assert lines[a..] == [];
    } else {
      var p := lines[..|lines| - 1];
      var raw := lines[|lines| - 1];
      ValuesSnocAfter(lines, a, header, name);
      assert lines[a..|lines| - 1] == p[a..];
      ValuesMembers(p, a, header, name, m);
      if exists k :: a <= k < |lines| && !header(lines[k]) && name(lines[k]) == Some(m) {
        var k :| a <= k < |lines| && !header(lines[k]) && name(lines[k]) == Some(m);
        if k < |p| {
          assert p[k] == lines[k];
        }
      }
      if m in Values(p[a..], header, name) {
        var k :| a <= k < |p| && !header(p[k]) && name(p[k]) == Some(m);
        assert lines[k] == p[k];
      }
    }
  }

  /** The members of the loop's list: the values of the non-header lines after the first header. */
  lemma ScanListMembers(lines: seq<string>, header: string -> bool, name: string -> Option<string>, m: string)
    ensures m in ScanList(lines, header, name).found <==>
      && FirstWhere(lines, header).Some?
      && exists k :: FirstWhere(lines, header).value < k < |lines| && !header(lines[k]) && name(lines[k]) == Some(m)
  {
    ScanListIsValues(lines, header, name);
    match FirstWhere(lines, header)
    case None =>
      assert ScanList(lines, header, name).found == [];
    case Some(h) =>
      assert ScanList(lines, header, name).found == Values(lines[h + 1..], header, name);
      AfterHeaderMembers(lines, h, header, name, m);
  }

  lemma AfterHeaderMembers(lines: seq<string>, h: nat, header: string -> bool, name: string -> Option<string>, m: string)
    requires h < |lines|
    ensures m in Values(lines[h + 1..], header, name) <==>
      exists k :: h < k < |lines| && !header(lines[k]) && name(lines[k]) == Some(m)
  {
    ValuesMembers(lines, h + 1, header, name, m);
  }

  /** `line.trim().startsWith("model_list:")`. */
  predicate IsListHeader(raw: string) {
    StartsWith(Trim(raw), ListHeader)
  }

  /** The result of `extractModelList`: the distinct values the loop pushed, in order of first appearance. */
  function ModelList(text: string): seq<string> {
    Dedup(ScanList(Split(text, '\n'), IsListHeader, LineName).found)
  }

  /**
   * `extractModelList`: the loop over the lines with the flag `inModelList`, then
   * `Array.from(new Set(models))`.
   */
  method ExtractModelList(text: string) returns (models: seq<string>)
    ensures models == ModelList(text)
  {
    var lines := Split(text, '\n');
    var found: seq<string> := [];
    var inModelList := false;
    var i := 0;
    while i < |lines|
      invariant 0 <= i <= |lines|
      invariant ScanList(lines[..i], IsListHeader, LineName) == ListScan(inModelList, found)
    {
      var raw := lines[i];
      assert lines[..i + 1][..i] == lines[..i];
      var line := Trim(raw);
      if StartsWith(line, ListHeader) {
        inModelList := true;
      } else if inModelList {
        var m := LineName(raw);
        if m.Some? {
          found := found + [m.value];
        }
      }
      i := i + 1;
    }
    assert lines[..i] == lines;
    models := Dedup(found);
  }

  /**
   * A model is listed exactly when there is a `model_list:` line and some later line, other
   * than a `model_list:` line, has a `model_name:` value naming it: later top-level keys
   * do not end the list. Without a `model_list:` line the list is empty.
   */
  lemma ModelListMembers(text: string, m: string)
    ensures var lines := Split(text, '\n');
      m in ModelList(text) <==>
        && FirstWhere(lines, IsListHeader).Some?
        && exists k :: FirstWhere(lines, IsListHeader).value < k < |lines| && !IsListHeader(lines[k]) && LineName(lines[k]) == Some(m)
  {
    ScanListMembers(Split(text, '\n'), IsListHeader, LineName, m);
  }

  /** The list has no repeats, and keeps the order in which the models first appear. */
  lemma ModelListDistinct(text: string)
    ensures NoDuplicates(ModelList(text))
  {
    DedupDistinct(ScanList(Split(text, '\n'), IsListHeader, LineName).found);
  }

  /** A value is the longest run of value characters after `model_name:` and any white space. */
  lemma NameAtIsLongest(s: string, k: nat)
    requires k <= |s| && NameAt(s, k).Some?
    ensures var rest := TrimStart(s[k + |NameKey|..]);
      var v := NameAt(s, k).value;
      StartsWith(rest, v) && (|v| < |rest| ==> !IsValueChar(rest[|v|]))
  {
  }

  // extractModelInfo

  /** What `model_info` records of one model: `Partial<ConfigModel>` without `model`. */
  datatype Info = Info(
    context: Option<string>,
    inputCost: Option<JsNumber>,
    outputCost: Option<JsNumber>,
    speed: Option<JsNumber>,
    latency: Option<JsNumber>)

  /** `{}`. */
  const NoInfo: Info := Info(None, None, None, None, None)

  /** `[a-zA-Z0-9_]`. */
  predicate IsWordChar(c: char) {
    'a' <= c <= 'z' || 'A' <= c <= 'Z' || '0' <= c <= '9' || c == '_'
  }

  /** `[a-zA-Z_]`. */
  predicate IsFieldChar(c: char) {
    'a' <= c <= 'z' || 'A' <= c <= 'Z' || c == '_'
  }

  /** `[^\s:]`. */
  predicate IsModelChar(c: char) {
    !IsSpace(c) && c != ':'
  }

  /** `\s*:` at the start of `s`. */
  predicate ColonFirst(s: string) {
    StartsWith(TrimStart(s), ":")
  }

  /** `/^\s*model_info\s*:/`. */
  predicate IsInfoHeader(line: string) {
    var rest := TrimStart(line);
    StartsWith(rest, InfoKey) && ColonFirst(rest[|InfoKey|..])
  }

  /**
   * `/^[a-zA-Z0-9_]+\s*:/`: an unindented key. (The source's second test, that the line
   * does not start with white space, follows from the first.)
   */
  predicate IsTopLevelKey(line: string) {
    var word := Span(line, IsWordChar);
    word != [] && ColonFirst(line[|word|..])
  }

  /** `/^\s{2}([^\s:]+)\s*:\s*$/`: the key of a model line such as `  openai/gpt-4o-mini:`. */
  function ModelKey(line: string): (r: Option<string>)
    ensures r.Some? ==> r.value != []
  {
    if |line| >= 2 && IsSpace(line[0]) && IsSpace(line[1]) then KeyAfterIndent(line[2..]) else None
  }

  /** `([^\s:]+)\s*:\s*$` after the indentation: the key. */
  function KeyAfterIndent(s: string): (r: Option<string>)
    ensures r.Some? ==> r.value != []
  {
    var key := Span(s, IsModelChar);
    if key != [] && Trim(s[|key|..]) == ":" then Some(key) else None
  }

  /** `[^\s#]+`: a value token. */
  predicate IsToken(v: string) {
    v != [] && forall j :: 0 <= j < |v| ==> IsValueChar(v[j])
  }

  /** `/^\s{4}([a-zA-Z_]+)\s*:\s*([^\s#]+)\s*$/`: the field and the value of a line such as `    context: 128k`. */
  function FieldLine(line: string): Option<(string, string)> {
    if |line| >= 4 && AllSpace(line[..4]) then FieldAfterIndent(line[4..]) else None
  }

  /** `([a-zA-Z_]+)\s*:` and the value, after the indentation. */
  function FieldAfterIndent(s: string): Option<(string, string)> {
    var field := Span(s, IsFieldChar);
    if field == [] then None
    else
      match ValueAfterName(s[|field|..])
      case Some(value) => Some((field, value))
      case None => None
  }

  /** `\s*:\s*([^\s#]+)\s*$` after the field name: the value. */
  function ValueAfterName(s: string): Option<string> {
    var after := TrimStart(s);
    if StartsWith(after, ":") && IsToken(Trim(after[1..])) then Some(Trim(after[1..])) else None
  }

  /** What a line (tabs already replaced) is to `extractModelInfo`, tested in the loop's order. */
  datatype InfoLine =
    | InfoHeader
    | TopLevelKey
    | ModelKeyLine(key: string)
    | FieldValue(field: string, value: string)
    | Other

  function Classify(line: string): InfoLine {
    if IsInfoHeader(line) then InfoHeader
    else if IsTopLevelKey(line) then TopLevelKey
    else if ModelKey(line).Some? then ModelKeyLine(ModelKey(line).value)
    else if FieldLine(line).Some? then FieldValue(FieldLine(line).value.0, FieldLine(line).value.1)
    else Other
  }

  /** `[^\s:]+` and `[a-zA-Z_]+` take as many characters as they can. */
  lemma {:induction false} SpanCovers(s: string, p: char -> bool, n: nat)
    requires n <= |s|
    requires forall j :: 0 <= j < n ==> p(s[j])
    ensures |Span(s, p)| >= n
  {
    if n > 0 {
      SpanCovers(s[1..], p, n - 1);
    }
  }

  /** After the indentation, a model key is a run of characters other than white space and `:`, then a lone `:`. */
  lemma KeyAfterIndentIff(s: string, key: string)
    ensures KeyAfterIndent(s) == Some(key) <==>
      && key != [] && |key| <= |s| && s[..|key|] == key
      && (forall j :: 0 <= j < |key| ==> IsModelChar(key[j]))
      && Trim(s[|key|..]) == ":"
  {
    if key != [] && |key| <= |s| && s[..|key|] == key
      && (forall j :: 0 <= j < |key| ==> IsModelChar(key[j])) && Trim(s[|key|..]) == ":"
    {
      KeyIsLongest(s, key);
    }
  }

  /** A key followed by a lone `:` is the longest run of key characters. */
  lemma KeyIsLongest(s: string, key: string)
    requires |key| <= |s| && s[..|key|] == key
    requires forall j :: 0 <= j < |key| ==> IsModelChar(key[j])
    requires Trim(s[|key|..]) == ":"
    ensures Span(s, IsModelChar) == key
  {
    forall j | 0 <= j < |key| ensures IsModelChar(s[j]) {
      assert s[j] == key[j];
    }
    SpanCovers(s, IsModelChar, |key|);
    ColonLineStart(s[|key|..]);
    assert !IsModelChar(s[|key|]);
    var span := Span(s, IsModelChar);
    assert |span| == |key|;
    assert span == s[..|key|];
  }

  /** Text that trims to `:` starts with white space or `:`. */
  lemma ColonLineStart(rest: string)
    requires Trim(rest) == ":"
    ensures rest != [] && !IsModelChar(rest[0])
  {
    TrimSplits(rest);
    if !IsSpace(rest[0]) {
      assert SkipSpace(rest, 0) == 0;
      assert Trim(rest)[0] == rest[0];
    }
  }

  /**
   * A model-key line is exactly two white-space characters, a key of characters other than
   * white space and `:`, and then `:` with nothing but white space around it.
   */
  lemma ModelKeyIff(line: string, key: string)
    ensures ModelKey(line) == Some(key) <==>
      && |line| >= 2 + |key| && IsSpace(line[0]) && IsSpace(line[1])
      && key != [] && line[2..2 + |key|] == key
      && (forall j :: 0 <= j < |key| ==> IsModelChar(key[j]))
      && Trim(line[2 + |key|..]) == ":"
  {
    if |line| >= 2 {
      var s := line[2..];
      KeyAfterIndentIff(s, key);
      if |key| <= |s| {
        assert s[..|key|] == line[2..2 + |key|];
        assert s[|key|..] == line[2 + |key|..];
      }
    }
  }

  /** White space is never `#`. */
  lemma NoHashInSpace(s: string)
    requires AllSpace(s)
    ensures '#' !in s
  {
  }

  /** A value surrounded by white space holds no `#`. */
  lemma PaddedTokenHasNoHash(t: string)
    requires IsToken(Trim(t))
    ensures '#' !in t
  {
    var value := Trim(t);
    var k := SkipSpace(t, 0);
    TrimSplits(t);
    NoHashInSpace(t[..k]);
    NoHashInSpace(t[k + |value|..]);
    assert '#' !in value;
    NoHashInParts(t, k, k + |value|);
  }

  /** What follows a field name in a field line holds no `#`. */
  lemma ValueAfterNameHasNoHash(s: string)
    requires ValueAfterName(s).Some?
    ensures '#' !in s
  {
    var k := SkipSpace(s, 0);
    var after := s[k..];
    assert after[..1] == ":";
    PaddedTokenHasNoHash(after[1..]);
    NoHashInSpace(s[..k]);
    assert after == after[..1] + after[1..];
    NoHashInParts(s, k, k);
  }

  /**
   * A field line starts with exactly four white-space characters, and holds no `#`
   * anywhere: a trailing comment makes the line unreadable.
   */
  lemma FieldLineShape(line: string)
    requires FieldLine(line).Some?
    ensures |line| > 4 && AllSpace(line[..4]) && !IsSpace(line[4])
    ensures '#' !in line
  {
    var s := line[4..];
    FieldAfterIndentShape(s);
    assert line[4] == s[0];
    NoHashInSpace(line[..4]);
    NoHashInParts(line, 4, 4);
  }

  lemma FieldAfterIndentShape(s: string)
    requires FieldAfterIndent(s).Some?
    ensures s != [] && !IsSpace(s[0])
    ensures '#' !in s
  {
    var field := Span(s, IsFieldChar);
    assert s[0] == field[0] && IsFieldChar(field[0]);
    FieldCharIsNotSpace(field[0]);
    ValueAfterNameHasNoHash(s[|field|..]);
    assert '#' !in field;
    NoHashInParts(s, |field|, |field|);
  }

  lemma FieldCharIsNotSpace(c: char)
    requires IsFieldChar(c)
    ensures !IsSpace(c)
  {
  }

  /** A string cut in three parts, none of which holds `#`, holds no `#`. */
  lemma NoHashInParts(s: string, i: nat, j: nat)
    requires i <= j <= |s|
    requires '#' !in s[..i] && '#' !in s[i..j] && '#' !in s[j..]
    ensures '#' !in s
  {
    assert s == s[..i] + s[i..j] + s[j..];
  }

  /**
   * The five `if (key === ...)` assignments into `out[currentModel]` (the keys differ, so at
   * most one applies): `context` is kept as text, the others go through `Number`; any other
   * field is ignored.
   */
  function SetField(e: Info, field: string, value: string, numberOf: StringToNumber): Info {
    if field == "context" then e.(context := Some(value))
    else if field == "input_cost" then e.(inputCost := Some(numberOf(value)))
    else if field == "output_cost" then e.(outputCost := Some(numberOf(value)))
    else if field == "speed" then e.(speed := Some(numberOf(value)))
    else if field == "latency" then e.(latency := Some(numberOf(value)))
    else e
  }

  /** The state of the scan: `inModelInfo`, `currentModel`, `out`, and whether the loop has stopped. */
  datatype Scan = Scan(inInfo: bool, current: Option<string>, out: map<string, Info>, stopped: bool)

  const Start: Scan := Scan(false, None, map[], false)

  /** `out[m] || {}`. */
  function InfoOf(out: map<string, Info>, m: string): Info {
    if m in out then out[m] else NoInfo
  }

  /** One line of the scan. */
  function Step(st: Scan, kind: InfoLine, numberOf: StringToNumber): Scan {
    if st.stopped then st
    else if kind.InfoHeader? then st.(inInfo := true, current := None)
    else if !st.inInfo then st
    else if kind.TopLevelKey? then st.(stopped := true)
    else if kind.ModelKeyLine? then st.(current := Some(kind.key), out := st.out[kind.key := InfoOf(st.out, kind.key)])
    else if kind.FieldValue? && st.current.Some? then
      var m := st.current.value;
      st.(out := st.out[m := SetField(InfoOf(st.out, m), kind.field, kind.value, numberOf)])
    else st
  }

  /** The kind of each line once its tabs are replaced by two spaces. */
  function Kinds(lines: seq<string>): (kinds: seq<InfoLine>)
    ensures |kinds| == |lines|
  {
    if lines == [] then [] else Kinds(lines[..|lines| - 1]) + [Classify(ReplaceTabs(lines[|lines| - 1]))]
  }

  lemma {:induction false} KindAt(lines: seq<string>, i: nat)
    requires i < |lines|
    ensures Kinds(lines)[i] == Classify(ReplaceTabs(lines[i]))
  {
    if i < |lines| - 1 {
      KindAt(lines[..|lines| - 1], i);
    }
  }

  function ScanKinds(kinds: seq<InfoLine>, numberOf: StringToNumber): Scan {
    if kinds == [] then Start else Step(ScanKinds(kinds[..|kinds| - 1], numberOf), kinds[|kinds| - 1], numberOf)
  }

  /** The result of `extractModelInfo`. */
  function ModelInfo(text: string, numberOf: StringToNumber): map<string, Info> {
    ScanKinds(Kinds(Split(text, '\n')), numberOf).out
  }

  lemma ScanStep(kinds: seq<InfoLine>, i: nat, numberOf: StringToNumber)
    requires i < |kinds|
    ensures ScanKinds(kinds[..i + 1], numberOf) == Step(ScanKinds(kinds[..i], numberOf), kinds[i], numberOf)
  {
    assert kinds[..i + 1][..i] == kinds[..i];
  }

  /** Once the scan has stopped, the remaining lines change nothing. */
  lemma {:induction false} StoppedIsFinal(kinds: seq<InfoLine>, i: nat, numberOf: StringToNumber)
    requires i <= |kinds|
    requires ScanKinds(kinds[..i], numberOf).stopped
    ensures ScanKinds(kinds, numberOf) == ScanKinds(kinds[..i], numberOf)
    decreases |kinds| - i
  {
    if i < |kinds| {
      ScanStep(kinds, i, numberOf);
      StoppedIsFinal(kinds, i + 1, numberOf);
    } else {
      assert kinds[..i] == kinds;
    }
  }

  /** Before a `model_info:` line nothing is recorded. */
  lemma {:induction false} NoHeaderNoInfo(kinds: seq<InfoLine>, numberOf: StringToNumber)
    requires forall i :: 0 <= i < |kinds| ==> !kinds[i].InfoHeader?
    ensures ScanKinds(kinds, numberOf) == Start
  {
    if kinds != [] {
      NoHeaderNoInfo(kinds[..|kinds| - 1], numberOf);
    }
  }

  /**
   * Every recorded model, and the current model, is the key of some model-key line: field
   * lines before the first model key are ignored.
   */
  lemma {:induction false} InfoKeysAreModelKeys(kinds: seq<InfoLine>, numberOf: StringToNumber)
    ensures forall m :: m in ScanKinds(kinds, numberOf).out ==> ModelKeyLine(m) in kinds
    ensures ScanKinds(kinds, numberOf).current.Some? ==> ModelKeyLine(ScanKinds(kinds, numberOf).current.value) in kinds
  {
    if kinds != [] {
      var p := kinds[..|kinds| - 1];
      InfoKeysAreModelKeys(p, numberOf);
      assert kinds == p + [kinds[|kinds| - 1]];
    }
  }

  /** A model key seen again keeps what was recorded for it and becomes the current model. */
  lemma RepeatedKeyKeepsEntry(st: Scan, m: string, numberOf: StringToNumber)
    requires !st.stopped && st.inInfo && m in st.out
    ensures Step(st, ModelKeyLine(m), numberOf) == st.(current := Some(m))
  {
  }

  /** The fields a field line can set; every other field name is ignored. */
  const RecordedFields: set<string> := {"context", "input_cost", "output_cost", "speed", "latency"}

  /** The current model of a scan always has an entry (`out[currentModel] = out[currentModel] || {}`). */
  predicate CurrentRecorded(st: Scan) {
    st.current.Some? ==> st.current.value in st.out
  }

  lemma {:induction false} ScanKeepsCurrentRecorded(kinds: seq<InfoLine>, numberOf: StringToNumber)
    ensures CurrentRecorded(ScanKinds(kinds, numberOf))
  {
    if kinds != [] {
      ScanKeepsCurrentRecorded(kinds[..|kinds| - 1], numberOf);
    }
  }

  /**
   * A field line inside `model_info`, under current model `m`, changes only the entry of `m`,
   * and in it only the field it names: `context` keeps the text, the four others store
   * `Number` of it, and any other field name changes nothing at all.
   */
  lemma FieldLineStores(st: Scan, field: string, value: string, numberOf: StringToNumber)
    requires !st.stopped && st.inInfo && st.current.Some? && CurrentRecorded(st)
    ensures var m := st.current.value;
      var next := Step(st, FieldValue(field, value), numberOf);
      && next.inInfo && !next.stopped && next.current == st.current
      && next.out.Keys == st.out.Keys
      && (forall k :: k in st.out && k != m ==> next.out[k] == st.out[k])
      && (field == "context" ==> next.out[m] == st.out[m].(context := Some(value)))
      && (field == "input_cost" ==> next.out[m] == st.out[m].(inputCost := Some(numberOf(value))))
      && (field == "output_cost" ==> next.out[m] == st.out[m].(outputCost := Some(numberOf(value))))
      && (field == "speed" ==> next.out[m] == st.out[m].(speed := Some(numberOf(value))))
      && (field == "latency" ==> next.out[m] == st.out[m].(latency := Some(numberOf(value))))
      && (field !in RecordedFields ==> next == st)
  {
  }

  /** A field line outside `model_info`, or before any model key inside it, changes nothing. */
  lemma FieldLineIgnored(st: Scan, field: string, value: string, numberOf: StringToNumber)
    requires !st.inInfo || st.current.None?
    ensures Step(st, FieldValue(field, value), numberOf) == st
  {
  }

  /** A run of `p`-characters ended by one that is not: `Span` takes exactly the run. */
  lemma SpanIs(s: string, p: char -> bool, n: nat)
    requires n < |s| && !p(s[n])
    requires forall j :: 0 <= j < n ==> p(s[j])
    ensures Span(s, p) == s[..n]
  {
    SpanCovers(s, p, n);
  }

  /** An indented line is neither the `model_info:` header nor a top-level key. */
  lemma IndentedIsNoHeader(line: string, rest: string, n: nat)
    requires 0 < n <= |line| && AllSpace(line[..n]) && line[n..] == rest
    requires rest != [] && !IsSpace(rest[0]) && !StartsWith(rest, InfoKey)
    ensures !IsInfoHeader(line) && !IsTopLevelKey(line)
  {
    assert line == line[..n] + rest;
    TrimStartConcat(line[..n], rest);
    assert !IsWordChar(line[0]);
  }

  /** A line with white space at position 2 has no model key. */
  lemma IndentedNoModelKey(line: string)
    requires |line| >= 3 && IsSpace(line[2])
    ensures ModelKey(line).None?
  {
    assert line[2..][0] == line[2];
  }

  lemma FieldAfterIndentIs(rest: string, field: string, value: string)
    requires rest == field + ": " + value
    requires field != [] && forall j :: 0 <= j < |field| ==> IsFieldChar(field[j])
    requires IsToken(value)
    ensures FieldAfterIndent(rest) == Some((field, value))
  {
    assert rest[|field|] == ':';
    SpanIs(rest, IsFieldChar, |field|);
    assert rest[..|field|] == field;
    var after := rest[|field|..];
    assert after == ": " + value;
    ValueAfterColon(value);
  }

  lemma ValueAfterColon(value: string)
    requires IsToken(value)
    ensures ValueAfterName(": " + value) == Some(value)
  {
    var after := ": " + value;
    assert !IsSpace(after[0]);
    assert TrimStart(after) == after;
    assert after[1..] == " " + value;
    assert !IsSpace(value[0]) && !IsSpace(value[|value| - 1]);
    TrimPadded(" ", value, "");
    assert " " + value + "" == " " + value;
  }

  /** A line `    <field>: <value>` with a field name and a value token. */
  lemma ExampleFieldKind(line: string, field: string, value: string)
    requires line == "    " + field + ": " + value
    requires field != [] && forall j :: 0 <= j < |field| ==> IsFieldChar(field[j])
    requires IsToken(value)
    requires !StartsWith(field + ": " + value, InfoKey)
    ensures Classify(line) == FieldValue(field, value)
  {
    var rest := field + ": " + value;
    assert line[..4] == "    " && line[4..] == rest;
    assert IsFieldChar(rest[0]) && !IsSpace(rest[0]);
    IndentedIsNoHeader(line, rest, 4);
    IndentedNoModelKey(line);
    FieldAfterIndentIs(rest, field, value);
  }

  const ExampleHeader: string := "model_info:"
  const ExampleKey: string := "  m:"
  const ExampleContext: string := "    context: 128k"
  const ExampleMaxTokens: string := "    max_tokens: 5"
  const ExampleSpeed: string := "    speed: 250 # fast"

  /** A block with one model, a context, a field that is not recorded, and a speed followed by a comment. */
  const ModelInfoExample: string :=
    ExampleHeader + "\n" + ExampleKey + "\n" + ExampleContext + "\n" + ExampleMaxTokens + "\n" + ExampleSpeed

  const ExampleLines: seq<InfoLine> :=
    [InfoHeader, ModelKeyLine("m"), FieldValue("context", "128k"), FieldValue("max_tokens", "5"), Other]

  // The lines of the example, one lemma each.

  lemma ExampleHeaderKind()
    ensures Classify(ExampleHeader) == InfoHeader
  {
    var line := ExampleHeader;
    assert !IsSpace(line[0]);
    assert TrimStart(line) == line;
    assert line[..|InfoKey|] == InfoKey;
    assert line[|InfoKey|..] == ":";
    assert TrimStart(":") == ":";
  }

  lemma ExampleKeyKind()
    ensures Classify(ExampleKey) == ModelKeyLine("m")
  {
    IndentedIsNoHeader(ExampleKey, "m:", 2);
    ExampleKeyIsM();
  }

  lemma ExampleKeyIsM()
    ensures ModelKey(ExampleKey) == Some("m")
  {
    var line := ExampleKey;
    var s := line[2..];
    assert IsSpace(line[0]) && IsSpace(line[1]);
    assert s == "m:";
    assert IsModelChar(s[0]) && !IsModelChar(s[1]);
    SpanIs(s, IsModelChar, 1);
    assert Span(s, IsModelChar) == "m";
    assert s[1..] == ":";
    TrimPadded("", ":", "");
    assert "" + ":" + "" == ":";
    assert Trim(s[|"m"|..]) == ":";
  }

  lemma ExampleContextKind()
    ensures Classify(ExampleContext) == FieldValue("context", "128k")
  {
    var field, value := "context", "128k";
    assert forall j :: 0 <= j < |field| ==> IsFieldChar(field[j]);
    assert IsToken(value);
    assert (field + ": " + value)[..|InfoKey|][0] == 'c';
    ExampleFieldKind(ExampleContext, field, value);
  }

  lemma ExampleMaxTokensKind()
    ensures Classify(ExampleMaxTokens) == FieldValue("max_tokens", "5")
  {
    var field, value := "max_tokens", "5";
    assert forall j :: 0 <= j < |field| ==> IsFieldChar(field[j]);
    assert IsToken(value);
    assert (field + ": " + value)[..|InfoKey|][2] == 'x';
    ExampleFieldKind(ExampleMaxTokens, field, value);
  }

  /** The comment after the value keeps the line from matching, so the speed is not read. */
  lemma ExampleSpeedKind()
    ensures Classify(ExampleSpeed) == Other
  {
    var line := ExampleSpeed;
    var rest := line[4..];
    assert line[..4] == "    ";
    assert rest[..|InfoKey|] != InfoKey by { assert rest[0] == 's'; }
    IndentedIsNoHeader(line, rest, 4);
    IndentedNoModelKey(line);
    assert line[15] == '#';
    if FieldLine(line).Some? {
      FieldLineShape(line);
    }
  }

  /** The example has no tabs to replace. */
  lemma NoTabs(line: string)
    requires line in {ExampleHeader, ExampleKey, ExampleContext, ExampleMaxTokens, ExampleSpeed}
    ensures ReplaceTabs(line) == line
  {
    assert forall j :: 0 <= j < |line| ==> line[j] != '\t';
  }

  lemma ExampleLineKind(line: string, i: nat)
    requires i == 0 ==> line == ExampleHeader
    requires i == 1 ==> line == ExampleKey
    requires i == 2 ==> line == ExampleContext
    requires i == 3 ==> line == ExampleMaxTokens
    requires i == 4 ==> line == ExampleSpeed
    requires i < 5
    ensures Classify(ReplaceTabs(line)) == ExampleLines[i]
  {
    NoTabs(line);
    if i == 0 {
      ExampleHeaderKind();
    } else if i == 1 {
      ExampleKeyKind();
    } else if i == 2 {
      ExampleContextKind();
    } else if i == 3 {
      ExampleMaxTokensKind();
    } else {
      ExampleSpeedKind();
    }
  }

  lemma ExampleLinesClassified(lines: seq<string>)
    requires |lines| == 5
    requires lines[0] == ExampleHeader && lines[1] == ExampleKey && lines[2] == ExampleContext
    requires lines[3] == ExampleMaxTokens && lines[4] == ExampleSpeed
    ensures forall i :: 0 <= i < |lines| ==> ExampleLines[i] == Classify(ReplaceTabs(lines[i]))
  {
    forall i | 0 <= i < 5 ensures Classify(ReplaceTabs(lines[i])) == ExampleLines[i] {
      ExampleLineKind(lines[i], i);
    }
  }

  lemma ExampleSplit()
    ensures Split(ModelInfoExample, '\n') == [ExampleHeader, ExampleKey, ExampleContext, ExampleMaxTokens, ExampleSpeed]
  {
    var lines := [ExampleHeader, ExampleKey, ExampleContext, ExampleMaxTokens, ExampleSpeed];
    assert Join(lines[4..], '\n') == ExampleSpeed;
    assert Join(lines[3..], '\n') == ExampleMaxTokens + "\n" + ExampleSpeed by {
      assert lines[3..][1..] == lines[4..];
    }
    assert Join(lines[2..], '\n') == ExampleContext + "\n" + ExampleMaxTokens + "\n" + ExampleSpeed by {
      assert lines[2..][1..] == lines[3..];
    }
    assert Join(lines[1..], '\n') == ExampleKey + "\n" + ExampleContext + "\n" + ExampleMaxTokens + "\n" + ExampleSpeed by {
      assert lines[1..][1..] == lines[2..];
    }
    assert Join(lines, '\n') == ModelInfoExample;
    SplitJoin(lines, '\n');
  }

  lemma ExampleSplitClassified()
    ensures |Split(ModelInfoExample, '\n')| == |ExampleLines|
    ensures forall i :: 0 <= i < |ExampleLines| ==>
      ExampleLines[i] == Classify(ReplaceTabs(Split(ModelInfoExample, '\n')[i]))
  {
    ExampleSplit();
    ExampleLinesClassified(Split(ModelInfoExample, '\n'));
  }

  /** `Kinds` is the line-by-line classification. */
  lemma KindsAre(lines: seq<string>, kinds: seq<InfoLine>)
    requires |kinds| == |lines|
    requires forall i :: 0 <= i < |lines| ==> kinds[i] == Classify(ReplaceTabs(lines[i]))
    ensures Kinds(lines) == kinds
  {
    forall i | 0 <= i < |lines| ensures Kinds(lines)[i] == kinds[i] {
      KindAt(lines, i);
    }
  }

  /** The lines of `ModelInfoExample`, as the scan classifies them. */
  lemma ExampleKinds()
    ensures Kinds(Split(ModelInfoExample, '\n')) == ExampleLines
  {
    ExampleSplitClassified();
    KindsAre(Split(ModelInfoExample, '\n'), ExampleLines);
  }

  /** The scan of the classified example: the header, the model key, the context, and two ignored lines. */
  lemma ExampleScan(numberOf: StringToNumber)
    ensures ScanKinds(ExampleLines, numberOf) == Scan(true, Some("m"), map["m" := NoInfo.(context := Some("128k"))], false)
  {
    var kinds := ExampleLines;
    var e := NoInfo.(context := Some("128k"));
    var s1 := Scan(true, None, map[], false);
    var s2 := Scan(true, Some("m"), map["m" := NoInfo], false);
    var s3 := Scan(true, Some("m"), map["m" := e], false);
    assert ScanKinds(kinds[..1], numberOf) == s1 by {
      assert kinds[..1][..0] == [];
    }
    assert ScanKinds(kinds[..2], numberOf) == s2 by {
      assert kinds[..2][..1] == kinds[..1];
    }
    assert ScanKinds(kinds[..3], numberOf) == s3 by {
      assert kinds[..3][..2] == kinds[..2];
      assert Step(s2, FieldValue("context", "128k"), numberOf) == s3;
    }
    assert ScanKinds(kinds[..4], numberOf) == s3 by {
      assert kinds[..4][..3] == kinds[..3];
      assert Step(s3, FieldValue("max_tokens", "5"), numberOf) == s3;
    }
    assert kinds[..4] == kinds[..|kinds| - 1];
  }

  /**
   * Only the listed fields are kept, and a value followed by a comment does not match:
   * of `context`, `max_tokens` and a commented `speed`, only the context is recorded.
   */
  lemma ModelInfoExampleResult(numberOf: StringToNumber)
    ensures ModelInfo(ModelInfoExample, numberOf) == map["m" := NoInfo.(context := Some("128k"))]
  {
    ExampleKinds();
    ExampleScan(numberOf);
  }

  /** The result of `extractModelInfo` for text without a `model_info:` line is empty. */
  lemma ModelInfoNeedsHeader(text: string, numberOf: StringToNumber)
    requires forall i :: 0 <= i < |Kinds(Split(text, '\n'))| ==> !Kinds(Split(text, '\n'))[i].InfoHeader?
    ensures ModelInfo(text, numberOf) == map[]
  {
    NoHeaderNoInfo(Kinds(Split(text, '\n')), numberOf);
  }

  /**
   * The body of the `extractModelInfo` loop for one classified line: the new `inModelInfo`,
   * `currentModel` and `out`, and whether the loop breaks.
   */
  method ReadInfoLine(inModelInfo: bool, currentModel: Option<string>, out: map<string, Info>, kind: InfoLine, numberOf: StringToNumber)
    returns (inModelInfo': bool, currentModel': Option<string>, out': map<string, Info>, stop: bool)
    ensures Scan(inModelInfo', currentModel', out', stop) == Step(Scan(inModelInfo, currentModel, out, false), kind, numberOf)
  {
    inModelInfo', currentModel', out', stop := inModelInfo, currentModel, out, false;
    if kind.InfoHeader? {
      inModelInfo' := true;
      currentModel' := None;
      return;
    }
    if !inModelInfo {
      return;
    }
    if kind.TopLevelKey? {
      stop := true;
      return;
    }
    if kind.ModelKeyLine? {
      currentModel' := Some(kind.key);
      out' := out[kind.key := if kind.key in out then out[kind.key] else NoInfo];
      return;
    }
    if currentModel.None? || !kind.FieldValue? {
      return;
    }
    var entry := if currentModel.value in out then out[currentModel.value] else NoInfo;
    entry := SetField(entry, kind.field, kind.value, numberOf);
    out' := out[currentModel.value := entry];
  }

  /**
   * `extractModelInfo`: the loop over the lines with `inModelInfo` and `currentModel`,
   * assigning into `out`, that ends at the first top-level key inside the block.
   */
  method ExtractModelInfo(text: string, numberOf: StringToNumber) returns (out: map<string, Info>)
    ensures out == ModelInfo(text, numberOf)
  {
    var lines := Split(text, '\n');
    ghost var kinds := Kinds(lines);
    out := map[];
    var inModelInfo := false;
    var currentModel: Option<string> := None;
    var i := 0;
    while i < |lines|
      invariant 0 <= i <= |lines|
      invariant ScanKinds(kinds[..i], numberOf) == Scan(inModelInfo, currentModel, out, false)
    {
      var kind := Classify(ReplaceTabs(lines[i]));
      KindAt(lines, i);
      ScanStep(kinds, i, numberOf);
      var stop;
      inModelInfo, currentModel, out, stop := ReadInfoLine(inModelInfo, currentModel, out, kind, numberOf);
      if stop {
        StoppedIsFinal(kinds, i + 1, numberOf);
        break;
      }
      i := i + 1;
    }
    if i == |lines| {
      assert kinds[..i] == kinds;
    }
  }

  // GET

  /** One entry of the `GET` response: the model and the fields `model_info` gives it. */
  datatype ConfigModel = ConfigModel(model: string, info: Info)

  /**
   * `GET`: `file` is the content of `litellm-config.yaml`, `None` when the file does not
   * exist. A missing or empty file gives no models; otherwise each model of the list, in
   * its order, with what the info block records of it (`info[m] || {}`).
   */
  function Get(file: Option<string>, numberOf: StringToNumber): (models: seq<ConfigModel>)
    ensures file.None? || file == Some("") ==> models == []
    ensures file.Some? ==> |models| == |ModelList(file.value)|
    ensures file.Some? ==> forall i :: 0 <= i < |models| ==>
      && models[i].model == ModelList(file.value)[i]
      && models[i].info == InfoOf(ModelInfo(file.value, numberOf), models[i].model)
  {
    match file
    case None => []
    case Some(text) =>
      if text == "" then []
      else
        var list := ModelList(text);
        var info := ModelInfo(text, numberOf);
        Map(list, m => ConfigModel(m, InfoOf(info, m)))
  }

  /** `GET` lists exactly the models of `model_list`: one named only in `model_info` is dropped. */
  lemma GetListsModelList(file: Option<string>, numberOf: StringToNumber, m: string)
    ensures (exists i :: 0 <= i < |Get(file, numberOf)| && Get(file, numberOf)[i].model == m)
      <==> file.Some? && m in ModelList(file.value)
  {
    var models := Get(file, numberOf);
    if file.Some? && m in ModelList(file.value) {
      var i :| 0 <= i < |ModelList(file.value)| && ModelList(file.value)[i] == m;
      assert models[i].model == m;
    }
  }
}
