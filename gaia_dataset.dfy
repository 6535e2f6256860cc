/** The GAIA dataset: record extraction from decoded JSON items, the level
    filter of the two loaders, the fallback over candidate files, indexed
    access, the dataset name and the level distribution. Files reach the model
    already read and decoded, one `DecodedFile` per candidate file that exists. */
module GaiaDataset {
  import opened Wrappers
  import opened JsonValues
  import opened Text
  import opened Tally
  import opened EvalTypes

  // ---------------------------------------------------------------------------
  // parseItem

  /** The default ID `gaia_{idx}`. */
  function DefaultId(idx: nat): string
  {
    "gaia_" + NatToString(idx)
  }

  /** The level: a number under `level`, else under `Level`, truncated to an
      integer; 0 when neither is a number. */
  function ItemLevel(item: map<string, Json>): int
  {
    match NumberAt(item, "level")
    case Some(l) => TruncateToInt(l)
    case None =>
      match NumberAt(item, "Level")
      case Some(l) => TruncateToInt(l)
      case None => 0
  }

  /** The attached files: a non-empty `file_name`, else a non-empty `file_path`. */
  function ItemFiles(item: map<string, Json>): seq<string>
  {
    if StringAt(item, "file_name").Some? && StringAt(item, "file_name").value != "" then [item["file_name"].s]
    else if StringAt(item, "file_path").Some? && StringAt(item, "file_path").value != "" then [item["file_path"].s]
    else []
  }

  /** The ID: `task_id` when that is a string, else the default. */
  function ItemId(item: map<string, Json>, idx: nat): string
  {
    match StringAt(item, "task_id") case Some(t) => t case None => DefaultId(idx)
  }

  /** The question: `question`, else `Question`, else empty. */
  function ItemInput(item: map<string, Json>): string
  {
    match FirstString(item, ["question", "Question"]) case Some(q) => q case None => ""
  }

  /** The expected answer: `final_answer`, else `Final answer`, else
      `expected_answer`, else nil. */
  function ItemExpected(item: map<string, Json>): Json
  {
    match FirstString(item, ["final_answer", "Final answer", "expected_answer"])
    case Some(a) => JStr(a)
    case None => JNull
  }

  /** `parseItem`: the sample a decoded item describes, `idx` giving its default ID. */
  function ParseItem(item: map<string, Json>, idx: nat): Sample
  {
    var level := ItemLevel(item);
    Sample(ItemId(item, idx), ItemInput(item), ItemExpected(item), "level_" + IntToString(level), level,
           item, [], ItemFiles(item))
  }

  /** The ID is `task_id` when that is a string, otherwise `gaia_{idx}`. */
  lemma IdPrecedence(item: map<string, Json>, idx: nat)
    ensures "task_id" in item && item["task_id"].JStr? ==> ParseItem(item, idx).id == item["task_id"].s
    ensures !("task_id" in item && item["task_id"].JStr?) ==> ParseItem(item, idx).id == DefaultId(idx)
  {
  }

  /** The input comes from `question`, else from `Question`; the expected answer
      from `final_answer`, else `Final answer`, else `expected_answer`; a key
      whose value is not a string is passed over. */
  lemma FieldPrecedence(item: map<string, Json>, idx: nat)
    ensures StringAt(item, "question").Some? ==> ParseItem(item, idx).input == item["question"].s
    ensures StringAt(item, "question").None? && StringAt(item, "Question").Some? ==>
      ParseItem(item, idx).input == item["Question"].s
    ensures StringAt(item, "question").None? && StringAt(item, "Question").None? ==> ParseItem(item, idx).input == ""
    ensures StringAt(item, "final_answer").Some? ==> ParseItem(item, idx).expected == item["final_answer"]
    ensures StringAt(item, "final_answer").None? && StringAt(item, "Final answer").Some? ==>
      ParseItem(item, idx).expected == item["Final answer"]
    ensures StringAt(item, "final_answer").None? && StringAt(item, "Final answer").None?
            && StringAt(item, "expected_answer").Some? ==>
      ParseItem(item, idx).expected == item["expected_answer"]
    ensures ParseItem(item, idx).expected.JStr? || ParseItem(item, idx).expected.JNull?
  {
    var qs := ["question", "Question"];
    if StringAt(item, "question").None? && StringAt(item, "Question").Some? {
      assert FirstString(item, qs) == FirstString(item, ["Question"]);
    }
    if StringAt(item, "question").None? && StringAt(item, "Question").None? {
      assert FirstString(item, qs) == FirstString(item, ["Question"]);
      assert ["Question"][1..] == [];
      assert FirstString(item, ["Question"]) == None;
      assert ItemInput(item) == "";
    }
    var es := ["final_answer", "Final answer", "expected_answer"];
    if StringAt(item, "final_answer").None? {
      assert FirstString(item, es) == FirstString(item, ["Final answer", "expected_answer"]);
      if StringAt(item, "Final answer").None? {
        assert FirstString(item, ["Final answer", "expected_answer"]) == FirstString(item, ["expected_answer"]);
        assert ["expected_answer"][1..] == [];
        assert FirstString(item, ["expected_answer"]) == StringAt(item, "expected_answer");
      }
    }
  }

  /** The level comes from a numeric `level`, else a numeric `Level`, truncated
      toward zero; the category names that level. */
  lemma LevelPrecedence(item: map<string, Json>, idx: nat)
    ensures NumberAt(item, "level").Some? ==> ParseItem(item, idx).level == TruncateToInt(item["level"].n)
    ensures NumberAt(item, "level").None? && NumberAt(item, "Level").Some? ==>
      ParseItem(item, idx).level == TruncateToInt(item["Level"].n)
    ensures NumberAt(item, "level").None? && NumberAt(item, "Level").None? ==> ParseItem(item, idx).level == 0
  {
  }

  /** The category is `level_{Level}`, so two items with the same category
      have the same level. */
  lemma CategoryDeterminesLevel(a: map<string, Json>, i: nat, b: map<string, Json>, j: nat)
    ensures ParseItem(a, i).category == "level_" + IntToString(ParseItem(a, i).level)
    ensures ParseItem(a, i).category == ParseItem(b, j).category ==> ParseItem(a, i).level == ParseItem(b, j).level
  {
    var la, lb := ParseItem(a, i).level, ParseItem(b, j).level;
    assert IntToString(la) == ParseItem(a, i).category[6..];
    assert IntToString(lb) == ParseItem(b, j).category[6..];
    if ParseItem(a, i).category == ParseItem(b, j).category {
      IntToStringInjective(la, lb);
    }
  }

  /** A non-empty `file_name` gives the one file; otherwise a non-empty
      `file_path`; otherwise no files. */
  lemma FilesPrecedence(item: map<string, Json>, idx: nat)
    ensures |ParseItem(item, idx).files| <= 1
    ensures StringAt(item, "file_name").Some? && item["file_name"].s != "" ==>
      ParseItem(item, idx).files == [item["file_name"].s]
    ensures ParseItem(item, idx).files != [] ==> ParseItem(item, idx).files[0] != ""
  {
  }

  // ---------------------------------------------------------------------------
  // The two loaders

  /** The level filter: with a positive filter only samples of that level are kept. */
  predicate Kept(filter: int, s: Sample)
  {
    filter <= 0 || s.level == filter
  }

  /** The filter applied to the item a sample is parsed from. */
  predicate KeepItem(filter: int, item: map<string, Json>)
  {
    filter <= 0 || ItemLevel(item) == filter
  }

  /** What `loadJSONL` appends: one row per line, None for a blank or malformed
      line. The default-ID index counts kept samples only. */
  function JsonlSamples(rows: seq<Option<map<string, Json>>>, filter: int, idx: nat): seq<Sample>
  {
    RowsParsed(rows, filter, idx, ParseItem)
  }

  /** The shape of `loadJSONL`'s loop for any item parser: the kept rows,
      each parsed with the number of rows kept before it. */
  function RowsParsed<T>(rows: seq<Option<map<string, Json>>>, filter: int, idx: nat,
                         parse: (map<string, Json>, nat) -> T): seq<T>
    decreases |rows|
  {
    if rows == [] then []
    else
      match rows[0]
      case None => RowsParsed(rows[1..], filter, idx, parse)
      case Some(item) =>
        if KeepItem(filter, item) then [parse(item, idx)] + RowsParsed(rows[1..], filter, idx + 1, parse)
        else RowsParsed(rows[1..], filter, idx, parse)
  }


  /** The shape of `loadJSON`'s loop for any item parser: the items the
      filter keeps, each parsed with its own array position. */
  function KeptParsed<T>(items: seq<map<string, Json>>, filter: int, idx: nat,
                         parse: (map<string, Json>, nat) -> T): seq<T>
    decreases |items|
  {
    if items == [] then []
    else if KeepItem(filter, items[0]) then [parse(items[0], idx)] + KeptParsed(items[1..], filter, idx + 1, parse)
    else KeptParsed(items[1..], filter, idx + 1, parse)
  }

  /** What `loadJSON` appends: the default-ID index is the array position. */
  function JsonSamples(items: seq<map<string, Json>>, filter: int, idx: nat): seq<Sample>
  {
    KeptParsed(items, filter, idx, ParseItem)
  }

  /** The rows `loadJSONL` keeps. */
  function KeptRows(rows: seq<Option<map<string, Json>>>, filter: int): seq<map<string, Json>>
    decreases |rows|
  {
    if rows == [] then []
    else
      match rows[0]
      case None => KeptRows(rows[1..], filter)
      case Some(item) =>
        if KeepItem(filter, item) then [item] + KeptRows(rows[1..], filter)
        else KeptRows(rows[1..], filter)
  }

  /** Whatever the parser, the k-th kept row is parsed with index `idx + k`. */
  lemma {:induction false} RowsParsedAt<T>(rows: seq<Option<map<string, Json>>>, filter: int, idx: nat,
                                           parse: (map<string, Json>, nat) -> T)
    ensures |RowsParsed(rows, filter, idx, parse)| == |KeptRows(rows, filter)|
    ensures forall k :: 0 <= k < |KeptRows(rows, filter)| ==>
      RowsParsed(rows, filter, idx, parse)[k] == parse(KeptRows(rows, filter)[k], idx + k)
    decreases |rows|
  {
    if rows != [] {
      var rest := rows[1..];
      match rows[0]
      case None =>
        RowsParsedAt(rest, filter, idx, parse);
      case Some(item) =>
        if KeepItem(filter, item) {
          RowsParsedAt(rest, filter, idx + 1, parse);
          var ss, ks := RowsParsed(rest, filter, idx + 1, parse), KeptRows(rest, filter);
          assert RowsParsed(rows, filter, idx, parse) == [parse(item, idx)] + ss;
          assert KeptRows(rows, filter) == [item] + ks;
          forall k | 0 <= k < |KeptRows(rows, filter)|
            ensures RowsParsed(rows, filter, idx, parse)[k] == parse(KeptRows(rows, filter)[k], idx + k)
          {
            if k > 0 {
              assert ss[k - 1] == parse(ks[k - 1], idx + 1 + (k - 1));
            }
          }
        } else {
          RowsParsedAt(rest, filter, idx, parse);
        }
    }
  }

  /** In JSONL the k-th kept sample is parsed with index `idx + k`: blank,
      malformed and filtered rows do not advance the index. */
  lemma JsonlIndexCountsKeptRows(rows: seq<Option<map<string, Json>>>, filter: int, idx: nat)
    ensures |JsonlSamples(rows, filter, idx)| == |KeptRows(rows, filter)|
    ensures forall k :: 0 <= k < |KeptRows(rows, filter)| ==>
      JsonlSamples(rows, filter, idx)[k] == ParseItem(KeptRows(rows, filter)[k], idx + k)
  {
    RowsParsedAt(rows, filter, idx, ParseItem);
  }


  /** Every sample a loader keeps passes the level filter. */
  lemma {:induction false} LoadersKeepOnlyFilteredLevel(rows: seq<Option<map<string, Json>>>,
                                                       items: seq<map<string, Json>>, filter: int, idx: nat)
    ensures forall s :: s in JsonlSamples(rows, filter, idx) ==> Kept(filter, s)
    ensures forall s :: s in JsonSamples(items, filter, idx) ==> Kept(filter, s)
    decreases |rows| + |items|
  {
    if rows != [] {
      LoadersKeepOnlyFilteredLevel(rows[1..], items, filter, idx);
      LoadersKeepOnlyFilteredLevel(rows[1..], items, filter, idx + 1);
    }
    if items != [] {
      LoadersKeepOnlyFilteredLevel(rows, items[1..], filter, idx + 1);
    }
  }

  /** The array positions `loadJSON` keeps, counted from `start`. */
  function KeptPositions(items: seq<map<string, Json>>, filter: int, start: nat): seq<nat>
    decreases |items|
  {
    if items == [] then []
    else if KeepItem(filter, items[0]) then [start] + KeptPositions(items[1..], filter, start + 1)
    else KeptPositions(items[1..], filter, start + 1)
  }

  /** The kept positions lie within the array, in the order of the array, and
      with no filter every position is kept. */
  lemma {:induction false} KeptPositionsBounds(items: seq<map<string, Json>>, filter: int, start: nat)
    ensures forall k :: 0 <= k < |KeptPositions(items, filter, start)| ==>
      start <= KeptPositions(items, filter, start)[k] < start + |items|
    ensures filter <= 0 ==> |KeptPositions(items, filter, start)| == |items|
    decreases |items|
  {
    if items != [] {
      KeptPositionsBounds(items[1..], filter, start + 1);
    }
  }

  /** Whatever the parser, the k-th kept item is the one at the k-th kept
      position, parsed with that position. */
  lemma {:induction false} KeptParsedAt<T>(items: seq<map<string, Json>>, filter: int, idx: nat,
                                           parse: (map<string, Json>, nat) -> T, k: nat)
    requires k < |KeptParsed(items, filter, idx, parse)|
    ensures |KeptPositions(items, filter, idx)| == |KeptParsed(items, filter, idx, parse)|
    ensures var p := KeptPositions(items, filter, idx)[k];
      idx <= p < idx + |items| && KeptParsed(items, filter, idx, parse)[k] == parse(items[p - idx], p)
    decreases |items|
  {
    var rest := items[1..];
    var ss, ps := KeptParsed(rest, filter, idx + 1, parse), KeptPositions(rest, filter, idx + 1);
    KeptPositionsBounds(rest, filter, idx + 1);
    if KeepItem(filter, items[0]) {
      assert KeptParsed(items, filter, idx, parse) == [parse(items[0], idx)] + ss;
      assert KeptPositions(items, filter, idx) == [idx] + ps;
      if k > 0 {
        KeptParsedAt(rest, filter, idx + 1, parse, k - 1);
        var p := ps[k - 1];
        assert rest[p - (idx + 1)] == items[p - idx];
      } else if ss != [] {
        KeptParsedAt(rest, filter, idx + 1, parse, 0);
      } else {
        KeptPositionsEmpty(rest, filter, idx + 1, parse);
      }
    } else {
      assert KeptParsed(items, filter, idx, parse) == ss;
      assert KeptPositions(items, filter, idx) == ps;
      KeptParsedAt(rest, filter, idx + 1, parse, k);
      var p := ps[k];
      assert rest[p - (idx + 1)] == items[p - idx];
    }
  }

  /** No kept item, no kept position. */
  lemma {:induction false} KeptPositionsEmpty<T>(items: seq<map<string, Json>>, filter: int, idx: nat,
                                                 parse: (map<string, Json>, nat) -> T)
    requires KeptParsed(items, filter, idx, parse) == []
    ensures KeptPositions(items, filter, idx) == []
    decreases |items|
  {
    if items != [] {
      KeptPositionsEmpty(items[1..], filter, idx + 1, parse);
    }
  }

  /** In JSON the k-th kept sample is the item at its own array position,
      parsed with that position as its index. */
  lemma JsonIndexIsPosition(items: seq<map<string, Json>>, filter: int, idx: nat, k: nat)
    requires k < |JsonSamples(items, filter, idx)|
    ensures k < |KeptPositions(items, filter, idx)|
    ensures var p := KeptPositions(items, filter, idx)[k];
      idx <= p < idx + |items| && JsonSamples(items, filter, idx)[k] == ParseItem(items[p - idx], p)
  {
    KeptParsedAt(items, filter, idx, ParseItem, k);
  }



  /** A candidate file that exists, as the model receives it: the decoded
      lines of a `.jsonl` file (and the scanner's error, if reading stopped
      early), or the decoded array of a `.json` file. */
  datatype DecodedFile =
    | JsonlRows(rows: seq<Option<map<string, Json>>>, readError: Option<string>)
    | JsonItems(items: Result<seq<map<string, Json>>>)

  /** The samples one file contributes and whether its loader reported success. */
  function FileSamples(f: DecodedFile, filter: int): (seq<Sample>, bool)
  {
    match f
    case JsonlRows(rows, readError) => (JsonlSamples(rows, filter, 0), readError.None?)
    case JsonItems(Ok(items)) => (JsonSamples(items, filter, 0), true)
    case JsonItems(Err(_)) => ([], false)
  }

  /** The fallback over candidate files: each file's samples are appended, and
      the first file whose loader succeeds ends the search. */
  function LoadedSamples(files: seq<DecodedFile>, filter: int): seq<Sample>
    decreases |files|
  {
    if files == [] then []
    else
      var (ss, ok) := FileSamples(files[0], filter);
      if ok then ss else ss + LoadedSamples(files[1..], filter)
  }

  /** The first candidate's samples come first; the rest are tried only when
      its loader fails. */
  lemma FallbackStep(files: seq<DecodedFile>, filter: int)
    requires files != []
    ensures LoadedSamples(files, filter) ==
      FileSamples(files[0], filter).0 + (if FileSamples(files[0], filter).1 then [] else LoadedSamples(files[1..], filter))
  {
    if FileSamples(files[0], filter).1 {
      assert FileSamples(files[0], filter).0 + [] == FileSamples(files[0], filter).0;
    }
  }

  const DirMissingHint := "\n请从 HuggingFace 下载: huggingface-cli download gaia-benchmark/GAIA"

  // ---------------------------------------------------------------------------
  // The dataset object

  class Dataset {
    var dataDir: string
    var level: int
    var split: string
    var samples: seq<Sample>
    var loaded: bool

    /** `NewDataset`: the split defaults to `validation`. */
    constructor (dataDir: string, level: int, split: string)
      ensures this.dataDir == dataDir && this.level == level
      ensures this.split == (if split == "" then "validation" else split)
      ensures samples == [] && !loaded
    {
      this.dataDir := dataDir;
      this.level := level;
      this.split := if split == "" then "validation" else split;
      samples := [];
      loaded := false;
    }

    /** `loadJSONL`, over the decoded lines. */
    method LoadJsonl(rows: seq<Option<map<string, Json>>>)
      modifies this
      ensures samples == old(samples) + JsonlSamples(rows, level, 0)
      ensures dataDir == old(dataDir) && level == old(level) && split == old(split) && loaded == old(loaded)
    {
      var idx := 0;
      var i := 0;
      while i < |rows|
        invariant 0 <= i <= |rows|
        invariant dataDir == old(dataDir) && level == old(level) && split == old(split) && loaded == old(loaded)
        invariant samples + JsonlSamples(rows[i..], level, idx) == old(samples) + JsonlSamples(rows, level, 0)
      {
        assert rows[i..][1..] == rows[i + 1..];
        match rows[i] {
          case None =>
          case Some(item) =>
            var sample := ParseItem(item, idx);
            if !(level > 0 && sample.level != level) {
              samples := samples + [sample];
              idx := idx + 1;
            }
        }
        i := i + 1;
      }
    }

    /** `loadJSON`, over the decoded array. */
    method LoadJson(items: seq<map<string, Json>>)
      modifies this
      ensures samples == old(samples) + JsonSamples(items, level, 0)
      ensures dataDir == old(dataDir) && level == old(level) && split == old(split) && loaded == old(loaded)
    {
      var idx := 0;
      while idx < |items|
        invariant 0 <= idx <= |items|
        invariant dataDir == old(dataDir) && level == old(level) && split == old(split) && loaded == old(loaded)
        invariant samples + JsonSamples(items[idx..], level, idx) == old(samples) + JsonSamples(items, level, 0)
      {
        assert items[idx..][1..] == items[idx + 1..];
        var sample := ParseItem(items[idx], idx);
        if !(level > 0 && sample.level != level) {
          samples := samples + [sample];
        }
        idx := idx + 1;
      }
    }

    /** `Load`: nothing to do once loaded; an error when the data directory does
      not exist; otherwise the candidate files in order, stopping at the first
      whose loader succeeds, and an error when no sample was loaded. */
    method Load(dirExists: bool, files: seq<DecodedFile>) returns (err: Option<string>)
      modifies this
      ensures dataDir == old(dataDir) && level == old(level) && split == old(split)
      ensures old(loaded) ==> err.None? && samples == old(samples) && loaded
      ensures !old(loaded) && !dirExists ==>
        err == Some("GAIA 数据目录不存在: " + dataDir + DirMissingHint) && samples == old(samples) && !loaded
      ensures !old(loaded) && dirExists ==> samples == old(samples) + LoadedSamples(files, level)
      ensures !old(loaded) && dirExists ==> (err.None? <==> samples != []) && loaded == (samples != [])
      ensures !old(loaded) && dirExists && err.Some? ==> err.value == "无法加载 GAIA 数据"
    {
      if loaded {
        return None;
      }
      if !dirExists {
        return Some("GAIA 数据目录不存在: " + dataDir + DirMissingHint);
      }
      LoadCandidates(files);
      if |samples| == 0 {
        return Some("无法加载 GAIA 数据");
      }
      loaded := true;
      return None;
    }

    /** The loop of `Load` over the candidate files: each file's samples are
        appended, until a loader succeeds. */
    method LoadCandidates(files: seq<DecodedFile>)
      modifies this
      ensures samples == old(samples) + LoadedSamples(files, level)
      ensures dataDir == old(dataDir) && level == old(level) && split == old(split) && loaded == old(loaded)
    {
      var filter := level;
      ghost var goal := old(samples) + LoadedSamples(files, filter);
      var i := 0;
      while i < |files|
        invariant 0 <= i <= |files|
        invariant dataDir == old(dataDir) && level == filter && split == old(split) && loaded == old(loaded)
        invariant samples + LoadedSamples(files[i..], filter) == goal
      {
        var f := files[i];
        ghost var before, rest := samples, LoadedSamples(files[i + 1..], filter);
        FallbackStep(files[i..], filter);
        assert files[i..][0] == f && files[i..][1..] == files[i + 1..];
        var ok := LoadFile(f);
        if ok {
          assert samples == before + LoadedSamples(files[i..], filter);
          return;
        }
        assert samples + rest == before + (FileSamples(f, filter).0 + rest);
        i := i + 1;
      }
    }

    /** The loader a candidate file's extension selects, and whether it succeeded. */
    method LoadFile(f: DecodedFile) returns (ok: bool)
      modifies this
      ensures samples == old(samples) + FileSamples(f, level).0 && ok == FileSamples(f, level).1
      ensures dataDir == old(dataDir) && level == old(level) && split == old(split) && loaded == old(loaded)
    {
      match f {
        case JsonlRows(rows, readError) =>
          LoadJsonl(rows);
          ok := readError.None?;
        case JsonItems(Ok(items)) =>
          LoadJson(items);
          ok := true;
        case JsonItems(Err(_)) =>
          ok := false;
      }
    }

    function Len(): nat
      reads this
    {
      |samples|
    }

    /** `Get`: the stored sample, or an error outside [0, Len). */
    function Get(index: int): (r: Result<Sample>)
      reads this
      ensures r.Ok? <==> 0 <= index < |samples|
      ensures r.Ok? ==> r.value == samples[index]
    {
      if index < 0 || index >= |samples| then Err("索引越界: " + IntToString(index))
      else Ok(samples[index])
    }

    /** `Name`. */
    function Name(): (n: string)
      reads this
      ensures level > 0 ==> n == "GAIA_" + split + "_Level" + IntToString(level)
      ensures level <= 0 ==> n == "GAIA_" + split
    {
      if level > 0 then "GAIA_" + split + "_Level" + IntToString(level) else "GAIA_" + split
    }

    /** `GetLevelDistribution`: how many samples each level has. */
    method GetLevelDistribution() returns (dist: map<int, nat>)
      ensures dist.Keys == Keys(samples, SampleLevel)
      ensures forall lv :: lv in dist ==> dist[lv] == CountKey(samples, SampleLevel, lv) > 0
    {
      dist := map[];
      var i := 0;
      while i < |samples|
        invariant 0 <= i <= |samples|
        invariant dist.Keys == Keys(samples[..i], SampleLevel)
        invariant forall lv :: lv in dist ==> dist[lv] == CountKey(samples[..i], SampleLevel, lv)
      {
        var s := samples[i];
        assert samples[..i + 1] == samples[..i] + [s];
        assert samples[..i + 1][..i] == samples[..i];
        KeysSnoc(samples[..i], s, SampleLevel);
        if s.level !in dist {
          AbsentKeyCountZero(samples[..i], SampleLevel, s.level);
          dist := dist[s.level := 0];
        }
        dist := dist[s.level := dist[s.level] + 1];
        i := i + 1;
      }
      assert samples[..i] == samples;
      forall lv | lv in dist ensures dist[lv] > 0 {
        KeyCountPositive(samples, SampleLevel, lv);
      }
    }
  }

  function SampleLevel(s: Sample): int
  {
    s.level
  }

  /** The level distribution accounts for every sample exactly once. */
  lemma LevelDistributionSumsToLen(samples: seq<Sample>)
    ensures SumCounts(samples, SampleLevel, Keys(samples, SampleLevel)) == |samples|
  {
    CountsSumToLength(samples, SampleLevel);
  }

  /** The default split is `validation`, and datasets with the same split and
      different positive level filters have different names. */
  lemma NamesDistinguishLevels(split: string, a: int, b: int)
    requires a > 0 && b > 0
    requires "GAIA_" + split + "_Level" + IntToString(a) == "GAIA_" + split + "_Level" + IntToString(b)
    ensures a == b
  {
    var p := "GAIA_" + split + "_Level";
    assert IntToString(a) == (p + IntToString(a))[|p|..];
    assert IntToString(b) == (p + IntToString(b))[|p|..];
    IntToStringInjective(a, b);
  }
}
