/** The BFCL dataset: record extraction from decoded JSON lines, the data and
    ground-truth loaders, indexed access with the ground truth attached, and
    the dataset name. Files reach the model already split into lines and
    decoded, one `Row` per line. */
module BfclDataset {
  import opened Wrappers
  import opened JsonValues
  import opened Text
  import opened EvalTypes

  // ---------------------------------------------------------------------------
  // parseItem

  /** The default ID `{category}_{idx}`, shared by samples and ground truth. */
  function DefaultId(category: string, idx: nat): string
  {
    category + "_" + NatToString(idx)
  }

  /** The ID of a data or ground-truth line: `id` when that is a string, else
      the default. */
  function ItemId(category: string, item: map<string, Json>, idx: nat): string
  {
    match StringAt(item, "id") case Some(id) => id case None => DefaultId(category, idx)
  }

  /** `getString`: the string under `key`, or "" when absent or not a string. */
  function GetString(m: map<string, Json>, key: string): string
  {
    match StringAt(m, key) case Some(v) => v case None => ""
  }

  /** The question text: the `content` string of the first message of the
      first turn, `question[0][0].content`; "" when any step of that path
      is missing or of another shape. */
  function QuestionContent(item: map<string, Json>): string
  {
    match ArrayAt(item, "question")
    case None => ""
    case Some(question) =>
      if |question| > 0 && question[0].JArr? && |question[0].items| > 0 && question[0].items[0].JObj?
      then GetString(question[0].items[0].fields, "content")
      else ""
  }

  /** The tool one `function` entry describes; a parameters value that is
      not an object leaves the schema empty. */
  function ToolOf(fn: map<string, Json>): ToolDefinition
  {
    ToolDefinition(GetString(fn, "name"), GetString(fn, "description"),
                   match ObjectAt(fn, "parameters") case Some(p) => p case None => map[])
  }

  /** The tools of a `function` list: one per object entry, in order; other
      entries are skipped. */
  function ItemTools(functions: seq<Json>): seq<ToolDefinition>
    decreases |functions|
  {
    if functions == [] then []
    else
      var last := functions[|functions| - 1];
      ItemTools(functions[..|functions| - 1]) + (if last.JObj? then [ToolOf(last.fields)] else [])
  }

  /** The `function` list of an item, empty when absent or not a list. */
  function FunctionList(item: map<string, Json>): seq<Json>
  {
    match ArrayAt(item, "function") case Some(fs) => fs case None => []
  }

  /** `parseItem`: the sample a decoded line describes, `idx` giving its
      default ID; the whole item is kept as metadata. */
  function ParseItem(category: string, item: map<string, Json>, idx: nat): Sample
  {
    Sample(ItemId(category, item, idx), QuestionContent(item), JNull, category, 0, item,
           ItemTools(FunctionList(item)), [])
  }

  /** `parseItem` as the source performs it, appending one tool per object
      entry of the `function` list. */
  method BuildSample(category: string, item: map<string, Json>, idx: nat) returns (sample: Sample)
    ensures sample == ParseItem(category, item, idx)
  {
    sample := Sample(DefaultId(category, idx), "", JNull, category, 0, item, [], []);
    if "id" in item && item["id"].JStr? {
      sample := sample.(id := item["id"].s);
    }
    sample := sample.(input := QuestionContent(item));
    if "function" in item && item["function"].JArr? {
      var functions := item["function"].items;
      var i := 0;
      while i < |functions|
        invariant 0 <= i <= |functions|
        invariant sample == ParseItem(category, item, idx).(tools := ItemTools(functions[..i]))
      {
        assert functions[..i + 1][..i] == functions[..i];
        var fn := functions[i];
        if fn.JObj? {
          var tool := ToolDefinition(GetString(fn.fields, "name"), GetString(fn.fields, "description"), map[]);
          if "parameters" in fn.fields && fn.fields["parameters"].JObj? {
            tool := tool.(parameters := fn.fields["parameters"].fields);
          }
          sample := sample.(tools := sample.tools + [tool]);
        }
        i := i + 1;
      }
      assert functions[..i] == functions;
    }
  }

  /** The ID is `id` when that is a string and `{category}_{idx}` otherwise;
      the category is the dataset's. */
  lemma IdPrecedence(category: string, item: map<string, Json>, idx: nat)
    ensures "id" in item && item["id"].JStr? ==> ParseItem(category, item, idx).id == item["id"].s
    ensures !("id" in item && item["id"].JStr?) ==> ParseItem(category, item, idx).id == category + "_" + NatToString(idx)
    ensures ParseItem(category, item, idx).category == category
  {
  }

  /** The input is `question[0][0].content` when every step of the path has
      the expected shape, and "" otherwise. */
  lemma InputPath(item: map<string, Json>, turn: seq<Json>, msg: map<string, Json>, rest: seq<Json>)
    ensures ("question" in item && item["question"] == JArr([JArr(turn)] + rest) && |turn| > 0 && turn[0] == JObj(msg)
             && "content" in msg && msg["content"].JStr?) ==> QuestionContent(item) == msg["content"].s
    ensures !("question" in item && item["question"].JArr?) ==> QuestionContent(item) == ""
    ensures "question" in item && item["question"] == JArr([]) ==> QuestionContent(item) == ""
  {
  }

  /** A list of object entries gives exactly one tool per entry, in order,
      each with the entry's name and description ("" when missing). */
  lemma {:induction false} ToolsOnePerObject(functions: seq<Json>)
    requires forall k :: 0 <= k < |functions| ==> functions[k].JObj?
    ensures |ItemTools(functions)| == |functions|
    ensures forall k :: 0 <= k < |functions| ==>
      ItemTools(functions)[k] == ToolOf(functions[k].fields)
      && ItemTools(functions)[k].name == GetString(functions[k].fields, "name")
      && ItemTools(functions)[k].description == GetString(functions[k].fields, "description")
    decreases |functions|
  {
    if functions != [] {
      var init := functions[..|functions| - 1];
      ToolsOnePerObject(init);
      forall k | 0 <= k < |functions|
        ensures ItemTools(functions)[k] == ToolOf(functions[k].fields)
      {
        if k < |init| {
          assert functions[k] == init[k];
        }
      }
    }
  }

  /** Every tool comes from an object entry: there are never more tools than
      entries, and entries that are not objects contribute nothing. */
  lemma {:induction false} ToolsFromObjects(functions: seq<Json>)
    ensures |ItemTools(functions)| <= |functions|
    ensures forall t :: t in ItemTools(functions) ==>
      exists k :: 0 <= k < |functions| && functions[k].JObj? && t == ToolOf(functions[k].fields)
    ensures (forall k :: 0 <= k < |functions| ==> !functions[k].JObj?) ==> ItemTools(functions) == []
    decreases |functions|
  {
    if functions != [] {
      var init := functions[..|functions| - 1];
      ToolsFromObjects(init);
      forall t | t in ItemTools(functions)
        ensures exists k :: 0 <= k < |functions| && functions[k].JObj? && t == ToolOf(functions[k].fields)
      {
        if t in ItemTools(init) {
          var k :| 0 <= k < |init| && init[k].JObj? && t == ToolOf(init[k].fields);
          assert functions[k] == init[k];
        }
      }
      if forall k :: 0 <= k < |functions| ==> !functions[k].JObj? {
        assert forall k :: 0 <= k < |init| ==> init[k] == functions[k];
      }
    }
  }

  // ---------------------------------------------------------------------------
  // The two line loaders

  const DataLinePrefix := "解析第 "
  const GroundTruthLinePrefix := "解析 ground truth 第 "

  /** The message for the malformed line reached after `idx` decoded lines. */
  function LineError(prefix: string, idx: nat, e: string): string
  {
    prefix + NatToString(idx + 1) + " 行失败: " + e
  }

  /** What `loadDataFile` appends and the error it stops with: blank lines are
      skipped, decoded lines are parsed with the running index, and the first
      malformed line ends the load (the samples before it stay appended). */
  function DataRows(category: string, rows: seq<Row>, idx: nat): (seq<Sample>, Option<string>)
    decreases |rows|
  {
    if rows == [] then ([], None)
    else
      match rows[0]
      case Blank => DataRows(category, rows[1..], idx)
      case Malformed(e) => ([], Some(LineError(DataLinePrefix, idx, e)))
      case Decoded(item) =>
        var rest := DataRows(category, rows[1..], idx + 1);
        ([ParseItem(category, item, idx)] + rest.0, rest.1)
  }

  /** `DataRows` on the lines from `i` on, one line unfolded. */
  lemma DataRowsStep(category: string, rows: seq<Row>, i: nat, idx: nat)
    requires i < |rows|
    ensures rows[i].Blank? ==> DataRows(category, rows[i..], idx) == DataRows(category, rows[i + 1..], idx)
    ensures rows[i].Malformed? ==>
      DataRows(category, rows[i..], idx) == ([], Some(LineError(DataLinePrefix, idx, rows[i].error)))
    ensures rows[i].Decoded? ==>
      var rest := DataRows(category, rows[i + 1..], idx + 1);
      DataRows(category, rows[i..], idx) == ([ParseItem(category, rows[i].item, idx)] + rest.0, rest.1)
  {
    assert rows[i..][1..] == rows[i + 1..];
  }

  /** What `loadGroundTruth` stores and the error it stops with: a decoded
      line with a `ground_truth` entry stores it under the line's ID (a later
      line overwriting an earlier one with the same ID); lines without one
      only advance the index. */
  function GroundTruthRows(category: string, rows: seq<Row>, idx: nat, gt: map<string, Json>): (map<string, Json>, Option<string>)
    decreases |rows|
  {
    if rows == [] then (gt, None)
    else
      match rows[0]
      case Blank => GroundTruthRows(category, rows[1..], idx, gt)
      case Malformed(e) => (gt, Some(LineError(GroundTruthLinePrefix, idx, e)))
      case Decoded(item) =>
        GroundTruthRows(category, rows[1..], idx + 1,
                        if "ground_truth" in item then gt[ItemId(category, item, idx) := item["ground_truth"]] else gt)
  }

  /** No line of the file is malformed. */
  predicate WellFormed(rows: seq<Row>)
  {
    forall k :: 0 <= k < |rows| ==> !rows[k].Malformed?
  }

  /** A well-formed file loads without error, and its k-th decoded line is
      its k-th sample, parsed with index `idx + k`: blank lines do not advance
      the index. */
  lemma {:induction false} DataRowsIndexing(category: string, rows: seq<Row>, idx: nat)
    requires WellFormed(rows)
    ensures DataRows(category, rows, idx).1 == None
    ensures |DataRows(category, rows, idx).0| == |Items(rows)|
    ensures forall k :: 0 <= k < |Items(rows)| ==>
      DataRows(category, rows, idx).0[k] == ParseItem(category, Items(rows)[k], idx + k)
    decreases |rows|
  {
    if rows != [] {
      assert WellFormed(rows[1..]) by {
        forall k | 0 <= k < |rows[1..]| ensures !rows[1..][k].Malformed? {
          assert rows[1..][k] == rows[k + 1];
        }
      }
      assert !rows[0].Malformed?;
      if rows[0].Decoded? {
        DataRowsIndexing(category, rows[1..], idx + 1);
        var ss, its := DataRows(category, rows[1..], idx + 1).0, Items(rows[1..]);
        assert DataRows(category, rows, idx).0 == [ParseItem(category, rows[0].item, idx)] + ss;
        assert Items(rows) == [rows[0].item] + its;
        forall k | 0 <= k < |Items(rows)|
          ensures DataRows(category, rows, idx).0[k] == ParseItem(category, Items(rows)[k], idx + k)
        {
          if k > 0 {
            assert ss[k - 1] == ParseItem(category, its[k - 1], idx + 1 + (k - 1));
          }
        }
      } else {
        DataRowsIndexing(category, rows[1..], idx);
      }
    }
  }

  /** The first malformed line aborts the load with its message, naming the
      count of decoded lines before it plus one; the samples parsed before it
      are kept and nothing after it is read. */
  lemma {:induction false} FirstMalformedAborts(category: string, good: seq<Row>, e: string, rest: seq<Row>, idx: nat)
    requires WellFormed(good)
    ensures DataRows(category, good + [Malformed(e)] + rest, idx) ==
      (DataRows(category, good, idx).0, Some(LineError(DataLinePrefix, idx + |Items(good)|, e)))
    ensures GroundTruthRows(category, good + [Malformed(e)] + rest, idx, map[]).1 ==
      Some(LineError(GroundTruthLinePrefix, idx + |Items(good)|, e))
    decreases |good|
  {
    var rows := good + [Malformed(e)] + rest;
    if good == [] {
      assert rows[0] == Malformed(e);
    } else {
      assert rows[0] == good[0] && rows[1..] == good[1..] + [Malformed(e)] + rest;
      assert WellFormed(good[1..]) by {
        forall k | 0 <= k < |good[1..]| ensures !good[1..][k].Malformed? {
          assert good[1..][k] == good[k + 1];
        }
      }
      assert !good[0].Malformed?;
      if good[0].Decoded? {
        FirstMalformedAborts(category, good[1..], e, rest, idx + 1);
        GroundTruthAbortsAnyMap(category, good[1..], e, rest, idx + 1,
          if "ground_truth" in good[0].item then map[ItemId(category, good[0].item, idx) := good[0].item["ground_truth"]] else map[]);
      } else {
        FirstMalformedAborts(category, good[1..], e, rest, idx);
      }
    }
  }

  /** The ground-truth loader's error does not depend on what it has stored. */
  lemma {:induction false} GroundTruthAbortsAnyMap(category: string, good: seq<Row>, e: string, rest: seq<Row>, idx: nat,
                                                  gt: map<string, Json>)
    requires WellFormed(good)
    ensures GroundTruthRows(category, good + [Malformed(e)] + rest, idx, gt).1 ==
      Some(LineError(GroundTruthLinePrefix, idx + |Items(good)|, e))
    decreases |good|
  {
    var rows := good + [Malformed(e)] + rest;
    if good == [] {
      assert rows[0] == Malformed(e);
    } else {
      assert rows[0] == good[0] && rows[1..] == good[1..] + [Malformed(e)] + rest;
      assert WellFormed(good[1..]) by {
        forall k | 0 <= k < |good[1..]| ensures !good[1..][k].Malformed? {
          assert good[1..][k] == good[k + 1];
        }
      }
      assert !good[0].Malformed?;
      if good[0].Decoded? {
        var item := good[0].item;
        GroundTruthAbortsAnyMap(category, good[1..], e, rest, idx + 1,
          if "ground_truth" in item then gt[ItemId(category, item, idx) := item["ground_truth"]] else gt);
      } else {
        GroundTruthAbortsAnyMap(category, good[1..], e, rest, idx, gt);
      }
    }
  }

  /** The k-th decoded line has a ground truth that no later line
      overwrites: no later line with a `ground_truth` entry has its ID. */
  ghost predicate LastWriter(category: string, items: seq<map<string, Json>>, idx: nat, k: nat)
    requires k < |items|
  {
    "ground_truth" in items[k]
    && forall j :: k < j < |items| && "ground_truth" in items[j] ==>
         ItemId(category, items[j], idx + j) != ItemId(category, items[k], idx + k)
  }

  /** The rest of the lines after the first, when the first is not malformed. */
  lemma WellFormedTail(rows: seq<Row>)
    requires rows != [] && WellFormed(rows)
    ensures WellFormed(rows[1..]) && !rows[0].Malformed?
    ensures Items(rows) == (if rows[0].Decoded? then [rows[0].item] else []) + Items(rows[1..])
  {
    forall k | 0 <= k < |rows[1..]| ensures !rows[1..][k].Malformed? {
      assert rows[1..][k] == rows[k + 1];
    }
    assert !rows[0].Malformed?;
  }

  /** A well-formed ground-truth file loads without error. */
  lemma {:induction false} GroundTruthNoError(category: string, rows: seq<Row>, idx: nat, gt: map<string, Json>)
    requires WellFormed(rows)
    ensures GroundTruthRows(category, rows, idx, gt).1 == None
    decreases |rows|
  {
    if rows != [] {
      WellFormedTail(rows);
      if rows[0].Decoded? {
        var item := rows[0].item;
        GroundTruthNoError(category, rows[1..], idx + 1,
          if "ground_truth" in item then gt[ItemId(category, item, idx) := item["ground_truth"]] else gt);
      } else {
        GroundTruthNoError(category, rows[1..], idx, gt);
      }
    }
  }

  /** Every stored key comes from the map the loader started with or is the
      ID of a decoded line that has a `ground_truth` entry. */
  lemma {:induction false} GroundTruthKeysOrigin(category: string, rows: seq<Row>, idx: nat, gt: map<string, Json>)
    requires WellFormed(rows)
    ensures forall id :: id in GroundTruthRows(category, rows, idx, gt).0 ==>
      id in gt || exists k :: 0 <= k < |Items(rows)| && "ground_truth" in Items(rows)[k]
                             && id == ItemId(category, Items(rows)[k], idx + k)
    decreases |rows|
  {
    if rows != [] {
      WellFormedTail(rows);
      if rows[0].Decoded? {
        var item := rows[0].item;
        var gt' := if "ground_truth" in item then gt[ItemId(category, item, idx) := item["ground_truth"]] else gt;
        GroundTruthKeysOrigin(category, rows[1..], idx + 1, gt');
        var its := Items(rows[1..]);
        var result := GroundTruthRows(category, rows[1..], idx + 1, gt').0;
        assert GroundTruthRows(category, rows, idx, gt).0 == result;
        forall id | id in result
          ensures id in gt || exists k :: 0 <= k < |Items(rows)| && "ground_truth" in Items(rows)[k]
                                       && id == ItemId(category, Items(rows)[k], idx + k)
        {
          if id !in gt' {
            var k :| 0 <= k < |its| && "ground_truth" in its[k] && id == ItemId(category, its[k], idx + 1 + k);
            assert Items(rows)[k + 1] == its[k];
          } else if id !in gt {
            assert Items(rows)[0] == item;
          }
        }
      } else {
        GroundTruthKeysOrigin(category, rows[1..], idx, gt);
      }
    }
  }

  /** The ground truth of a decoded line is stored under that line's ID,
      `{category}_{k}` for the k-th decoded line without a string `id` (the
      scheme sample IDs use), unless a later line has the same ID. */
  lemma {:induction false} GroundTruthLastWins(category: string, rows: seq<Row>, idx: nat, gt: map<string, Json>, k: nat)
    requires WellFormed(rows)
    requires k < |Items(rows)| && LastWriter(category, Items(rows), idx, k)
    ensures ItemId(category, Items(rows)[k], idx + k) in GroundTruthRows(category, rows, idx, gt).0
    ensures GroundTruthRows(category, rows, idx, gt).0[ItemId(category, Items(rows)[k], idx + k)]
            == Items(rows)[k]["ground_truth"]
    decreases |rows|
  {
    WellFormedTail(rows);
    var its := Items(rows[1..]);
    if rows[0].Decoded? {
      var item := rows[0].item;
      var gt' := if "ground_truth" in item then gt[ItemId(category, item, idx) := item["ground_truth"]] else gt;
      assert GroundTruthRows(category, rows, idx, gt) == GroundTruthRows(category, rows[1..], idx + 1, gt');
      if k > 0 {
        assert Items(rows)[k] == its[k - 1];
        forall j | k - 1 < j < |its| && "ground_truth" in its[j]
          ensures ItemId(category, its[j], idx + 1 + j) != ItemId(category, its[k - 1], idx + 1 + (k - 1))
        {
          assert Items(rows)[j + 1] == its[j];
        }
        assert LastWriter(category, its, idx + 1, k - 1);
        GroundTruthLastWins(category, rows[1..], idx + 1, gt', k - 1);
      } else {
        var id := ItemId(category, item, idx);
        assert Items(rows)[0] == item;
        forall j | 0 <= j < |its| && "ground_truth" in its[j]
          ensures ItemId(category, its[j], idx + 1 + j) != id
        {
          assert Items(rows)[j + 1] == its[j];
        }
        UntouchedKeyKept(category, rows[1..], idx + 1, gt', id);
      }
    } else {
      GroundTruthLastWins(category, rows[1..], idx, gt, k);
    }
  }

  /** A key no later line with ground truth writes keeps its value. */
  lemma {:induction false} UntouchedKeyKept(category: string, rows: seq<Row>, idx: nat, gt: map<string, Json>, id: string)
    requires WellFormed(rows)
    requires id in gt
    requires forall j :: 0 <= j < |Items(rows)| && "ground_truth" in Items(rows)[j] ==> ItemId(category, Items(rows)[j], idx + j) != id
    ensures id in GroundTruthRows(category, rows, idx, gt).0 && GroundTruthRows(category, rows, idx, gt).0[id] == gt[id]
    decreases |rows|
  {
    if rows != [] {
      WellFormedTail(rows);
      if rows[0].Decoded? {
        var item := rows[0].item;
        var its := Items(rows[1..]);
        assert Items(rows)[0] == item;
        var gt' := if "ground_truth" in item then gt[ItemId(category, item, idx) := item["ground_truth"]] else gt;
        forall j | 0 <= j < |its| && "ground_truth" in its[j] ensures ItemId(category, its[j], idx + 1 + j) != id {
          assert Items(rows)[j + 1] == its[j];
        }
        UntouchedKeyKept(category, rows[1..], idx + 1, gt', id);
      } else {
        UntouchedKeyKept(category, rows[1..], idx, gt, id);
      }
    }
  }

  /** Samples and ground truth share the ID scheme: when the k-th decoded
      data line and the k-th decoded ground-truth line have no string `id`,
      the k-th sample's ID is the key its ground truth is stored under. */
  lemma SharedIdScheme(category: string, data: seq<Row>, truth: seq<Row>, k: nat)
    requires WellFormed(data) && WellFormed(truth)
    requires k < |Items(data)| && k < |Items(truth)|
    requires StringAt(Items(data)[k], "id").None? && StringAt(Items(truth)[k], "id").None?
    ensures k < |DataRows(category, data, 0).0|
            && DataRows(category, data, 0).0[k].id == ItemId(category, Items(truth)[k], k) == DefaultId(category, k)
  {
    DataRowsIndexing(category, data, 0);
  }

  /** The error a line loader returns: its first malformed line's, or else
      the scanner's. */
  function FileError(lineError: Option<string>, file: LineFile): Option<string>
  {
    if lineError.Some? then lineError else file.readError
  }

  // ---------------------------------------------------------------------------
  // The dataset object

  const DataDirMissing := "BFCL 数据目录不存在: "
  const DataDirHint := "\n请先克隆 BFCL 仓库：git clone --depth 1 https://github.com/ShishirPatil/gorilla.git temp_gorilla"
  const DataFileFailed := "加载数据文件失败: "
  const GroundTruthFailed := "加载 ground truth 失败: "

  class Dataset {
    var dataDir: string
    var category: string
    var samples: seq<Sample>
    var groundTruth: map<string, Json>
    var loaded: bool

    /** `NewDataset`: no samples, no ground truth, not loaded. */
    constructor (dataDir: string, category: string)
      ensures this.dataDir == dataDir && this.category == category
      ensures samples == [] && groundTruth == map[] && !loaded
    {
      this.dataDir := dataDir;
      this.category := category;
      samples := [];
      groundTruth := map[];
      loaded := false;
    }

    /** `loadDataFile` over an opened file's lines. */
    method LoadDataFile(file: LineFile) returns (err: Option<string>)
      modifies this
      ensures samples == old(samples) + DataRows(category, file.rows, 0).0
      ensures err == FileError(DataRows(category, file.rows, 0).1, file)
      ensures dataDir == old(dataDir) && category == old(category) && groundTruth == old(groundTruth) && loaded == old(loaded)
    {
      var rows := file.rows;
      var idx := 0;
      var i := 0;
      while i < |rows|
        invariant 0 <= i <= |rows|
        invariant dataDir == old(dataDir) && category == old(category) && groundTruth == old(groundTruth) && loaded == old(loaded)
        invariant samples + DataRows(category, rows[i..], idx).0 == old(samples) + DataRows(category, rows, 0).0
        invariant DataRows(category, rows[i..], idx).1 == DataRows(category, rows, 0).1
      {
        DataRowsStep(category, rows, i, idx);
        match rows[i] {
          case Blank =>
          case Malformed(e) =>
            return Some(LineError(DataLinePrefix, idx, e));
          case Decoded(item) =>
            var sample := BuildSample(category, item, idx);
            samples := samples + [sample];
            idx := idx + 1;
        }
        i := i + 1;
      }
      return file.readError;
    }

    /** `loadGroundTruth` over a file's lines; a file that cannot be opened
      (None) is no error and stores nothing. */
    method LoadGroundTruth(file: Option<LineFile>) returns (err: Option<string>)
      modifies this
      ensures file.None? ==> err.None? && groundTruth == old(groundTruth)
      ensures file.Some? ==>
        var (gt, e) := GroundTruthRows(category, file.value.rows, 0, old(groundTruth));
        groundTruth == gt && err == FileError(e, file.value)
      ensures dataDir == old(dataDir) && category == old(category) && samples == old(samples) && loaded == old(loaded)
    {
      if file.None? {
        return None;
      }
      var rows := file.value.rows;
      var idx := 0;
      var i := 0;
      while i < |rows|
        invariant 0 <= i <= |rows|
        invariant dataDir == old(dataDir) && category == old(category) && samples == old(samples) && loaded == old(loaded)
        invariant GroundTruthRows(category, rows[i..], idx, groundTruth) == GroundTruthRows(category, rows, 0, old(groundTruth))
      {
        assert rows[i..][1..] == rows[i + 1..];
        match rows[i] {
          case Blank =>
          case Malformed(e) =>
            return Some(LineError(GroundTruthLinePrefix, idx, e));
          case Decoded(item) =>
            var id := DefaultId(category, idx);
            if "id" in item && item["id"].JStr? {
              id := item["id"].s;
            }
            if "ground_truth" in item {
              groundTruth := groundTruth[id := item["ground_truth"]];
            }
            idx := idx + 1;
        }
        i := i + 1;
      }
      return file.value.readError;
    }

    /** `Load`: nothing to do once loaded; an error when the data directory
      does not exist; otherwise the data file (an opening error is passed
      in as `Err`), then the ground-truth file, and `loaded` is set only
      when both succeed. What a failing loader appended before its error
      stays in place. */
    method Load(dirExists: bool, data: Result<LineFile>, truth: Option<LineFile>) returns (err: Option<string>)
      modifies this
      ensures dataDir == old(dataDir) && category == old(category)
      ensures old(loaded) ==> err.None? && samples == old(samples) && groundTruth == old(groundTruth) && loaded
      ensures !old(loaded) && !dirExists ==>
        err == Some(DataDirMissing + dataDir + DataDirHint) && samples == old(samples)
        && groundTruth == old(groundTruth) && !loaded
      ensures !old(loaded) && dirExists && data.Err? ==>
        err == Some(DataFileFailed + data.error) && samples == old(samples) && groundTruth == old(groundTruth) && !loaded
      ensures !old(loaded) && dirExists && data.Ok? ==> samples == old(samples) + DataRows(category, data.value.rows, 0).0
      ensures !old(loaded) && dirExists && data.Ok? && FileError(DataRows(category, data.value.rows, 0).1, data.value).Some? ==>
        err == Some(DataFileFailed + FileError(DataRows(category, data.value.rows, 0).1, data.value).value)
        && groundTruth == old(groundTruth)
      ensures !old(loaded) && dirExists && data.Ok? && FileError(DataRows(category, data.value.rows, 0).1, data.value).None? ==>
        if truth.None? then err.None? && groundTruth == old(groundTruth)
        else
          var (gt, e) := GroundTruthRows(category, truth.value.rows, 0, old(groundTruth));
          groundTruth == gt
          && err == (if FileError(e, truth.value).Some? then Some(GroundTruthFailed + FileError(e, truth.value).value) else None)
      ensures loaded <==> old(loaded) || err.None?
    {
      if loaded {
        return None;
      }
      if !dirExists {
        return Some(DataDirMissing + dataDir + DataDirHint);
      }
      if data.Err? {
        return Some(DataFileFailed + data.error);
      }
      var e := LoadDataFile(data.value);
      if e.Some? {
        return Some(DataFileFailed + e.value);
      }
      e := LoadGroundTruth(truth);
      if e.Some? {
        return Some(GroundTruthFailed + e.value);
      }
      loaded := true;
      return None;
    }

    function Len(): nat
      reads this
    {
      |samples|
    }

    /** `Get`: an error outside [0, Len); otherwise the stored sample, with
      its ground truth as the expected value when one is stored under its ID. */
    function Get(index: int): (r: Result<Sample>)
      reads this
      ensures r.Ok? <==> 0 <= index < |samples|
      ensures r.Ok? ==> r.value == samples[index].(expected := if samples[index].id in groundTruth
                                                                then groundTruth[samples[index].id]
                                                                else samples[index].expected)
    {
      if index < 0 || index >= |samples| then Err("索引越界: " + IntToString(index))
      else
        var sample := samples[index];
        match GetGroundTruth(sample.id)
        case Some(gt) => Ok(sample.(expected := gt))
        case None => Ok(sample)
    }

    /** `GetGroundTruth`: the ground truth stored under an ID, if any. */
    function GetGroundTruth(sampleId: string): (r: Option<Json>)
      reads this
      ensures r.Some? <==> sampleId in groundTruth
      ensures r.Some? ==> r.value == groundTruth[sampleId]
    {
      if sampleId in groundTruth then Some(groundTruth[sampleId]) else None
    }

    /** `Name`. */
    function Name(): (n: string)
      reads this
      ensures n == "BFCL_" + category
    {
      "BFCL_" + category
    }

    /** `Get` agrees with `GetGroundTruth`: a sample's expected value is the
      looked-up ground truth whenever there is one, and only its ID and
      expected value can differ from the stored sample. */
    lemma GetAttachesGroundTruth(index: int)
      requires 0 <= index < |samples|
      ensures Get(index).Ok?
      ensures GetGroundTruth(samples[index].id).Some? ==> Get(index).value.expected == GetGroundTruth(samples[index].id).value
      ensures Get(index).value.(expected := samples[index].expected) == samples[index]
    {
    }
  }

  /** Samples as the loader builds them never carry an expected value; it
      comes only from `Get`. */
  lemma {:induction false} LoadedSamplesHaveNoExpected(category: string, rows: seq<Row>, idx: nat)
    ensures forall s :: s in DataRows(category, rows, idx).0 ==> s.expected == JNull && s.category == category
    decreases |rows|
  {
    if rows != [] {
      match rows[0]
      case Blank => LoadedSamplesHaveNoExpected(category, rows[1..], idx);
      case Malformed(_) =>
      case Decoded(_) => LoadedSamplesHaveNoExpected(category, rows[1..], idx + 1);
    }
  }
}
