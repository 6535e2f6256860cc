/** The data-generation dataset: a JSONL file of generated problems, one
    sample per decoded line. Blank and malformed lines are skipped and do not
    advance the index that default IDs are numbered by. Opening and scanning
    the file are collaborators: the loader receives its decoded lines. */
module DatagenDataset {
  import opened Wrappers
  import opened JsonValues
  import opened Text
  import opened EvalTypes
  import Options

  /** The default ID `datagen_{idx}`. */
  function DefaultId(idx: nat): string
  {
    "datagen_" + NatToString(idx)
  }

  /** `parseItem`: the ID under `id`, else the default; the input under
      `question`, else `content`, else `problem`; the category under
      `category`, else `difficulty`; the expected answer under `answer`, else
      `solution` (absent, JNull, otherwise); the whole item as metadata. Only
      string values count. */
  function ParseItem(item: map<string, Json>, idx: nat): Sample
  {
    Sample(
      match StringAt(item, "id") case Some(id) => id case None => DefaultId(idx),
      match FirstString(item, ["question", "content", "problem"]) case Some(q) => q case None => "",
      match FirstString(item, ["answer", "solution"]) case Some(a) => JStr(a) case None => JNull,
      match FirstString(item, ["category", "difficulty"]) case Some(c) => c case None => "",
      0, item, [], [])
  }

  /** The precedence of the keys, spelt out: a later key is read only when
      every earlier one is missing or not a string. */
  lemma ParseItemPrecedence(item: map<string, Json>, idx: nat)
    ensures var s := ParseItem(item, idx);
      && (StringAt(item, "id").Some? ==> s.id == StringAt(item, "id").value)
      && (StringAt(item, "id").None? ==> s.id == DefaultId(idx))
      && (StringAt(item, "question").Some? ==> s.input == StringAt(item, "question").value)
      && (StringAt(item, "question").None? && StringAt(item, "content").Some? ==>
            s.input == StringAt(item, "content").value)
      && (StringAt(item, "question").None? && StringAt(item, "content").None? && StringAt(item, "problem").Some? ==>
            s.input == StringAt(item, "problem").value)
      && (StringAt(item, "question").None? && StringAt(item, "content").None? && StringAt(item, "problem").None? ==>
            s.input == "")
      && (StringAt(item, "category").Some? ==> s.category == StringAt(item, "category").value)
      && (StringAt(item, "category").None? ==>
            s.category == (match StringAt(item, "difficulty") case Some(d) => d case None => ""))
      && (StringAt(item, "answer").Some? ==> s.expected == JStr(StringAt(item, "answer").value))
      && (StringAt(item, "answer").None? ==>
            s.expected == (match StringAt(item, "solution") case Some(a) => JStr(a) case None => JNull))
      && s.metadata == item && s.level == 0 && s.tools == [] && s.files == []
  {
    var qs: seq<string> := ["question", "content", "problem"];
    assert qs[0] == "question" && qs[1..] == ["content", "problem"];
    assert qs[1..][1..] == ["problem"] && qs[1..][1..][1..] == [];
    assert FirstString(item, ["problem"]) == StringAt(item, "problem");
    assert FirstString(item, ["content", "problem"]) ==
      if StringAt(item, "content").Some? then StringAt(item, "content") else StringAt(item, "problem");
    assert FirstString(item, qs) ==
      if StringAt(item, "question").Some? then StringAt(item, "question")
      else FirstString(item, ["content", "problem"]);
    var cs: seq<string> := ["category", "difficulty"];
    assert cs[0] == "category" && cs[1..] == ["difficulty"] && cs[1..][1..] == [];
    assert FirstString(item, ["difficulty"]) == StringAt(item, "difficulty");
    assert FirstString(item, cs) ==
      if StringAt(item, "category").Some? then StringAt(item, "category") else StringAt(item, "difficulty");
    var ans: seq<string> := ["answer", "solution"];
    assert ans[0] == "answer" && ans[1..] == ["solution"] && ans[1..][1..] == [];
    assert FirstString(item, ["solution"]) == StringAt(item, "solution");
    assert FirstString(item, ans) ==
      if StringAt(item, "answer").Some? then StringAt(item, "answer") else StringAt(item, "solution");
  }

  /** Default IDs differ whenever their indices differ. */
  lemma DefaultIdsDistinct(i: nat, j: nat)
    requires i != j
    ensures DefaultId(i) != DefaultId(j)
  {
    if DefaultId(i) == DefaultId(j) {
      assert NatToString(i) == DefaultId(i)[8..] == DefaultId(j)[8..] == NatToString(j);
      NatToStringValue(i);
      NatToStringValue(j);
    }
  }

  /** The samples of the decoded items, numbered from 0. */
  function Parsed(items: seq<map<string, Json>>): (ss: seq<Sample>)
    ensures |ss| == |items|
  {
    seq(|items|, k requires 0 <= k < |items| => ParseItem(items[k], k))
  }

  /** One more decoded item is parsed with the next index. */
  lemma ParsedSnoc(items: seq<map<string, Json>>, item: map<string, Json>)
    ensures Parsed(items + [item]) == Parsed(items) + [ParseItem(item, |items|)]
  {
    assert forall k :: 0 <= k < |items| ==> (items + [item])[k] == items[k];
  }

  /** The decoded items of a file split in two are those of each part. */
  lemma {:induction false} ItemsConcat(xs: seq<Row>, ys: seq<Row>)
    ensures Items(xs + ys) == Items(xs) + Items(ys)
    decreases |xs|
  {
    if xs != [] {
      assert (xs + ys)[1..] == xs[1..] + ys;
      ItemsConcat(xs[1..], ys);
    } else {
      assert xs + ys == ys;
    }
  }

  /** One more line adds its item when it decodes, and nothing otherwise. */
  lemma ItemsSnoc(rows: seq<Row>, r: Row)
    ensures Items(rows + [r]) == Items(rows) + (if r.Decoded? then [r.item] else [])
  {
    ItemsConcat(rows, [r]);
    assert [r][1..] == [];
  }

  /** A blank or malformed line anywhere changes nothing in the samples:
      neither their number, nor their IDs, nor their indices. */
  lemma SkippedLineInvisible(before: seq<Row>, line: Row, after: seq<Row>)
    requires !line.Decoded?
    ensures Parsed(Items(before + [line] + after)) == Parsed(Items(before + after))
  {
    ItemsConcat(before + [line], after);
    ItemsSnoc(before, line);
    ItemsConcat(before, after);
    assert Items(before + [line] + after) == Items(before + after);
  }

  const FileMissing := "数据文件不存在: "
  const IndexOutOfRange := "索引越界: "

  class Dataset {
    var dataPath: string
    var samples: seq<Sample>
    var loaded: bool

    /** `NewDataset`. */
    constructor (dataPath: string)
      ensures this.dataPath == dataPath && samples == [] && !loaded
    {
      this.dataPath := dataPath;
      samples := [];
      loaded := false;
    }

    /** `Load`. A loaded dataset is left as it is. A missing file, or one that
        cannot be opened, is an error. Otherwise every decoded line is parsed
        with the running index and appended, until the context is found
        cancelled before line `cancelAt` (the samples so far stay appended,
        and the dataset stays unloaded); after the last line the dataset is
        loaded and the scanner's error, if any, is returned. */
    method Load(fileExists: bool, file: Result<LineFile>, cancelAt: Option<nat>) returns (err: Option<string>)
      modifies this
      ensures dataPath == old(dataPath)
      ensures old(loaded) ==> err.None? && samples == old(samples) && loaded
      ensures !old(loaded) && !fileExists ==>
        err == Some(FileMissing + dataPath) && samples == old(samples) && !loaded
      ensures !old(loaded) && fileExists && file.Err? ==>
        err == Some(file.error) && samples == old(samples) && !loaded
      ensures !old(loaded) && fileExists && file.Ok? ==>
        var rows := file.value.rows;
        if cancelAt.Some? && cancelAt.value < |rows| then
          err == Some(Options.Canceled) && samples == old(samples) + Parsed(Items(rows[..cancelAt.value])) && !loaded
        else
          err == file.value.readError && samples == old(samples) + Parsed(Items(rows)) && loaded
    {
      if loaded {
        return None;
      }
      if !fileExists {
        return Some(FileMissing + dataPath);
      }
      if file.Err? {
        return Some(file.error);
      }
      var rows := file.value.rows;
      var idx := 0;
      var i := 0;
      while i < |rows|
        invariant 0 <= i <= |rows| && dataPath == old(dataPath) && !loaded
        invariant cancelAt.Some? ==> i <= cancelAt.value
        invariant idx == |Items(rows[..i])|
        invariant samples == old(samples) + Parsed(Items(rows[..i]))
      {
        if cancelAt == Some(i) {
          return Some(Options.Canceled);
        }
        ItemsSnoc(rows[..i], rows[i]);
        assert rows[..i + 1] == rows[..i] + [rows[i]];
        if rows[i].Decoded? {
          ParsedSnoc(Items(rows[..i]), rows[i].item);
          samples := samples + [ParseItem(rows[i].item, idx)];
          idx := idx + 1;
        }
        i := i + 1;
      }
      assert rows[..|rows|] == rows;
      loaded := true;
      return file.value.readError;
    }

    function Len(): nat
      reads this
    {
      |samples|
    }

    /** `Get`: the sample at `index`, an error outside `[0, Len())`. */
    function Get(index: int): (r: Result<Sample>)
      reads this
      ensures r.Ok? <==> 0 <= index < |samples|
      ensures r.Ok? ==> r.value == samples[index]
      ensures r.Err? ==> r.error == IndexOutOfRange + IntToString(index)
    {
      if index < 0 || index >= |samples| then Err(IndexOutOfRange + IntToString(index))
      else Ok(samples[index])
    }

    /** `GetSamples`: the samples in load order. */
    function GetSamples(): (ss: seq<Sample>)
      reads this
      ensures |ss| == Len() && forall k :: 0 <= k < |ss| ==> Get(k) == Ok(ss[k])
    {
      samples
    }
  }

  /** A file loaded into a fresh dataset gives sample `k` from the `k`-th
      decoded line with default ID `datagen_k`; malformed lines leave no gap. */
  lemma LoadedSampleAt(rows: seq<Row>, k: nat)
    requires k < |Items(rows)|
    ensures Parsed(Items(rows))[k] == ParseItem(Items(rows)[k], k)
    ensures StringAt(Items(rows)[k], "id").None? ==> Parsed(Items(rows))[k].id == DefaultId(k)
  {
  }
}
