/** BFCL parsing: the function calls an agent's reply contains, the calls a
    ground-truth value describes (list, `name`/`arguments`, `{func: {param:
    [acceptable...]}}`, Python-style call strings, JSON text), and the parser
    for Python-style calls. Regular expressions are hand-written scanners;
    `json.Unmarshal` and Go's map iteration order are parameters. */
module BfclParsing {
  import opened Wrappers
  import opened JsonValues
  import opened Text
  import opened EvalTypes

  /** One `json.Unmarshal` into an existing Go variable: the variable's value
      afterwards and whether no error was reported. Even a decode that reports
      an error may have set fields, and a decode into a struct keeps the fields
      the text does not mention and merges into its existing map. */
  datatype Decoded<T> = Decoded(value: T, ok: bool)

  /** `json.Unmarshal` into a `[]FunctionCall` and into a `FunctionCall`
      variable, given the variable's value before the call. */
  datatype CallDecoders = CallDecoders(
    list: (seq<FunctionCall>, string) -> Decoded<seq<FunctionCall>>,
    single: (FunctionCall, string) -> Decoded<FunctionCall>)

  /** The zero `FunctionCall`: no name, no arguments. */
  const ZeroCall := FunctionCall("", map[])

  /** The order in which a `range` over a Go map visits its keys; the runtime
      chooses it, so the model takes it as a parameter. */
  type KeyOrder = map<string, Json> -> seq<string>

  /** A key order that visits every key exactly once. */
  ghost predicate EnumeratesKeys(order: KeyOrder)
  {
    forall m: map<string, Json> :: multiset(order(m)) == multiset(m.Keys)
  }

  // ---------------------------------------------------------------------------
  // extractFunctionCalls

  /** All matches of `\[[\s\S]*?\{[\s\S]*?"name"[\s\S]*?\}[\s\S]*?\]` in `s`
      from `from` on (`FindAllString`). The leftmost match starts at the first
      remaining `[`; being lazy, it runs to the first `{` after it, the first
      `"name"` after that, the first `}` after that and the first `]` after
      that. When that chain breaks, no later `[` can complete it either. */
  function ListCandidates(s: string, from: nat): (ms: seq<string>)
    requires from <= |s|
    decreases |s| - from
  {
    match IndexFrom(s, "[", from)
    case None => []
    case Some(p) =>
      match CandidateEnd(s, p)
      case None => []
      case Some(e) => [s[p..e]] + ListCandidates(s, e)
  }

  /** The end (exclusive) of the lazy match that starts at the `[` at `p`:
      just past the first `]` after the first `}` after the first `"name"`
      after the first `{` after `p`. */
  function CandidateEnd(s: string, p: nat): (r: Option<nat>)
    requires p < |s|
    ensures r.Some? ==> p + 9 <= r.value <= |s| && s[r.value - 1] == ']'
  {
    match IndexFrom(s, "{", p + 1)
    case None => None
    case Some(a) =>
      match IndexFrom(s, "\"name\"", a + 1)
      case None => None
      case Some(n) =>
        match IndexFrom(s, "}", n + 6)
        case None => None
        case Some(c) =>
          match IndexOfChar(s, ']', c + 1)
          case None => None
          case Some(e) => Some(e + 1)
  }

  /** A slice long enough to hold `[{"name"}]`, opening with `[` and closing
      with `]`. */
  predicate Bracketed(m: string)
  {
    |m| >= 9 && m[0] == '[' && m[|m| - 1] == ']'
  }

  /** Every candidate is a bracketed slice of the text. */
  lemma {:induction false} ListCandidatesShape(s: string, from: nat)
    requires from <= |s|
    ensures forall m :: m in ListCandidates(s, from) ==> Bracketed(m)
    decreases |s| - from
  {
    match IndexFrom(s, "[", from)
    case None =>
    case Some(p) =>
      match CandidateEnd(s, p)
      case None =>
      case Some(e) =>
        ListCandidatesShape(s, e);
        var head, rest := s[p..e], ListCandidates(s, e);
        assert OccursAt(s, "[", p);
        assert head[0] == s[p..p + 1][0] == '[';
        assert head[|head| - 1] == s[e - 1] == ']';
        assert Bracketed(head);
        assert ListCandidates(s, from) == [head] + rest;
        forall m | m in [head] + rest
          ensures Bracketed(m)
        {
          if m != head {
            assert m in rest;
          }
        }
  }

  /** The first candidate that decodes to a non-empty list of calls. Each
      candidate is decoded into a fresh variable. */
  function FirstNonEmptyList(dec: CallDecoders, ms: seq<string>): (r: Option<seq<FunctionCall>>)
    ensures r.Some? ==> r.value != []
    decreases |ms|
  {
    if ms == [] then None
    else if dec.list([], ms[0]).ok && dec.list([], ms[0]).value != [] then Some(dec.list([], ms[0]).value)
    else FirstNonEmptyList(dec, ms[1..])
  }

  /** A decode that reported no error and left a non-empty name. */
  predicate NamedCall(d: Decoded<FunctionCall>)
  {
    d.ok && d.value.name != ""
  }

  /** A fenced block gives calls when, decoded into the current values of
      `calls` and `singleCall`, its trimmed content is a list or a named call. */
  predicate BlockSucceeds(dec: CallDecoders, state: (seq<FunctionCall>, FunctionCall), block: string)
  {
    dec.list(state.0, TrimSpace(block)).ok || NamedCall(dec.single(state.1, TrimSpace(block)))
  }

  /** The values of `calls` and `singleCall` before each fenced block, when
      every block before it failed: each failed decode leaves its variable as
      it found it or as it partly filled it. */
  function BlockStates(dec: CallDecoders, calls: seq<FunctionCall>, one: FunctionCall, blocks: seq<string>)
    : (st: seq<(seq<FunctionCall>, FunctionCall)>)
    ensures |st| == |blocks|
    decreases |blocks|
  {
    if blocks == [] then []
    else
      var content := TrimSpace(blocks[0]);
      [(calls, one)] + BlockStates(dec, dec.list(calls, content).value, dec.single(one, content).value, blocks[1..])
  }

  /** The first fenced block whose trimmed content decodes as a list (even an
      empty one) or as a single named call, with `calls` and `singleCall`
      carried from one block to the next. */
  function BlockCalls(dec: CallDecoders, calls: seq<FunctionCall>, one: FunctionCall, blocks: seq<string>)
    : (r: Option<seq<FunctionCall>>)
    decreases |blocks|
  {
    if blocks == [] then None
    else
      var content := TrimSpace(blocks[0]);
      var listed := dec.list(calls, content);
      var single := dec.single(one, content);
      if listed.ok then Some(listed.value)
      else if NamedCall(single) then Some([single.value])
      else BlockCalls(dec, listed.value, single.value, blocks[1..])
  }

  const EmptyResponse := "空响应"
  const NoCallsFound := "无法从响应中提取函数调用"

  /** The four-step fallback of `extractFunctionCalls` on the trimmed reply.
      The whole reply is decoded into `calls` and into `singleCall`, and the
      fenced blocks decode into those same variables. */
  function ExtractedCalls(dec: CallDecoders, response: string): Result<seq<FunctionCall>>
  {
    var t := TrimSpace(response);
    if t == "" then Err(EmptyResponse)
    else
      var whole := dec.list([], t);
      if whole.ok then Ok(whole.value)
      else
        var listed := FirstNonEmptyList(dec, ListCandidates(t, 0));
        if listed.Some? then Ok(listed.value)
        else
          var single := dec.single(ZeroCall, t);
          if NamedCall(single) then Ok([single.value])
          else
            var fenced := BlockCalls(dec, whole.value, single.value, FencedBlocks(t, 0));
            if fenced.Some? then Ok(fenced.value) else Err(NoCallsFound)
  }

  /** `extractFunctionCalls`: the whole trimmed reply, then the list
      candidates, then a single object, then the fenced blocks. */
  method ExtractFunctionCalls(dec: CallDecoders, response: string) returns (r: Result<seq<FunctionCall>>)
    ensures r == ExtractedCalls(dec, response)
  {
    var t := TrimSpace(response);
    if t == "" {
      return Err(EmptyResponse);
    }
    var calls: seq<FunctionCall> := [];
    var whole := dec.list(calls, t);
    calls := whole.value;
    if whole.ok {
      return Ok(calls);
    }
    var listed := FirstListed(dec, ListCandidates(t, 0));
    if listed.Some? {
      return Ok(listed.value);
    }
    var singleCall := ZeroCall;
    var single := dec.single(singleCall, t);
    singleCall := single.value;
    if single.ok && singleCall.name != "" {
      return Ok([singleCall]);
    }
    var fenced := FirstBlock(dec, calls, singleCall, FencedBlocks(t, 0));
    if fenced.Some? {
      return Ok(fenced.value);
    }
    return Err(NoCallsFound);
  }

  /** The loop over the list candidates: the first that decodes to a
      non-empty list. */
  method FirstListed(dec: CallDecoders, matches: seq<string>) returns (r: Option<seq<FunctionCall>>)
    ensures r == FirstNonEmptyList(dec, matches)
  {
    var i := 0;
    while i < |matches|
      invariant 0 <= i <= |matches|
      invariant FirstNonEmptyList(dec, matches[i..]) == FirstNonEmptyList(dec, matches)
    {
      assert matches[i..][1..] == matches[i + 1..];
      var extracted := dec.list([], matches[i]);
      if extracted.ok && extracted.value != [] {
        return Some(extracted.value);
      }
      i := i + 1;
    }
    return None;
  }

  /** The loop over the fenced blocks: the first whose trimmed content
      decodes as a list or as a named call, decoding into the same `calls`
      and `singleCall` variables throughout. */
  method FirstBlock(dec: CallDecoders, calls0: seq<FunctionCall>, single0: FunctionCall, blocks: seq<string>)
    returns (r: Option<seq<FunctionCall>>)
    ensures r == BlockCalls(dec, calls0, single0, blocks)
  {
    var calls, singleCall := calls0, single0;
    var j := 0;
    while j < |blocks|
      invariant 0 <= j <= |blocks|
      invariant BlockCalls(dec, calls, singleCall, blocks[j..]) == BlockCalls(dec, calls0, single0, blocks)
    {
      assert blocks[j..][1..] == blocks[j + 1..];
      var content := TrimSpace(blocks[j]);
      var listed := dec.list(calls, content);
      calls := listed.value;
      if listed.ok {
        return Some(calls);
      }
      var one := dec.single(singleCall, content);
      singleCall := one.value;
      if one.ok && singleCall.name != "" {
        return Some([singleCall]);
      }
      j := j + 1;
    }
    return None;
  }

  /** Every attempt of the fallback chain fails on the trimmed reply `t`. */
  ghost predicate AllAttemptsFail(dec: CallDecoders, t: string)
  {
    var blocks := FencedBlocks(t, 0);
    var st := BlockStates(dec, dec.list([], t).value, dec.single(ZeroCall, t).value, blocks);
    && !dec.list([], t).ok
    && (forall m :: m in ListCandidates(t, 0) ==> !dec.list([], m).ok || dec.list([], m).value == [])
    && !NamedCall(dec.single(ZeroCall, t))
    && (forall k :: 0 <= k < |blocks| ==> !BlockSucceeds(dec, st[k], blocks[k]))
  }

  lemma {:induction false} FirstNonEmptyListNone(dec: CallDecoders, ms: seq<string>)
    ensures FirstNonEmptyList(dec, ms).None? <==>
            forall m :: m in ms ==> !dec.list([], m).ok || dec.list([], m).value == []
    decreases |ms|
  {
    if ms != [] {
      FirstNonEmptyListNone(dec, ms[1..]);
      assert forall m :: m in ms <==> m == ms[0] || m in ms[1..];
    }
  }

  /** No fenced block gives calls exactly when each block fails, decoded into
      the values the blocks before it left in `calls` and `singleCall`. */
  lemma {:induction false} BlockCallsNone(dec: CallDecoders, calls: seq<FunctionCall>, one: FunctionCall, blocks: seq<string>)
    ensures var st := BlockStates(dec, calls, one, blocks);
            BlockCalls(dec, calls, one, blocks).None? <==>
            forall k :: 0 <= k < |blocks| ==> !BlockSucceeds(dec, st[k], blocks[k])
    decreases |blocks|
  {
    if blocks != [] {
      var content := TrimSpace(blocks[0]);
      var calls', one' := dec.list(calls, content).value, dec.single(one, content).value;
      BlockCallsNone(dec, calls', one', blocks[1..]);
      var st := BlockStates(dec, calls, one, blocks);
      var rest := BlockStates(dec, calls', one', blocks[1..]);
      assert st == [(calls, one)] + rest;
      if BlockCalls(dec, calls, one, blocks).None? {
        forall k | 0 <= k < |blocks| ensures !BlockSucceeds(dec, st[k], blocks[k]) {
          if k > 0 {
            assert st[k] == rest[k - 1] && blocks[k] == blocks[1..][k - 1];
          }
        }
      } else if !BlockSucceeds(dec, st[0], blocks[0]) {
        var k :| 0 <= k < |blocks[1..]| && BlockSucceeds(dec, rest[k], blocks[1..][k]);
        assert st[k + 1] == rest[k] && blocks[k + 1] == blocks[1..][k];
      }
    }
  }

  /** A block that fails still passes on what it decoded: when the first of
      two blocks sets fields of `singleCall` without a name, the second block
      is decoded on top of them. */
  lemma StateCarriedBetweenBlocks(dec: CallDecoders, calls: seq<FunctionCall>, one: FunctionCall, b1: string, b2: string)
    requires !dec.list(calls, TrimSpace(b1)).ok && !NamedCall(dec.single(one, TrimSpace(b1)))
    requires !dec.list(dec.list(calls, TrimSpace(b1)).value, TrimSpace(b2)).ok
    requires NamedCall(dec.single(dec.single(one, TrimSpace(b1)).value, TrimSpace(b2)))
    ensures BlockCalls(dec, calls, one, [b1, b2]) == Some([dec.single(dec.single(one, TrimSpace(b1)).value, TrimSpace(b2)).value])
  {
    assert [b1, b2][1..] == [b2];
  }

  /** Extraction fails exactly on a blank reply, with "空响应", or when every
      attempt fails, with the final error. */
  lemma ExtractionFails(dec: CallDecoders, response: string)
    ensures TrimSpace(response) == "" ==> ExtractedCalls(dec, response) == Err(EmptyResponse)
    ensures ExtractedCalls(dec, response).Err? <==>
            TrimSpace(response) == "" || AllAttemptsFail(dec, TrimSpace(response))
    ensures TrimSpace(response) != "" && AllAttemptsFail(dec, TrimSpace(response)) ==>
            ExtractedCalls(dec, response) == Err(NoCallsFound)
  {
    var t := TrimSpace(response);
    if t != "" {
      FirstNonEmptyListNone(dec, ListCandidates(t, 0));
      BlockCallsNone(dec, dec.list([], t).value, dec.single(ZeroCall, t).value, FencedBlocks(t, 0));
    }
  }

  /** The attempts run in order: a reply that decodes whole as a list gives
      that list, even an empty one; otherwise a list found inside it is used
      only when non-empty; a single object only when it is named. */
  lemma ExtractionOrder(dec: CallDecoders, response: string, m: string)
    requires TrimSpace(response) != "" && !dec.list([], TrimSpace(response)).ok
    requires m in ListCandidates(TrimSpace(response), 0) && dec.list([], m).ok && dec.list([], m).value != []
    ensures ExtractedCalls(dec, response).Ok? && ExtractedCalls(dec, response).value != []
  {
    FirstNonEmptyListNone(dec, ListCandidates(TrimSpace(response), 0));
  }

  // ---------------------------------------------------------------------------
  // parsePythonFunctionCall

  /** The length of the longest prefix without a comma (what `[^,]+` consumes). */
  function NonCommaRun(s: string): (n: nat)
    ensures n <= |s|
    ensures forall i :: 0 <= i < n ==> s[i] != ','
    ensures n < |s| ==> s[n] == ','
  {
    if s == [] || s[0] == ',' then 0 else 1 + NonCommaRun(s[1..])
  }

  /** One match of `(\w+)\s*=\s*([^,]+)` starting exactly at `p`: the
      parameter name, the raw value and the end of the match. When only white
      space follows `=` before a comma or the end, `\s*` gives back one
      character so that `[^,]+` can match it. */
  function ArgMatchAt(a: string, p: nat): (r: Option<(string, string, nat)>)
    requires p <= |a|
    ensures r.Some? ==> p < r.value.2 <= |a|
    ensures r.Some? ==> r.value.0 != [] && forall i :: 0 <= i < |r.value.0| ==> IsWordChar(r.value.0[i])
    ensures r.Some? ==> r.value.1 != [] && ',' !in r.value.1
  {
    var w := WordRun(a[p..]);
    if w == 0 then None
    else
      var e := p + w + ReSpaceRun(a[p + w..]);
      if e == |a| || a[e] != '=' then None
      else
        var name := a[p..][..w];
        var v := e + 1 + ReSpaceRun(a[e + 1..]);
        var rest := a[v..];
        var n := NonCommaRun(rest);
        if n > 0 then Some((name, rest[..n], v + n))
        else if v > e + 1 then
          assert IsReSpace(a[e + 1..][v - 1 - (e + 1)]);
          Some((name, [a[v - 1]], v))
        else None
  }

  /** All matches of the argument pattern from `p` on (`FindAllStringSubmatch`):
      the leftmost match, then the matches after its end. */
  function ArgPairs(a: string, p: nat): (pairs: seq<(string, string)>)
    requires p <= |a|
    ensures forall i :: 0 <= i < |pairs| ==> pairs[i].0 != [] && pairs[i].1 != [] && ',' !in pairs[i].1
    decreases |a| - p
  {
    if p == |a| then []
    else
      match ArgMatchAt(a, p)
      case Some((name, value, end)) => [(name, value)] + ArgPairs(a, end)
      case None => ArgPairs(a, p + 1)
  }

  /** A raw argument value: trimmed, then JSON-decoded when possible, else the
      text without surrounding quote characters. */
  function ArgValue(lib: Stdlib, raw: string): Json
  {
    var v := TrimSpace(raw);
    match lib.decode(v)
    case Some(j) => j
    case None => JStr(TrimCutset(v, "\"'"))
  }

  /** The argument map the matches build, later assignments overwriting
      earlier ones. */
  function ArgMap(lib: Stdlib, pairs: seq<(string, string)>): map<string, Json>
    decreases |pairs|
  {
    if pairs == [] then map[]
    else ArgMap(lib, pairs[..|pairs| - 1])[pairs[|pairs| - 1].0 := ArgValue(lib, pairs[|pairs| - 1].1)]
  }

  /** The map has one key per matched name. */
  lemma {:induction false} ArgMapKeys(lib: Stdlib, pairs: seq<(string, string)>)
    ensures forall i :: 0 <= i < |pairs| ==> pairs[i].0 in ArgMap(lib, pairs)
    ensures forall k :: k in ArgMap(lib, pairs) ==> exists i :: 0 <= i < |pairs| && pairs[i].0 == k
    decreases |pairs|
  {
    if pairs != [] {
      var init := pairs[..|pairs| - 1];
      ArgMapKeys(lib, init);
      forall k | k in ArgMap(lib, pairs)
        ensures exists i :: 0 <= i < |pairs| && pairs[i].0 == k
      {
        if k != pairs[|pairs| - 1].0 {
          assert k in ArgMap(lib, init);
          var i :| 0 <= i < |init| && init[i].0 == k;
          assert pairs[i] == init[i];
        }
      }
      forall i | 0 <= i < |pairs| - 1
        ensures pairs[i].0 in ArgMap(lib, pairs)
      {
        assert pairs[i] == init[i];
      }
    }
  }

  /** A name holds the value of its last match. */
  lemma {:induction false} ArgMapLastWins(lib: Stdlib, pairs: seq<(string, string)>, i: nat)
    requires i < |pairs|
    requires forall j :: i < j < |pairs| ==> pairs[j].0 != pairs[i].0
    ensures pairs[i].0 in ArgMap(lib, pairs) && ArgMap(lib, pairs)[pairs[i].0] == ArgValue(lib, pairs[i].1)
    decreases |pairs|
  {
    if i < |pairs| - 1 {
      var init := pairs[..|pairs| - 1];
      assert init[i] == pairs[i];
      forall j | i < j < |init| ensures init[j].0 != init[i].0 {
        assert init[j] == pairs[j];
      }
      ArgMapLastWins(lib, init, i);
    }
  }

  /** The argument text and name of `^(\w+)\((.*)\)$` on a trimmed string:
      a word, `(`, any characters but a newline, and `)` at the very end. */
  predicate CallShape(t: string)
  {
    var n := WordRun(t);
    n > 0 && n + 2 <= |t| && t[n] == '(' && t[|t| - 1] == ')' && '\n' !in t[n + 1..|t| - 1]
  }

  /** `parsePythonFunctionCall`. */
  function PythonCall(lib: Stdlib, s: string): (r: Result<FunctionCall>)
    ensures r.Ok? <==> CallShape(TrimSpace(s))
    ensures r.Ok? ==> r.value.name != [] && HasPrefix(TrimSpace(s), r.value.name + "(")
    ensures r.Ok? ==> forall i :: 0 <= i < |r.value.name| ==> IsWordChar(r.value.name[i])
    ensures r.Err? ==> r.error == "无法解析 Python 函数调用: " + s
  {
    var t := TrimSpace(s);
    if !CallShape(t) then Err("无法解析 Python 函数调用: " + s)
    else
      var n := WordRun(t);
      var args := t[n + 1..|t| - 1];
      assert t[..n + 1] == t[..n] + "(";
      Ok(FunctionCall(t[..n], if args == "" then map[] else ArgMap(lib, ArgPairs(args, 0))))
  }

  /** Empty parentheses give a call without arguments. */
  lemma EmptyParenthesesNoArguments(lib: Stdlib, name: string)
    requires name != [] && forall i :: 0 <= i < |name| ==> IsWordChar(name[i])
    ensures PythonCall(lib, name + "()") == Ok(FunctionCall(name, map[]))
  {
    var t := name + "()";
    assert !IsSpace(t[0]) && !IsSpace(t[|t| - 1]);
    TrimSpaceUnchanged(t);
    WordRunOf(name, "()");
    assert t[..|name|] == name;
  }

  /** A run of word characters followed by a non-word character is what `\w+`
      consumes. */
  lemma {:induction false} WordRunOf(w: string, rest: string)
    requires forall i :: 0 <= i < |w| ==> IsWordChar(w[i])
    requires rest != [] && !IsWordChar(rest[0])
    ensures WordRun(w + rest) == |w|
    decreases |w|
  {
    if w != [] {
      assert (w + rest)[1..] == w[1..] + rest;
      WordRunOf(w[1..], rest);
    }
  }

  // ---------------------------------------------------------------------------
  // parseGroundTruth and parseGroundTruthItem

  /** One acceptable value of a `{func: {param: [acceptable...]}}` parameter:
      the first element of a non-empty list, otherwise the value itself. */
  function FirstAcceptable(v: Json): Json
  {
    if v.JArr? && |v.items| > 0 then v.items[0] else v
  }

  /** The arguments of a `{func: params}` entry: one per key of a map-valued
      `params`, none otherwise. */
  function SpecArgs(params: Json): (args: map<string, Json>)
    ensures params.JObj? ==> args.Keys == params.fields.Keys
    ensures !params.JObj? ==> args == map[]
  {
    if params.JObj? then map k | k in params.fields :: FirstAcceptable(params.fields[k]) else map[]
  }

  /** One call per key of a `{func: params}` map, in the given key order. */
  function SpecCalls(m: map<string, Json>, keys: seq<string>): (calls: seq<FunctionCall>)
    decreases |keys|
  {
    if keys == [] then []
    else (if keys[0] in m then [FunctionCall(keys[0], SpecArgs(m[keys[0]]))] else []) + SpecCalls(m, keys[1..])
  }

  /** `parseGroundTruthItem`: never an error; the calls an item describes. */
  function ItemCalls(lib: Stdlib, order: KeyOrder, item: Json): seq<FunctionCall>
    decreases item, 1, 0
  {
    match item
    case JArr(_) => ElementCalls(lib, order, item, 0)
    case JObj(m) =>
      (match StringAt(m, "name")
       case Some(name) => [FunctionCall(name, match ObjectAt(m, "arguments") case Some(args) => args case None => map[])]
       case None => SpecCalls(m, order(m)))
    case JStr(s) => (match PythonCall(lib, s) case Ok(call) => [call] case Err(_) => [])
    case _ => []
  }

  /** The calls of the elements of a list from position `i` on, concatenated. */
  function ElementCalls(lib: Stdlib, order: KeyOrder, list: Json, i: nat): seq<FunctionCall>
    requires list.JArr? && i <= |list.items|
    decreases list, 0, |list.items| - i
  {
    if i == |list.items| then [] else ItemCalls(lib, order, list.items[i]) + ElementCalls(lib, order, list, i + 1)
  }

  const GroundTruthDecodeError := "解析字符串 ground truth 失败: "
  const GroundTruthFormatError := "不支持的 ground truth 格式: "

  /** `%T` of a decoded value that is neither a list, a map nor a string. */
  function GoTypeName(v: Json): string
  {
    match v
    case JNull => "<nil>"
    case JBool(_) => "bool"
    case JNum(_) => "float64"
    case JStr(_) => "string"
    case JArr(_) => "[]interface {}"
    case JObj(_) => "map[string]interface {}"
  }

  /** How deep the re-decoding of nested JSON strings can go. */
  function StringDepth(v: Json): nat
  {
    if v.JStr? then |v.s| + 1 else 0
  }

  /** `parseGroundTruth`: a list or a map is parsed as an item; a string is
      decoded and parsed again; anything else is an error. */
  function GroundTruthCalls(lib: Stdlib, order: KeyOrder, gt: Json): Result<seq<FunctionCall>>
    requires DecodeShrinksStrings(lib.decode)
    decreases StringDepth(gt)
  {
    match gt
    case JArr(_) => Ok(ItemCalls(lib, order, gt))
    case JObj(_) => Ok(ItemCalls(lib, order, gt))
    case JStr(s) =>
      (match lib.decode(s)
       case None => Err(GroundTruthDecodeError)
       case Some(v) => GroundTruthCalls(lib, order, v))
    case _ => Err(GroundTruthFormatError + GoTypeName(gt))
  }

  /** `parseGroundTruthItem`, appending the calls of each element, each key or
      the Python-style call. */
  method ParseGroundTruthItem(lib: Stdlib, order: KeyOrder, item: Json) returns (calls: seq<FunctionCall>)
    ensures calls == ItemCalls(lib, order, item)
    decreases item, 1
  {
    calls := [];
    match item
    case JArr(_) =>
      calls := ParseElements(lib, order, item);
    case JObj(m) =>
      var name := StringAt(m, "name");
      if name.Some? {
        var args := ObjectAt(m, "arguments");
        calls := [FunctionCall(name.value, if args.Some? then args.value else map[])];
      } else {
        calls := ParseSpecCalls(m, order(m));
      }
    case JStr(s) =>
      var call := PythonCall(lib, s);
      if call.Ok? {
        calls := [call.value];
      }
    case _ =>
  }

  /** The loop over a list's elements, appending each element's calls. */
  method ParseElements(lib: Stdlib, order: KeyOrder, list: Json) returns (calls: seq<FunctionCall>)
    requires list.JArr?
    ensures calls == ElementCalls(lib, order, list, 0)
    decreases list, 0
  {
    calls := [];
    var items := list.items;
    var i := 0;
    while i < |items|
      invariant 0 <= i <= |items|
      invariant calls + ElementCalls(lib, order, list, i) == ElementCalls(lib, order, list, 0)
    {
      var sub := ParseGroundTruthItem(lib, order, items[i]);
      var rest := ElementCalls(lib, order, list, i + 1);
      assert ElementCalls(lib, order, list, i) == sub + rest;
      assert (calls + sub) + rest == calls + (sub + rest);
      calls := calls + sub;
      i := i + 1;
    }
  }

  /** The loop over the keys of a `{func: params}` map, one call per key. */
  method ParseSpecCalls(m: map<string, Json>, keys: seq<string>) returns (calls: seq<FunctionCall>)
    ensures calls == SpecCalls(m, keys)
  {
    calls := [];
    var i := 0;
    while i < |keys|
      invariant 0 <= i <= |keys|
      invariant calls + SpecCalls(m, keys[i..]) == SpecCalls(m, keys)
    {
      assert keys[i..][1..] == keys[i + 1..];
      if keys[i] in m {
        calls := calls + [FunctionCall(keys[i], SpecArgs(m[keys[i]]))];
      }
      i := i + 1;
    }
  }

  /** `parseGroundTruth`. */
  method ParseGroundTruth(lib: Stdlib, order: KeyOrder, gt: Json) returns (r: Result<seq<FunctionCall>>)
    requires DecodeShrinksStrings(lib.decode)
    ensures r == GroundTruthCalls(lib, order, gt)
    decreases StringDepth(gt)
  {
    match gt
    case JArr(_) =>
      var calls := ParseGroundTruthItem(lib, order, gt);
      r := Ok(calls);
    case JObj(_) =>
      var calls := ParseGroundTruthItem(lib, order, gt);
      r := Ok(calls);
    case JStr(s) =>
      var parsed := lib.decode(s);
      if parsed.None? {
        return Err(GroundTruthDecodeError);
      }
      r := ParseGroundTruth(lib, order, parsed.value);
    case _ =>
      r := Err(GroundTruthFormatError + GoTypeName(gt));
  }

  // ---------------------------------------------------------------------------
  // Properties of ground-truth parsing

  lemma {:induction false} SpecCallsConcat(m: map<string, Json>, a: seq<string>, b: seq<string>)
    ensures SpecCalls(m, a + b) == SpecCalls(m, a) + SpecCalls(m, b)
    decreases |a|
  {
    if a == [] {
      assert a + b == b;
    } else {
      assert (a + b)[1..] == a[1..] + b;
      SpecCallsConcat(m, a[1..], b);
    }
  }

  /** Visiting the keys of a `{func: params}` map gives one call per key, in
      the visiting order, named by the key. */
  lemma {:induction false} SpecCallsOnePerKey(m: map<string, Json>, keys: seq<string>)
    requires forall k :: k in keys ==> k in m
    ensures |SpecCalls(m, keys)| == |keys|
    ensures forall i :: 0 <= i < |keys| ==> SpecCalls(m, keys)[i] == FunctionCall(keys[i], SpecArgs(m[keys[i]]))
    decreases |keys|
  {
    if keys != [] {
      SpecCallsOnePerKey(m, keys[1..]);
      forall i | 1 <= i < |keys|
        ensures SpecCalls(m, keys)[i] == FunctionCall(keys[i], SpecArgs(m[keys[i]]))
      {
        assert keys[1..][i - 1] == keys[i];
      }
    }
  }

  /** The calls of the map form depend on the key order only through the
      multiset of keys visited. */
  lemma {:induction false} SpecCallsPermutation(m: map<string, Json>, xs: seq<string>, ys: seq<string>)
    requires multiset(xs) == multiset(ys)
    ensures multiset(SpecCalls(m, xs)) == multiset(SpecCalls(m, ys))
    decreases |xs|
  {
    if xs == [] {
      assert ys == [];
    } else {
      var x := xs[0];
      assert x in multiset(ys);
      var j :| 0 <= j < |ys| && ys[j] == x;
      var rest := ys[..j] + ys[j + 1..];
      assert ys == ys[..j] + [x] + ys[j + 1..];
      assert xs == [x] + xs[1..];
      assert multiset(rest) == multiset(ys) - multiset([x]);
      assert multiset(xs[1..]) == multiset(xs) - multiset([x]);
      SpecCallsPermutation(m, xs[1..], rest);
      SpecCallsConcat(m, [x], xs[1..]);
      SpecCallsMovedFront(m, ys, j);
    }
  }

  /** Taking one key out of the visit order moves its call, and nothing else. */
  lemma SpecCallsMovedFront(m: map<string, Json>, ys: seq<string>, j: nat)
    requires j < |ys|
    ensures multiset(SpecCalls(m, ys))
         == multiset(SpecCalls(m, [ys[j]])) + multiset(SpecCalls(m, ys[..j] + ys[j + 1..]))
  {
    assert ys == ys[..j] + [ys[j]] + ys[j + 1..];
    SpecCallsConcat(m, ys[..j] + [ys[j]], ys[j + 1..]);
    SpecCallsConcat(m, ys[..j], [ys[j]]);
    SpecCallsConcat(m, ys[..j], ys[j + 1..]);
  }

  /** Whatever order Go's map iteration takes, the map form yields the same
      calls up to order, one per key. */
  lemma MapFormOrderIrrelevant(m: map<string, Json>, o1: KeyOrder, o2: KeyOrder)
    requires EnumeratesKeys(o1) && EnumeratesKeys(o2)
    ensures multiset(SpecCalls(m, o1(m))) == multiset(SpecCalls(m, o2(m)))
    ensures |SpecCalls(m, o1(m))| == |m|
  {
    assert multiset(o1(m)) == multiset(m.Keys) == multiset(o2(m));
    SpecCallsPermutation(m, o1(m), o2(m));
    forall k | k in o1(m) ensures k in m {
      assert k in multiset(o1(m));
    }
    SpecCallsOnePerKey(m, o1(m));
    assert |multiset(o1(m))| == |o1(m)|;
    assert |multiset(m.Keys)| == |m.Keys|;
  }

  /** The parse of a whole ground truth, like that of each item, does not
      depend on the key order beyond the order of the calls. */
  lemma {:induction false} ItemCallsOrderIrrelevant(lib: Stdlib, o1: KeyOrder, o2: KeyOrder, item: Json)
    requires EnumeratesKeys(o1) && EnumeratesKeys(o2)
    ensures multiset(ItemCalls(lib, o1, item)) == multiset(ItemCalls(lib, o2, item))
    decreases item, 1, 0
  {
    match item
    case JArr(_) => ElementCallsOrderIrrelevant(lib, o1, o2, item, 0);
    case JObj(m) =>
      if StringAt(m, "name").None? {
        MapFormOrderIrrelevant(m, o1, o2);
      }
    case _ =>
  }

  lemma {:induction false} ElementCallsOrderIrrelevant(lib: Stdlib, o1: KeyOrder, o2: KeyOrder, list: Json, i: nat)
    requires EnumeratesKeys(o1) && EnumeratesKeys(o2)
    requires list.JArr? && i <= |list.items|
    ensures multiset(ElementCalls(lib, o1, list, i)) == multiset(ElementCalls(lib, o2, list, i))
    decreases list, 0, |list.items| - i
  {
    if i < |list.items| {
      ItemCallsOrderIrrelevant(lib, o1, o2, list.items[i]);
      ElementCallsOrderIrrelevant(lib, o1, o2, list, i + 1);
    }
  }

  lemma GroundTruthOrderIrrelevant(lib: Stdlib, o1: KeyOrder, o2: KeyOrder, gt: Json)
    requires DecodeShrinksStrings(lib.decode)
    requires EnumeratesKeys(o1) && EnumeratesKeys(o2)
    ensures GroundTruthCalls(lib, o1, gt).Ok? <==> GroundTruthCalls(lib, o2, gt).Ok?
    ensures GroundTruthCalls(lib, o1, gt).Ok? ==>
            multiset(GroundTruthCalls(lib, o1, gt).value) == multiset(GroundTruthCalls(lib, o2, gt).value)
    decreases StringDepth(gt)
  {
    match gt
    case JStr(s) =>
      if lib.decode(s).Some? {
        GroundTruthOrderIrrelevant(lib, o1, o2, lib.decode(s).value);
      }
    case JArr(_) => ItemCallsOrderIrrelevant(lib, o1, o2, gt);
    case JObj(_) => ItemCallsOrderIrrelevant(lib, o1, o2, gt);
    case _ =>
  }

  /** The concatenation of a list of call lists. */
  function Flatten(parts: seq<seq<FunctionCall>>): (calls: seq<FunctionCall>)
    decreases |parts|
  {
    if parts == [] then [] else parts[0] + Flatten(parts[1..])
  }

  /** A list is the concatenation of its elements' parses, in order. */
  lemma ListIsConcatenation(lib: Stdlib, order: KeyOrder, items: seq<Json>)
    ensures ItemCalls(lib, order, JArr(items)) ==
            Flatten(seq(|items|, k requires 0 <= k < |items| => ItemCalls(lib, order, items[k])))
  {
    var parts := seq(|items|, k requires 0 <= k < |items| => ItemCalls(lib, order, items[k]));
    ElementsFlatten(lib, order, JArr(items), parts, 0);
    assert parts[0..] == parts;
  }

  lemma {:induction false} ElementsFlatten(lib: Stdlib, order: KeyOrder, list: Json, parts: seq<seq<FunctionCall>>, i: nat)
    requires list.JArr? && i <= |list.items| == |parts|
    requires forall k :: 0 <= k < |parts| ==> parts[k] == ItemCalls(lib, order, list.items[k])
    ensures ElementCalls(lib, order, list, i) == Flatten(parts[i..])
    decreases |parts| - i
  {
    if i < |parts| {
      ElementsFlatten(lib, order, list, parts, i + 1);
      assert parts[i..][1..] == parts[i + 1..];
    }
  }

  /** The shapes of an item: a map with a string `name` gives exactly that
      call, its arguments only from a map-valued `arguments`; any other map
      gives one call per key (with an enumerating key order); a string that is
      not a Python-style call is dropped; other scalars give nothing. */
  lemma ItemShapes(lib: Stdlib, order: KeyOrder, item: Json)
    ensures item.JObj? && StringAt(item.fields, "name").Some? ==>
            ItemCalls(lib, order, item) ==
            [FunctionCall(item.fields["name"].s,
                          if "arguments" in item.fields && item.fields["arguments"].JObj? then item.fields["arguments"].fields else map[])]
    ensures item.JObj? && StringAt(item.fields, "name").None? && EnumeratesKeys(order) ==>
            |ItemCalls(lib, order, item)| == |item.fields| &&
            forall c :: c in ItemCalls(lib, order, item) ==> c.name in item.fields && c.arguments == SpecArgs(item.fields[c.name])
    ensures item.JStr? && !CallShape(TrimSpace(item.s)) ==> ItemCalls(lib, order, item) == []
    ensures item.JNull? || item.JBool? || item.JNum? ==> ItemCalls(lib, order, item) == []
  {
    if item.JObj? && StringAt(item.fields, "name").None? && EnumeratesKeys(order) {
      var m := item.fields;
      MapFormOrderIrrelevant(m, order, order);
      forall k | k in order(m) ensures k in m {
        assert k in multiset(order(m));
      }
      SpecCallsOnePerKey(m, order(m));
    }
  }
}
