/** The validating printer of the sandbox manager: a request becomes Terraform variables. */
module TfVars {
  import opened Wrappers
  import opened Strings
  import opened Collections
  import opened Decimal

  /** Go's `Type` is an int; `TYPE_NAMES` lists the supported values. */
  const TYPE_DEFAULT_SANDBOX_X64: int := 1
  const TYPE_NAMES: map<int, string> := map[TYPE_DEFAULT_SANDBOX_X64 := "default_sandbox_x64_build_ids"]

  type Request = map<int, seq<Int64>>

  function TypeString(t: int): string {
    if t in TYPE_NAMES then TYPE_NAMES[t] else "TypeUnknown"
  }

  /** The requests that the sandbox manager is meant to accept. */
  ghost predicate Accepted(sbxs: Request) {
    sbxs != map[] && forall t :: t in sbxs ==> AcceptedList(t, sbxs[t])
  }

  ghost predicate AcceptedList(t: int, ids: seq<Int64>) {
    && t in TYPE_NAMES
    && ids != []
    && NoDuplicates(ids)
    && forall id :: id in ids ==> id >= 1
  }

  function Texts(ids: seq<Int64>): seq<string> {
    seq(|ids|, i requires 0 <= i < |ids| => FormatInt(ids[i]))
  }

  /** `name=[a,b,...]` */
  function VarText(t: int, ids: seq<Int64>): string {
    TypeString(t) + ['='] + (['['] + Join(Texts(ids), ',') + [']'])
  }

  function VarTexts(sbxs: Request, order: seq<int>): seq<string>
    requires forall t :: t in order ==> t in sbxs
  {
    if order == [] then []
    else
      var t := Last(order);
      assert t in order;
      VarTexts(sbxs, order[..|order| - 1]) + [VarText(t, sbxs[t])]
  }

  /** One turn of the printer's outer loop: check the list of one type and print it. */
  method ListToTfVar(t: int, instances: seq<Int64>) returns (r: Result<string>)
    ensures r.Ok? <==> AcceptedList(t, instances)
    ensures r.Ok? ==> r.value == VarText(t, instances)
  {
    if t !in TYPE_NAMES || |instances| == 0 {
      return Err;
    }
    var seen: map<Int64, bool> := map[];
    var instStrs: seq<string> := [];
    for i := 0 to |instances|
      invariant forall id :: id in seen <==> id in instances[..i]
      invariant forall id :: id in seen ==> seen[id]
      invariant NoDuplicates(instances[..i])
      invariant forall id :: id in instances[..i] ==> id >= 1
      invariant instStrs == Texts(instances[..i])
    {
      var inst := instances[i];
      if inst in seen && seen[inst] {
        return Err;
      }
      seen := seen[inst := true];
      if inst < 1 {
        assert inst in instances;
        return Err;
      }
      assert instances[..i + 1] == instances[..i] + [inst];
      instStrs := instStrs + [FormatInt(inst)];
    }
    assert instances[..|instances|] == instances;
    return Ok(TypeString(t) + ['='] + (['['] + Join(instStrs, ',') + [']']));
  }

  /** A request is accepted exactly if it asks for the default type only, and for at least one of
      it, and all its ids are different and positive. */
  lemma AcceptedExactly(sbxs: Request)
    ensures Accepted(sbxs) <==>
              && sbxs.Keys == {TYPE_DEFAULT_SANDBOX_X64}
              && var ids := sbxs[TYPE_DEFAULT_SANDBOX_X64];
                 && |ids| >= 1 && (forall i :: 0 <= i < |ids| ==> ids[i] >= 1)
                 && forall i, j :: 0 <= i < j < |ids| ==> ids[i] != ids[j]
  {
    if Accepted(sbxs) {
      assert sbxs.Keys == {} ==> sbxs == map[];
      forall t | t in sbxs.Keys ensures t == TYPE_DEFAULT_SANDBOX_X64 {
        assert AcceptedList(t, sbxs[t]);
      }
      assert sbxs.Keys == {} || sbxs.Keys == {TYPE_DEFAULT_SANDBOX_X64};
      var ids := sbxs[TYPE_DEFAULT_SANDBOX_X64];
      assert forall i :: 0 <= i < |ids| ==> ids[i] in ids;
    }
  }

  /** The ids in decimal, with a comma between any two. */
  ghost function CommaSeparated(ids: seq<Int64>): string
    requires ids != []
  {
    if |ids| == 1 then FormatInt(ids[0])
    else CommaSeparated(ids[..|ids| - 1]) + "," + FormatInt(Last(ids))
  }

  lemma {:induction false} JoinAppend(items: seq<string>, item: string, sep: char)
    requires items != []
    ensures Join(items + [item], sep) == Join(items, sep) + [sep] + item
  {
    if |items| == 1 {
      assert (items + [item])[1..] == [item];
    } else {
      assert (items + [item])[1..] == items[1..] + [item];
      JoinAppend(items[1..], item, sep);
      var head, tail := items[0] + [sep], Join(items[1..], sep);
      AppendAssociative(head, tail, [sep]);
      AppendAssociative(head, tail + [sep], item);
    }
  }

  lemma {:induction false} JoinIsCommaSeparated(ids: seq<Int64>)
    requires ids != []
    ensures Join(Texts(ids), ',') == CommaSeparated(ids)
  {
    hide FormatInt;
    if |ids| > 1 {
      var front := ids[..|ids| - 1];
      JoinIsCommaSeparated(front);
      JoinAppend(Texts(front), FormatInt(Last(ids)), ',');
      assert Texts(ids) == Texts(front) + [FormatInt(Last(ids))];
    }
  }

  /** There is only one supported type, so an accepted request prints as one variable. */
  lemma OneVariable(sbxs: Request, order: seq<int>)
    requires Accepted(sbxs) && Enumerates(order, sbxs.Keys)
    ensures TYPE_DEFAULT_SANDBOX_X64 in sbxs && sbxs[TYPE_DEFAULT_SANDBOX_X64] != []
    ensures VarTexts(sbxs, order)
         == ["default_sandbox_x64_build_ids=[" + CommaSeparated(sbxs[TYPE_DEFAULT_SANDBOX_X64]) + "]"]
  {
    var t := TYPE_DEFAULT_SANDBOX_X64;
    AcceptedExactly(sbxs);
    EnumerationLength(order, {t});
    assert order == [t];
    JoinIsCommaSeparated(sbxs[t]);
    PrintedVar(sbxs[t]);
    assert order[..0] == [];
  }

  lemma PrintedVar(ids: seq<Int64>)
    ensures VarText(TYPE_DEFAULT_SANDBOX_X64, ids)
         == "default_sandbox_x64_build_ids=[" + Join(Texts(ids), ',') + "]"
  {
    var name, list := "default_sandbox_x64_build_ids", Join(Texts(ids), ',');
    AppendAssociative(name + ['='], ['['], list);
    AppendAssociative(name + ['='] + ['['], list, [']']);
    assert name + ['='] + ['['] == "default_sandbox_x64_build_ids=[";
  }

  /** The Go map is iterated in an arbitrary order: any pending key may come next. */
  method SbxsToTfVars(sbxs: Request) returns (r: Result<seq<string>>)
    ensures r.Ok? <==> Accepted(sbxs)
    ensures r.Ok? ==> exists order :: Enumerates(order, sbxs.Keys) && r.value == VarTexts(sbxs, order)
    ensures r.Ok? ==>
              && TYPE_DEFAULT_SANDBOX_X64 in sbxs && sbxs[TYPE_DEFAULT_SANDBOX_X64] != []
              && r.value == ["default_sandbox_x64_build_ids=["
                             + CommaSeparated(sbxs[TYPE_DEFAULT_SANDBOX_X64]) + "]"]
  {
    if |sbxs| == 0 {
      return Err;
    }
    var vars: seq<string> := [];
    var pending := sbxs.Keys;
    ghost var order: seq<int> := [];
    while pending != {}
      invariant pending <= sbxs.Keys
      invariant Enumerates(order, sbxs.Keys - pending)
      invariant forall t :: t in order ==> AcceptedList(t, sbxs[t])
      invariant vars == VarTexts(sbxs, order)
      decreases pending
    {
      var t := AnyOf(pending);
      var text := ListToTfVar(t, sbxs[t]);
      if text.Err? {
        return Err;
      }
      vars := vars + [text.value];
      VarTextsStep(sbxs, order, t);
      pending := pending - {t};
      order := order + [t];
    }
    OneVariable(sbxs, order);
    return Ok(vars);
  }

  // ---- Reading the variables back, as Terraform does -------------------------------------

  function ParseAll(texts: seq<string>): Option<seq<Int64>> {
    if texts == [] then Some([])
    else match (ParseInt(texts[0]), ParseAll(texts[1..]))
      case (Some(id), Some(rest)) => Some([id] + rest)
      case _ => None
  }

  function ParseList(body: string): Option<seq<Int64>> {
    if |body| < 2 || body[0] != '[' || Last(body) != ']' then None
    else ParseAll(Split(body[1..|body| - 1], ','))
  }

  function ParseVar(text: string): Option<(int, seq<Int64>)> {
    if '=' !in text then None
    else
      var i := IndexOf(text, '=');
      if text[..i] != TypeString(TYPE_DEFAULT_SANDBOX_X64) then None
      else match ParseList(text[i + 1..])
        case None => None
        case Some(ids) => Some((TYPE_DEFAULT_SANDBOX_X64, ids))
  }

  /** A later assignment to the same variable wins. */
  function ParseVars(texts: seq<string>): Option<Request> {
    if texts == [] then Some(map[])
    else match (ParseVars(texts[..|texts| - 1]), ParseVar(Last(texts)))
      case (Some(request), Some(entry)) => Some(request[entry.0 := entry.1])
      case _ => None
  }

  lemma ParseAllStep(text: string, id: Int64, texts: seq<string>, ids: seq<Int64>)
    requires ParseInt(text) == Some(id) && ParseAll(texts) == Some(ids)
    ensures ParseAll([text] + texts) == Some([id] + ids)
  {
    assert ([text] + texts)[1..] == texts;
  }

  lemma {:induction false} ParseAllTexts(ids: seq<Int64>)
    ensures ParseAll(Texts(ids)) == Some(ids)
  {
    if ids != [] {
      ParseFormatInt(ids[0]);
      ParseAllTexts(ids[1..]);
      ParseAllStep(FormatInt(ids[0]), ids[0], Texts(ids[1..]), ids[1..]);
      assert Texts(ids) == [FormatInt(ids[0])] + Texts(ids[1..]);
      assert ids == [ids[0]] + ids[1..];
    }
  }

  lemma ParsePrintedList(ids: seq<Int64>)
    requires ids != []
    ensures ParseList(['['] + Join(Texts(ids), ',') + [']']) == Some(ids)
  {
    var texts := Texts(ids);
    forall item | item in texts ensures ',' !in item {
      var i :| 0 <= i < |texts| && texts[i] == item;
      DigitsOnly(ids[i], ',');
    }
    SplitJoin(texts, ',');
    ParseAllTexts(ids);
    var list := Join(texts, ',');
    var body := ['['] + list + [']'];
    assert body[1..|body| - 1] == list;
  }

  lemma CutAtFirst(a: string, c: char, b: string)
    requires c !in a
    ensures var s := a + [c] + b; c in s && s[..IndexOf(s, c)] == a && s[IndexOf(s, c) + 1..] == b
  {
    var s := a + [c] + b;
    assert s[|a|] == c;
    var i := IndexOf(s, c);
    SplitUnique(s[..i], a, c, s[i + 1..], b) by {
      assert s == s[..i] + [c] + s[i + 1..];
    }
  }

  /** A printed list is read back as the same type and the same ids in the same order. */
  lemma ParsePrintedVar(t: int, ids: seq<Int64>)
    requires AcceptedList(t, ids)
    ensures ParseVar(VarText(t, ids)) == Some((t, ids))
  {
    assert t == TYPE_DEFAULT_SANDBOX_X64;
    assert '=' !in TypeString(t);
    var body := ['['] + Join(Texts(ids), ',') + [']'];
    CutAtFirst(TypeString(t), '=', body);
    ParsePrintedList(ids);
  }

  /** Distinct accepted lists print differently. */
  lemma PrintedVarsDiffer(t: int, ids: seq<Int64>, t': int, ids': seq<Int64>)
    requires AcceptedList(t, ids) && AcceptedList(t', ids')
    requires VarText(t, ids) == VarText(t', ids')
    ensures t == t' && ids == ids'
  {
    ParsePrintedVar(t, ids);
    ParsePrintedVar(t', ids');
  }

  lemma ParseVarsStep(texts: seq<string>, request: Request, text: string, t: int, ids: seq<Int64>)
    requires ParseVars(texts) == Some(request) && ParseVar(text) == Some((t, ids))
    ensures ParseVars(texts + [text]) == Some(request[t := ids])
  {
  }

  function Part(sbxs: Request, order: seq<int>): Request
    requires forall t :: t in order ==> t in sbxs
  {
    map t | t in order :: sbxs[t]
  }

  lemma VarTextsStep(sbxs: Request, front: seq<int>, t: int)
    requires t in sbxs && forall u :: u in front ==> u in sbxs
    ensures forall u :: u in front + [t] ==> u in sbxs
    ensures VarTexts(sbxs, front + [t]) == VarTexts(sbxs, front) + [VarText(t, sbxs[t])]
  {
    assert (front + [t])[..|front|] == front;
  }

  lemma PartStep(sbxs: Request, front: seq<int>, t: int)
    requires t in sbxs && forall u :: u in front ==> u in sbxs
    ensures forall u :: u in front + [t] ==> u in sbxs
    ensures Part(sbxs, front + [t]) == Part(sbxs, front)[t := sbxs[t]]
  {
  }

  lemma {:induction false} ParsePrintedPart(sbxs: Request, order: seq<int>)
    requires Accepted(sbxs)
    requires forall t :: t in order ==> t in sbxs
    ensures ParseVars(VarTexts(sbxs, order)) == Some(Part(sbxs, order))
  {
    if order != [] {
      var front, t := order[..|order| - 1], Last(order);
      assert order == front + [t];
      ParsePrintedPart(sbxs, front);
      ParsePrintedVar(t, sbxs[t]);
      ParseVarsStep(VarTexts(sbxs, front), Part(sbxs, front), VarText(t, sbxs[t]), t, sbxs[t]);
      VarTextsStep(sbxs, front, t);
      PartStep(sbxs, front, t);
    }
  }

  /** Whatever order the Go map was iterated in, the printed variables mean the request. */
  lemma ParsePrintedRequest(sbxs: Request, order: seq<int>)
    requires Accepted(sbxs)
    requires Enumerates(order, sbxs.Keys)
    ensures ParseVars(VarTexts(sbxs, order)) == Some(sbxs)
  {
    WholePart(sbxs, order);
    ParsePrintedPart(sbxs, order);
  }

  lemma WholePart(sbxs: Request, order: seq<int>)
    requires Enumerates(order, sbxs.Keys)
    ensures Part(sbxs, order) == sbxs
  {
  }
}
