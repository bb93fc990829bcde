/** The sandbox manager: validate and print a request, let Terraform deploy it, and join the
    request with what Terraform reports. Terraform is modelled by what its configuration
    promises: the deployed ids become exactly the ids named in the variables. */
module Sandboxes {
  import opened Wrappers
  import opened Collections
  import opened Decimal
  import opened BuildIPs
  import opened TfVars
  import opened Instances

  /** A failed apply may leave any set of sandboxes behind. */
  datatype ApplyOutcome = Applied | ApplyFailed(left: set<Int64>)

  /** How the outside world behaves during one call. What Terraform reports may depend on what
      is deployed when it is asked. */
  datatype World = World(initOk: bool, apply: ApplyOutcome, output: set<Int64> -> Option<Output>)

  class Terraform {
    var deployed: set<Int64>

    method Apply(vars: seq<string>, outcome: ApplyOutcome) returns (ok: bool)
      modifies this
      ensures ok <==> outcome.Applied? && ParseVars(vars).Some?
      ensures deployed == match ParseVars(vars)
                          case None => old(deployed)
                          case Some(named) => AfterApply(RequestedIds(named), outcome)
    {
      var named := ParseVars(vars);
      if named.None? {
        return false;
      }
      match outcome
      case Applied =>
        deployed := set t, id | t in named.value && id in named.value[t] :: id;
        return true;
      case ApplyFailed(left) =>
        deployed := left;
        return false;
    }
  }

  ghost function AfterApply(ids: set<Int64>, outcome: ApplyOutcome): set<Int64> {
    match outcome
    case Applied => ids
    case ApplyFailed(left) => left
  }

  /** Each of the six outputs answers every id, under its canonical text, with one parseable
      IP, and answers nothing else. */
  ghost predicate Faithful(output: Output, ids: set<Int64>, parseIP: IPParser) {
    forall v: OutputVar :: v in output && FaithfulJson(output[v], ids, parseIP)
  }

  ghost predicate FaithfulJson(json: Json, ids: set<Int64>, parseIP: IPParser) {
    && json.IPLists?
    && json.lists.Keys == (set id | id in ids :: FormatInt(id))
    && forall key :: key in json.lists ==> |json.lists[key]| == 1 && parseIP(json.lists[key][0]).Some?
  }

  /** The IP that a faithful Terraform reports for `id` under output `v`. */
  ghost function Reported(output: Output, v: OutputVar, id: Int64, parseIP: IPParser): IP {
    if && v in output && output[v].IPLists? && FormatInt(id) in output[v].lists
       && |output[v].lists[FormatInt(id)]| == 1
    then OrNil(parseIP(output[v].lists[FormatInt(id)][0]))
    else []
  }

  lemma FaithfulEntry(json: Json, ids: set<Int64>, parseIP: IPParser, key: string)
    requires FaithfulJson(json, ids, parseIP) && key in json.lists
    requires forall i :: i in ids ==> i >= 1
    ensures GoodEntry(key, json.lists[key], parseIP)
    ensures ParseInt(key).value in ids && key == FormatInt(ParseInt(key).value)
  {
    var i :| i in ids && key == FormatInt(i);
    ParseFormatInt(i);
  }

  lemma FaithfulSole(json: Json, ids: set<Int64>, parseIP: IPParser, id: Int64)
    requires FaithfulJson(json, ids, parseIP) && id in ids
    requires forall i :: i in ids ==> i >= 1
    ensures WellFormed(json.lists, parseIP)
    ensures Sole(json.lists, id, FormatInt(id))
  {
    forall key | key in json.lists
      ensures GoodEntry(key, json.lists[key], parseIP)
      ensures Denotes(key, id) ==> key == FormatInt(id)
    {
      FaithfulEntry(json, ids, parseIP, key);
    }
    ParseFormatInt(id);
    assert FormatInt(id) in json.lists;
  }

  lemma FaithfulAnswer(output: Output, ids: set<Int64>, parseIP: IPParser, v: OutputVar, id: Int64)
    requires v in output && FaithfulJson(output[v], ids, parseIP) && id in ids
    requires forall i :: i in ids ==> i >= 1
    ensures Answer(output, v, id, parseIP) == Some(Reported(output, v, id, parseIP))
  {
    FaithfulSole(output[v], ids, parseIP, id);
  }

  lemma FaithfulAddresses(sbxs: Request, output: Output, parseIP: IPParser)
    requires Accepted(sbxs) && Faithful(output, RequestedIds(sbxs), parseIP)
    ensures Parseable(sbxs, output, parseIP)
    ensures forall id :: id in RequestedIds(sbxs) ==>
              Expected(output, id, parseIP) == Addresses(
                Reported(output, Gen0Control, id, parseIP),
                Reported(output, Sut0Control, id, parseIP),
                Reported(output, Bac0Control, id, parseIP),
                Reported(output, Gen0, id, parseIP),
                Reported(output, Sut0, id, parseIP),
                Reported(output, Bac0, id, parseIP))
  {
    var ids := RequestedIds(sbxs);
    forall t | t in sbxs ensures AcceptedList(t, sbxs[t]) && forall id :: id in sbxs[t] ==> id in ids {
    }
    forall id, v: OutputVar | id in ids
      ensures Answer(output, v, id, parseIP) == Some(Reported(output, v, id, parseIP))
    {
      assert v in output && FaithfulJson(output[v], ids, parseIP);
      FaithfulAnswer(output, ids, parseIP, v, id);
    }
  }

  lemma PrintedMeansRequest(sbxs: Request, vars: seq<string>)
    requires Accepted(sbxs)
    requires exists order :: Enumerates(order, sbxs.Keys) && vars == VarTexts(sbxs, order)
    ensures ParseVars(vars) == Some(sbxs)
  {
    var order :| Enumerates(order, sbxs.Keys) && vars == VarTexts(sbxs, order);
    ParsePrintedRequest(sbxs, order);
  }

  /** When Start succeeds. */
  ghost predicate Starts(sbxs: Request, world: World, parseIP: IPParser) {
    && world.initOk && Accepted(sbxs) && world.apply.Applied?
    && var out := world.output(RequestedIds(sbxs));
       out.Some? && Parseable(sbxs, out.value, parseIP)
  }

  class Manager {
    const tf: Terraform

    constructor (tf: Terraform)
      ensures this.tf == tf
    {
      this.tf := tf;
    }

    /** The result and the deployment are those of the request itself, although the request
        reaches Terraform only as printed text and comes back only as decoded text. */
    method Start(sbxs: Request, world: World, parseIP: IPParser)
      returns (r: Result<InstanceMap>, ghost owned: set<VM>)
      modifies tf
      ensures r.Ok? ==> fresh(r.value) && fresh(owned)
      ensures tf.deployed == After(Call(Some(sbxs), world), old(tf.deployed))
      ensures r.Ok? <==> Starts(sbxs, world, parseIP)
      ensures !world.initOk || !Accepted(sbxs) ==> r.Err? && tf.deployed == old(tf.deployed)
      ensures world.initOk && Accepted(sbxs) && world.apply.ApplyFailed? ==> r.Err? && tf.deployed == world.apply.left
      ensures world.initOk && Accepted(sbxs) && world.apply.Applied? ==> tf.deployed == RequestedIds(sbxs)
      ensures r.Ok? ==> world.output(RequestedIds(sbxs)).Some?
      ensures r.Ok? ==> r.value.entries.Keys == RequestedIds(sbxs) == tf.deployed
      ensures r.Ok? ==>
                ShowAll(r.value.entries, world.output(RequestedIds(sbxs)).value, parseIP, owned)
    {
      owned := {};
      if !world.initOk {
        return Err, owned;
      }
      var vars := SbxsToTfVars(sbxs);
      if vars.Err? {
        return Err, owned;
      }
      PrintedMeansRequest(sbxs, vars.value);
      var applied := tf.Apply(vars.value, world.apply);
      if !applied {
        return Err, owned;
      }
      var out := world.output(tf.deployed);
      if out.None? {
        return Err, owned;
      }
      r, owned := ParseInstances(sbxs, out.value, parseIP);
    }

    method StopAll(world: World) returns (ok: bool)
      modifies tf
      ensures tf.deployed == After(Call(None, world), old(tf.deployed))
      ensures ok <==> world.initOk && world.apply.Applied?
      ensures ok ==> tf.deployed == {}
      ensures !world.initOk ==> tf.deployed == old(tf.deployed)
      ensures world.initOk && world.apply.ApplyFailed? ==> tf.deployed == world.apply.left
    {
      if !world.initOk {
        return false;
      }
      ok := tf.Apply([], world.apply);
    }
  }

  /** End-to-end fidelity: an accepted request meets a working, faithful Terraform. Start then
      succeeds, and each of the six fields shows the IP reported for that id by the output
      that the field belongs to. */
  method StartWithFaithfulTerraform(m: Manager, sbxs: Request, world: World, parseIP: IPParser)
    returns (r: Result<InstanceMap>)
    requires world.initOk && world.apply.Applied? && Accepted(sbxs)
    requires world.output(RequestedIds(sbxs)).Some?
    requires Faithful(world.output(RequestedIds(sbxs)).value, RequestedIds(sbxs), parseIP)
    modifies m.tf
    ensures r.Ok? && r.value.entries.Keys == m.tf.deployed == RequestedIds(sbxs)
    ensures forall id :: id in r.value.entries <==> exists t :: t in sbxs && id in sbxs[t]
    ensures var out := world.output(RequestedIds(sbxs)).value;
            forall id :: id in RequestedIds(sbxs) ==>
              var inst := r.value.entries[id];
              && |inst.loadGenerators| == |inst.suts| == |inst.backends| == 1
              && inst.loadGenerators[0].controlIP == Reported(out, Gen0Control, id, parseIP)
              && inst.suts[0].controlIP == Reported(out, Sut0Control, id, parseIP)
              && inst.backends[0].controlIP == Reported(out, Bac0Control, id, parseIP)
              && inst.loadGenerators[0].ip == Reported(out, Gen0, id, parseIP)
              && inst.suts[0].ip == Reported(out, Sut0, id, parseIP)
              && inst.backends[0].ip == Reported(out, Bac0, id, parseIP)
  {
    FaithfulAddresses(sbxs, world.output(RequestedIds(sbxs)).value, parseIP);
    ghost var owned;
    r, owned := m.Start(sbxs, world, parseIP);
  }

  // ---- Runs of Start and StopAll -----------------------------------------------------------

  /** A call of Start with a request, or of StopAll without one. */
  datatype Call = Call(request: Option<Request>, world: World)

  /** Whether the call gets as far as running apply. */
  ghost predicate ReachesApply(call: Call) {
    call.world.initOk && (call.request.Some? ==> Accepted(call.request.value))
  }

  /** The ids a call asks for: none for StopAll. */
  ghost function Wanted(call: Call): set<Int64> {
    match call.request
    case None => {}
    case Some(sbxs) => RequestedIds(sbxs)
  }

  ghost function After(call: Call, deployed: set<Int64>): set<Int64> {
    if ReachesApply(call) then AfterApply(Wanted(call), call.world.apply) else deployed
  }

  ghost function Run(calls: seq<Call>, deployed: set<Int64>): set<Int64> {
    if calls == [] then deployed
    else After(Last(calls), Run(calls[..|calls| - 1], deployed))
  }

  ghost predicate Deploys(call: Call) {
    ReachesApply(call) && call.world.apply.Applied?
  }

  /** Calls that do not get to apply (Terraform did not start, or the request was rejected)
      change nothing, whatever ran before them. */
  lemma {:induction false} RunOfIdleCalls(calls: seq<Call>, k: nat, deployed: set<Int64>)
    requires k <= |calls| && forall j :: k <= j < |calls| ==> !ReachesApply(calls[j])
    ensures Run(calls, deployed) == Run(calls[..k], deployed)
  {
    if k == |calls| {
      assert calls[..k] == calls;
    } else {
      var front := calls[..|calls| - 1];
      RunOfIdleCalls(front, k, deployed);
      assert front[..k] == calls[..k];
    }
  }

  /** Only the last call that ran apply matters, however long the run. */
  lemma RunIsLastApply(calls: seq<Call>, k: nat, deployed: set<Int64>)
    requires k < |calls| && ReachesApply(calls[k])
    requires forall j :: k < j < |calls| ==> !ReachesApply(calls[j])
    ensures Run(calls, deployed) == AfterApply(Wanted(calls[k]), calls[k].world.apply)
  {
    RunOfIdleCalls(calls, k + 1, deployed);
    assert Last(calls[..k + 1]) == calls[k];
  }

  /** Every failed apply of the run left the deployment as it was. */
  ghost predicate FailuresAreAtomic(calls: seq<Call>, deployed: set<Int64>) {
    forall k :: 0 <= k < |calls| && calls[k].world.apply.ApplyFailed? ==>
      calls[k].world.apply.left == Run(calls[..k], deployed)
  }

  lemma {:induction false} RunOfFailures(calls: seq<Call>, k: nat, deployed: set<Int64>)
    requires FailuresAreAtomic(calls, deployed)
    requires k <= |calls| && forall j :: k <= j < |calls| ==> !Deploys(calls[j])
    ensures Run(calls, deployed) == Run(calls[..k], deployed)
  {
    if k == |calls| {
      assert calls[..k] == calls;
    } else {
      var front := calls[..|calls| - 1];
      assert forall j :: 0 <= j < |front| ==> calls[..j] == front[..j];
      RunOfFailures(front, k, deployed);
      assert front[..k] == calls[..k];
    }
  }

  /** If failed applies change nothing, the deployed ids are those of the last call whose
      apply succeeded, and none if that call was StopAll. */
  lemma RunIsLastSuccess(calls: seq<Call>, k: nat, deployed: set<Int64>)
    requires FailuresAreAtomic(calls, deployed)
    requires k < |calls| && Deploys(calls[k])
    requires forall j :: k < j < |calls| ==> !Deploys(calls[j])
    ensures Run(calls, deployed) == Wanted(calls[k])
  {
    RunOfFailures(calls, k + 1, deployed);
    assert Last(calls[..k + 1]) == calls[k];
  }
}
