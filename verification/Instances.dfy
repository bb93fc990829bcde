/** Joining the requested ids with six Terraform outputs. Instances and their VMs are heap
    objects; the parser fills them in through pointers to their fields. */
module Instances {
  import opened Wrappers
  import opened Collections
  import opened Decimal
  import opened BuildIPs
  import TfVars

  /** The six Terraform outputs, by the names of their Go constants
      (defSbxX64Gen0ControlIPs is Gen0Control, and so on). */
  datatype OutputVar = Gen0Control | Sut0Control | Bac0Control | Gen0 | Sut0 | Bac0

  /** Terraform's outputs. Those under other names are never looked at and are left out. */
  type Output = map<OutputVar, Json>

  class VM {
    var ip: IP
    var controlIP: IP

    constructor ()
      ensures ip == [] && controlIP == []
    {
      ip, controlIP := [], [];
    }
  }

  /** The slices of an instance are set when it is created and never reassigned; only the
      fields of the VMs behind them change. */
  class Instance {
    const typ: int
    const loadGenerators: seq<VM>
    const suts: seq<VM>
    const backends: seq<VM>

    /** Three VMs, all distinct and all new. */
    constructor WithSingleVM(typ: int)
      ensures this.typ == typ && SingleVMs()
      ensures fresh(loadGenerators[0]) && fresh(suts[0]) && fresh(backends[0])
    {
      var gen := new VM();
      var sut := new VM();
      var bac := new VM();
      this.typ := typ;
      loadGenerators, suts, backends := [gen], [sut], [bac];
    }

    ghost predicate SingleVMs() {
      && |loadGenerators| == |suts| == |backends| == 1
      && loadGenerators[0] != suts[0] && suts[0] != backends[0] && loadGenerators[0] != backends[0]
    }
  }

  /** Go's `*net.IP`: the address of one field of one VM. */
  datatype FieldPtr = IPOf(vm: VM) | ControlIPOf(vm: VM)

  function Load(p: FieldPtr): IP
    reads p.vm
  {
    match p
    case IPOf(vm) => vm.ip
    case ControlIPOf(vm) => vm.controlIP
  }

  method Store(p: FieldPtr, ip: IP)
    modifies p.vm
    ensures Load(p) == ip
    ensures forall q: FieldPtr :: q.vm == p.vm && q != p ==> Load(q) == old(Load(q))
  {
    match p
    case IPOf(vm) => vm.ip := ip;
    case ControlIPOf(vm) => vm.controlIP := ip;
  }

  // ---- What the outputs say about one id ---------------------------------------------------

  /** Terraform's answer for one id under one output: there is one exactly when the output is
      present and well formed, one key only spells the id, and that key lists one IP. */
  ghost function Answer(output: Output, v: OutputVar, id: Int64, parseIP: IPParser): Option<IP> {
    if && v in output && output[v].IPLists? && WellFormed(output[v].lists, parseIP)
       && (exists key :: Sole(output[v].lists, id, key))
    then
      var key :| Sole(output[v].lists, id, key);
      Some(parseIP(output[v].lists[key][0]).value)
    else None
  }

  ghost predicate Answered(output: Output, id: Int64, parseIP: IPParser) {
    forall v: OutputVar :: Answer(output, v, id, parseIP).Some?
  }

  ghost predicate AllAnswered(output: Output, ids: set<Int64>, parseIP: IPParser) {
    forall id :: id in ids ==> Answered(output, id, parseIP)
  }

  lemma AllAnsweredStep(output: Output, ids: set<Int64>, parseIP: IPParser, id: Int64)
    requires AllAnswered(output, ids, parseIP)
    ensures AllAnswered(output, ids + {id}, parseIP) <==> Answered(output, id, parseIP)
  {
  }

  /** The six addresses of one sandbox, by the output that reports them. */
  datatype Addresses = Addresses(
    gen0Control: IP, sut0Control: IP, bac0Control: IP, gen0: IP, sut0: IP, bac0: IP)

  function OrNil(ip: Option<IP>): IP {
    match ip
    case Some(bytes) => bytes
    case None => []
  }

  /** Terraform's six answers for one id. */
  ghost function Expected(output: Output, id: Int64, parseIP: IPParser): Addresses {
    Addresses(
      OrNil(Answer(output, Gen0Control, id, parseIP)),
      OrNil(Answer(output, Sut0Control, id, parseIP)),
      OrNil(Answer(output, Bac0Control, id, parseIP)),
      OrNil(Answer(output, Gen0, id, parseIP)),
      OrNil(Answer(output, Sut0, id, parseIP)),
      OrNil(Answer(output, Bac0, id, parseIP)))
  }

  /** A default sandbox whose three VMs carry these addresses, each in its own field. */
  ghost predicate Shows(inst: Instance, a: Addresses)
    requires inst.SingleVMs()
    reads inst.loadGenerators[0], inst.suts[0], inst.backends[0]
  {
    && inst.typ == TfVars.TYPE_DEFAULT_SANDBOX_X64
    && inst.loadGenerators[0].controlIP == a.gen0Control
    && inst.suts[0].controlIP == a.sut0Control
    && inst.backends[0].controlIP == a.bac0Control
    && inst.loadGenerators[0].ip == a.gen0
    && inst.suts[0].ip == a.sut0
    && inst.backends[0].ip == a.bac0
  }

  /** The VMs of the instance are among `owned`. */
  ghost predicate Within(inst: Instance, owned: set<VM>) {
    && inst.SingleVMs()
    && inst.loadGenerators[0] in owned && inst.suts[0] in owned && inst.backends[0] in owned
  }

  /** Every instance has its VMs among `owned` and shows Terraform's answers for its own id. */
  ghost predicate ShowAll(entries: map<Int64, Instance>, output: Output, parseIP: IPParser, owned: set<VM>)
    reads owned
  {
    forall id :: id in entries ==>
      Within(entries[id], owned) && Shows(entries[id], Expected(output, id, parseIP))
  }

  lemma ShowAllStep(entries: map<Int64, Instance>, output: Output, parseIP: IPParser, owned: set<VM>,
                    id: Int64, inst: Instance, more: set<VM>)
    requires ShowAll(entries, output, parseIP, owned)
    requires Within(inst, more) && Shows(inst, Expected(output, id, parseIP))
    ensures ShowAll(entries[id := inst], output, parseIP, owned + more)
  {
  }

  /** The map that parseInstances builds and returns. */
  class InstanceMap {
    var entries: map<Int64, Instance>

    constructor ()
      ensures entries == map[]
    {
      entries := map[];
    }

    /** combineInst: the entries of `b`, visited in any order, are written into this map. */
    method Combine(b: map<Int64, Instance>)
      modifies this
      ensures entries == old(entries) + b
    {
      var pending := b.Keys;
      while pending != {}
        invariant pending <= b.Keys
        invariant entries == old(entries) + (map k | k in b && k !in pending :: b[k])
        decreases pending
      {
        var k := AnyOf(pending);
        entries := entries[k := b[k]];
        pending := pending - {k};
      }
      assert b == map k | k in b && k !in pending :: b[k];
    }
  }

  /** The parser's test on the gathered IPs decides, in any visiting order, whether there is an
      answer, and finds it. */
  lemma AnswerIsSingleIP(output: Output, v: OutputVar, id: Int64, parseIP: IPParser, order: seq<string>)
    requires v in output && output[v].IPLists? && WellFormed(output[v].lists, parseIP)
    requires Enumerates(order, output[v].lists.Keys)
    ensures var got := Gather(output[v].lists, order, parseIP);
            && (Answer(output, v, id, parseIP).Some? <==> id in got && |got[id]| == 1)
            && (id in got && |got[id]| == 1 ==> Answer(output, v, id, parseIP) == Some(got[id][0]))
  {
    SingleIPIffSole(output[v].lists, order, parseIP, id);
  }

  /** The value read for one id from one output, if the parser accepts it. */
  method ReadAnswer(output: Output, v: OutputVar, id: Int64, parseIP: IPParser) returns (r: Result<IP>)
    ensures r.Ok? <==> Answer(output, v, id, parseIP).Some?
    ensures r.Ok? ==> Answer(output, v, id, parseIP) == Some(r.value)
  {
    if v !in output {
      return Err;
    }
    var outMeta := output[v];
    var idIPs := UnmarshalBuildIPMap(outMeta, parseIP);
    if idIPs.Err? {
      return Err;
    }
    ghost var order :| && Enumerates(order, outMeta.lists.Keys)
                       && idIPs.value == Gather(outMeta.lists, order, parseIP);
    AnswerIsSingleIP(output, v, id, parseIP, order);
    if id !in idIPs.value {
      return Err;
    }
    var ips := idIPs.value[id];
    if |ips| != 1 {
      return Err;
    }
    return Ok(ips[0]);
  }

  /** One line of the parser's table: which output goes to which field. */
  datatype Slot = Slot(tfVar: OutputVar, field: FieldPtr)

  function SlotVMs(table: seq<Slot>): set<VM> {
    set slot | slot in table :: slot.field.vm
  }

  /** The inner loop of the parser: each answer is written through its field pointer. */
  method FillFields(table: seq<Slot>, id: Int64, output: Output, parseIP: IPParser) returns (ok: bool)
    requires forall p, q :: 0 <= p < q < |table| ==> table[p].field != table[q].field
    modifies SlotVMs(table)
    ensures ok <==> forall q :: 0 <= q < |table| ==> Answer(output, table[q].tfVar, id, parseIP).Some?
    ensures ok ==> forall q :: 0 <= q < |table| ==>
                     Answer(output, table[q].tfVar, id, parseIP) == Some(Load(table[q].field))
  {
    for j := 0 to |table|
      invariant forall q :: 0 <= q < j ==>
                  Answer(output, table[q].tfVar, id, parseIP) == Some(Load(table[q].field))
    {
      var data := table[j];
      var ip := ReadAnswer(output, data.tfVar, id, parseIP);
      if ip.Err? {
        return false;
      }
      assert data.field.vm in SlotVMs(table);
      Store(data.field, ip.value);
    }
    return true;
  }

  /** The parser's table for a new instance with these three VMs. */
  function SlotTable(gen: VM, sut: VM, bac: VM): seq<Slot> {
    [Slot(Gen0Control, ControlIPOf(gen)),
     Slot(Sut0Control, ControlIPOf(sut)),
     Slot(Bac0Control, ControlIPOf(bac)),
     Slot(Gen0, IPOf(gen)),
     Slot(Sut0, IPOf(sut)),
     Slot(Bac0, IPOf(bac))]
  }

  lemma SlotTableFields(gen: VM, sut: VM, bac: VM)
    requires gen != sut && sut != bac && gen != bac
    ensures var table := SlotTable(gen, sut, bac);
            && (forall p, q :: 0 <= p < q < |table| ==> table[p].field != table[q].field)
            && SlotVMs(table) <= {gen, sut, bac}
  {
  }

  ghost predicate Reads(table: seq<Slot>, v: OutputVar) {
    exists q :: 0 <= q < |table| && table[q].tfVar == v
  }

  lemma SlotTableReadsAll(gen: VM, sut: VM, bac: VM)
    ensures forall v: OutputVar :: Reads(SlotTable(gen, sut, bac), v)
  {
    var table := SlotTable(gen, sut, bac);
    forall v: OutputVar ensures Reads(table, v) {
      var q := match v case Gen0Control => 0 case Sut0Control => 1 case Bac0Control => 2
                       case Gen0 => 3 case Sut0 => 4 case Bac0 => 5;
      assert table[q].tfVar == v;
    }
  }

  lemma AnsweredBySlots(table: seq<Slot>, output: Output, id: Int64, parseIP: IPParser)
    requires forall v: OutputVar :: Reads(table, v)
    ensures Answered(output, id, parseIP)
            <==> forall q :: 0 <= q < |table| ==> Answer(output, table[q].tfVar, id, parseIP).Some?
  {
    if forall q :: 0 <= q < |table| ==> Answer(output, table[q].tfVar, id, parseIP).Some? {
      forall v: OutputVar ensures Answer(output, v, id, parseIP).Some? {
        assert Reads(table, v);
      }
    }
  }

  /** Filling the six slots of the table fills the six addresses. */
  lemma SlotsShow(inst: Instance, output: Output, id: Int64, parseIP: IPParser)
    requires inst.SingleVMs() && inst.typ == TfVars.TYPE_DEFAULT_SANDBOX_X64
    requires var table := SlotTable(inst.loadGenerators[0], inst.suts[0], inst.backends[0]);
             forall q :: 0 <= q < |table| ==>
               Answer(output, table[q].tfVar, id, parseIP) == Some(Load(table[q].field))
    ensures Shows(inst, Expected(output, id, parseIP))
  {
    hide Answer;
    var gen, sut, bac := inst.loadGenerators[0], inst.suts[0], inst.backends[0];
    var table := SlotTable(gen, sut, bac);
    assert table[0] == Slot(Gen0Control, ControlIPOf(gen)) && table[3] == Slot(Gen0, IPOf(gen));
    assert table[1] == Slot(Sut0Control, ControlIPOf(sut)) && table[4] == Slot(Sut0, IPOf(sut));
    assert table[2] == Slot(Bac0Control, ControlIPOf(bac)) && table[5] == Slot(Bac0, IPOf(bac));
  }

  /** A new instance for one id, filled through pointers to its own fields. */
  method NewFilledInstance(id: Int64, output: Output, parseIP: IPParser)
    returns (r: Result<Instance>, ghost owned: set<VM>)
    ensures r.Ok? <==> Answered(output, id, parseIP)
    ensures r.Ok? ==> fresh(owned) && Within(r.value, owned) && Shows(r.value, Expected(output, id, parseIP))
  {
    var inst := new Instance.WithSingleVM(TfVars.TYPE_DEFAULT_SANDBOX_X64);
    var gen, sut, bac := inst.loadGenerators[0], inst.suts[0], inst.backends[0];
    owned := {gen, sut, bac};
    assert fresh(owned) && Within(inst, owned);
    SlotTableFields(gen, sut, bac);
    var table := SlotTable(gen, sut, bac);
    SlotTableReadsAll(gen, sut, bac);
    AnsweredBySlots(table, output, id, parseIP);
    var ok := FillFields(table, id, output, parseIP);
    if !ok {
      return Err, owned;
    }
    SlotsShow(inst, output, id, parseIP);
    return Ok(inst), owned;
  }

  ghost function IdSet(ids: seq<Int64>): set<Int64> {
    set id | id in ids
  }

  /** All ids that a request names, over all its types. */
  ghost function RequestedIds(sbxs: TfVars.Request): set<Int64> {
    set t, id | t in sbxs && id in sbxs[t] :: id
  }

  lemma IdSetStep(ids: seq<Int64>, i: nat)
    requires i < |ids|
    ensures IdSet(ids[..i + 1]) == IdSet(ids[..i]) + {ids[i]}
  {
  }

  lemma RequestedOfOneType(sbxs: TfVars.Request)
    requires sbxs.Keys == {TfVars.TYPE_DEFAULT_SANDBOX_X64}
    ensures RequestedIds(sbxs) == IdSet(sbxs[TfVars.TYPE_DEFAULT_SANDBOX_X64])
  {
  }

  lemma NothingPlus(entries: map<Int64, Instance>)
    ensures map[] + entries == entries
  {
  }

  method ParseDefaultSandboxX64(insts: seq<Int64>, output: Output, parseIP: IPParser)
    returns (r: Result<map<Int64, Instance>>, ghost owned: set<VM>)
    ensures r.Ok? <==> AllAnswered(output, IdSet(insts), parseIP)
    ensures r.Ok? ==> r.value.Keys == IdSet(insts)
    ensures r.Ok? ==> fresh(owned) && ShowAll(r.value, output, parseIP, owned)
  {
    var res: map<Int64, Instance> := map[];
    owned := {};
    for i := 0 to |insts|
      invariant res.Keys == IdSet(insts[..i])
      invariant AllAnswered(output, IdSet(insts[..i]), parseIP)
      invariant fresh(owned) && ShowAll(res, output, parseIP, owned)
    {
      var instNum := insts[i];
      IdSetStep(insts, i);
      AllAnsweredStep(output, IdSet(insts[..i]), parseIP, instNum);
      var inst, vms := NewFilledInstance(instNum, output, parseIP);
      if inst.Err? {
        assert instNum in IdSet(insts);
        return Err, owned;
      }
      ShowAllStep(res, output, parseIP, owned, instNum, inst.value, vms);
      res, owned := res[instNum := inst.value], owned + vms;
    }
    assert insts[..|insts|] == insts;
    return Ok(res), owned;
  }

  /** The requests whose instances the parser can build from these outputs. */
  ghost predicate Parseable(sbxs: TfVars.Request, output: Output, parseIP: IPParser) {
    sbxs != map[] && forall t :: t in sbxs ==> ParseableList(t, sbxs[t], output, parseIP)
  }

  ghost predicate ParseableList(t: int, ids: seq<Int64>, output: Output, parseIP: IPParser) {
    && t == TfVars.TYPE_DEFAULT_SANDBOX_X64
    && ids != []
    && AllAnswered(output, IdSet(ids), parseIP)
  }

  /** That is: some instances of the one supported type, and answers for all their ids. */
  lemma ParseableExactly(sbxs: TfVars.Request, output: Output, parseIP: IPParser)
    ensures Parseable(sbxs, output, parseIP)
       <==> sbxs.Keys == {1} && |sbxs[1]| >= 1 && AllAnswered(output, RequestedIds(sbxs), parseIP)
  {
    if Parseable(sbxs, output, parseIP) {
      assert sbxs.Keys == {} ==> sbxs == map[];
      forall t | t in sbxs.Keys ensures t == 1 {
        assert ParseableList(t, sbxs[t], output, parseIP);
      }
      assert sbxs.Keys == {} || sbxs.Keys == {1};
    }
    if sbxs.Keys == {1} {
      RequestedOfOneType(sbxs);
    }
  }

  /** One turn of the parser's loop over the requested types. */
  method ParseType(typ: int, insts: seq<Int64>, output: Output, parseIP: IPParser)
    returns (r: Result<map<Int64, Instance>>, ghost owned: set<VM>)
    ensures r.Ok? <==> ParseableList(typ, insts, output, parseIP)
    ensures r.Ok? <==> typ == 1 && |insts| >= 1 && AllAnswered(output, IdSet(insts), parseIP)
    ensures r.Ok? ==> r.value.Keys == IdSet(insts)
    ensures r.Ok? ==> fresh(owned) && ShowAll(r.value, output, parseIP, owned)
  {
    if |insts| == 0 {
      return Err, {};
    }
    if typ == TfVars.TYPE_DEFAULT_SANDBOX_X64 {
      r, owned := ParseDefaultSandboxX64(insts, output, parseIP);
    } else {
      return Err, {};
    }
  }

  /** Both Go maps are visited in an arbitrary order, yet the outcome and the value are fixed. */
  method ParseInstances(sbxs: TfVars.Request, output: Output, parseIP: IPParser)
    returns (r: Result<InstanceMap>, ghost owned: set<VM>)
    ensures r.Ok? <==> Parseable(sbxs, output, parseIP)
    ensures r.Ok? <==> sbxs.Keys == {1} && |sbxs[1]| >= 1 && AllAnswered(output, RequestedIds(sbxs), parseIP)
    ensures r.Ok? ==> fresh(r.value) && r.value.entries.Keys == RequestedIds(sbxs)
    ensures r.Ok? ==> fresh(owned) && ShowAll(r.value.entries, output, parseIP, owned)
  {
    ParseableExactly(sbxs, output, parseIP);
    owned := {};
    if |sbxs| == 0 {
      return Err, owned;
    }
    var res := new InstanceMap();
    var pending := sbxs.Keys;
    while pending != {}
      invariant pending <= sbxs.Keys && fresh(res)
      invariant forall t :: t in sbxs.Keys - pending ==> ParseableList(t, sbxs[t], output, parseIP)
      invariant pending == sbxs.Keys ==> res.entries == map[]
      invariant pending != sbxs.Keys ==>
                  && TfVars.TYPE_DEFAULT_SANDBOX_X64 in sbxs.Keys - pending
                  && res.entries.Keys == IdSet(sbxs[TfVars.TYPE_DEFAULT_SANDBOX_X64])
      invariant fresh(owned) && ShowAll(res.entries, output, parseIP, owned)
      decreases pending
    {
      var typ := AnyOf(pending);
      var instRes, vms := ParseType(typ, sbxs[typ], output, parseIP);
      if instRes.Err? {
        return Err, owned;
      }
      NothingPlus(instRes.value);
      res.Combine(instRes.value);
      pending, owned := pending - {typ}, vms;
    }
    RequestedOfOneType(sbxs);
    return Ok(res), owned;
  }
}
