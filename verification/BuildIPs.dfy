/** Reading one Terraform output: decoded JSON keyed by build-id text becomes IP addresses
    keyed by build id. Distinct keys may spell the same id (`"1"`, `"01"`, `"+1"`), and Go
    visits the keys in an arbitrary order. */
module BuildIPs {
  import opened Wrappers
  import opened Collections
  import opened Decimal

  /** Go's net.IP; the nil IP is the empty sequence. */
  type IP = seq<bv8>

  /** net.ParseIP, about which nothing is assumed; None stands for nil. */
  type IPParser = string -> Option<IP>

  /** The raw JSON of one output, after decoding. */
  datatype Json = NotIPLists | IPLists(lists: map<string, seq<string>>)

  predicate Denotes(key: string, id: Int64) {
    ParseInt(key) == Some(id)
  }

  predicate GoodEntry(key: string, ips: seq<string>, parseIP: IPParser) {
    && ParseInt(key).Some? && ParseInt(key).value >= 1
    && ips != []
    && forall s :: s in ips ==> parseIP(s).Some?
  }

  predicate GoodKeys(lists: map<string, seq<string>>, keys: seq<string>, parseIP: IPParser) {
    forall key :: key in keys ==> key in lists && GoodEntry(key, lists[key], parseIP)
  }

  predicate WellFormed(lists: map<string, seq<string>>, parseIP: IPParser) {
    forall key :: key in lists ==> GoodEntry(key, lists[key], parseIP)
  }

  function ParsedIPs(ips: seq<string>, parseIP: IPParser): seq<IP>
    requires forall s :: s in ips ==> parseIP(s).Some?
  {
    seq(|ips|, i requires 0 <= i < |ips| => parseIP(ips[i]).value)
  }

  /** A Go map read: a missing key gives the nil slice. */
  function Lookup(got: map<Int64, seq<IP>>, id: Int64): seq<IP> {
    if id in got then got[id] else []
  }

  /** What one visiting order gathers: each key's IPs are appended to those of its id. */
  function Gather(lists: map<string, seq<string>>, order: seq<string>, parseIP: IPParser): map<Int64, seq<IP>>
    requires GoodKeys(lists, order, parseIP)
  {
    if order == [] then map[]
    else
      var got := Gather(lists, order[..|order| - 1], parseIP);
      var key := Last(order);
      assert key in order;
      var id := ParseInt(key).value;
      got[id := Lookup(got, id) + ParsedIPs(lists[key], parseIP)]
  }

  lemma GatherStep(lists: map<string, seq<string>>, front: seq<string>, key: string, parseIP: IPParser)
    requires GoodKeys(lists, front, parseIP)
    requires key in lists && GoodEntry(key, lists[key], parseIP)
    ensures GoodKeys(lists, front + [key], parseIP)
    ensures var got, id := Gather(lists, front, parseIP), ParseInt(key).value;
            Gather(lists, front + [key], parseIP)
            == got[id := Lookup(got, id) + ParsedIPs(lists[key], parseIP)]
  {
  }

  lemma ParsedIPsStep(ips: seq<string>, i: nat, parseIP: IPParser)
    requires i < |ips| && forall s :: s in ips[..i + 1] ==> parseIP(s).Some?
    ensures ips[..i + 1] == ips[..i] + [ips[i]]
    ensures forall s :: s in ips[..i] ==> parseIP(s).Some?
    ensures ParsedIPs(ips[..i + 1], parseIP) == ParsedIPs(ips[..i], parseIP) + [parseIP(ips[i]).value]
  {
  }

  /** The inner loop: parse the IPs of one key and append them to those of its id. */
  method AppendIPs(got: map<Int64, seq<IP>>, id: Int64, ips: seq<string>, parseIP: IPParser)
    returns (r: Result<map<Int64, seq<IP>>>)
    requires ips != []
    ensures r.Ok? <==> forall s :: s in ips ==> parseIP(s).Some?
    ensures r.Ok? ==> r.value == got[id := Lookup(got, id) + ParsedIPs(ips, parseIP)]
    ensures r.Ok? ==>
              && |r.value[id]| == |Lookup(got, id)| + |ips|
              && forall i :: 0 <= i < |ips| ==> parseIP(ips[i]) == Some(r.value[id][|Lookup(got, id)| + i])
  {
    var res := got;
    for i := 0 to |ips|
      invariant forall s :: s in ips[..i] ==> parseIP(s).Some?
      invariant i == 0 ==> res == got
      invariant i > 0 ==> res == got[id := Lookup(got, id) + ParsedIPs(ips[..i], parseIP)]
    {
      var ip := parseIP(ips[i]);
      if ip.None? {
        assert ips[i] in ips;
        return Err;
      }
      ghost var appended := Lookup(got, id) + ParsedIPs(ips[..i], parseIP);
      assert Lookup(res, id) == appended;
      res := res[id := Lookup(res, id) + [ip.value]];
      ParsedIPsStep(ips, i, parseIP);
      assert appended + [ip.value] == Lookup(got, id) + ParsedIPs(ips[..i + 1], parseIP);
    }
    assert ips[..|ips|] == ips;
    return Ok(res);
  }

  /** Acceptance does not depend on the visiting order; the value is what some order gathers. */
  method UnmarshalBuildIPMap(rawJSON: Json, parseIP: IPParser) returns (r: Result<map<Int64, seq<IP>>>)
    ensures r.Ok? <==> rawJSON.IPLists? && WellFormed(rawJSON.lists, parseIP)
    ensures r.Ok? <==>
              && rawJSON.IPLists?
              && forall key :: key in rawJSON.lists ==>
                   && ParseInt(key).Some? && ParseInt(key).value >= 1 && |rawJSON.lists[key]| >= 1
                   && forall s :: s in rawJSON.lists[key] ==> parseIP(s).Some?
    ensures r.Ok? ==>
              exists order ::
                && Enumerates(order, rawJSON.lists.Keys)
                && r.value == Gather(rawJSON.lists, order, parseIP)
  {
    if rawJSON.NotIPLists? {
      return Err;
    }
    var buildIPs := rawJSON.lists;
    var res: map<Int64, seq<IP>> := map[];
    var pending := buildIPs.Keys;
    ghost var order: seq<string> := [];
    while pending != {}
      invariant pending <= buildIPs.Keys
      invariant Enumerates(order, buildIPs.Keys - pending)
      invariant GoodKeys(buildIPs, order, parseIP)
      invariant res == Gather(buildIPs, order, parseIP)
      decreases pending
    {
      var idStr := AnyOf(pending);
      var ips := buildIPs[idStr];
      var parsed := ParseInt(idStr);
      if parsed.None? || parsed.value < 1 || |ips| == 0 {
        assert !GoodEntry(idStr, ips, parseIP);
        return Err;
      }
      var next := AppendIPs(res, parsed.value, ips, parseIP);
      if next.Err? {
        assert !GoodEntry(idStr, ips, parseIP);
        return Err;
      }
      res := next.value;
      GatherStep(buildIPs, order, idStr, parseIP);
      pending := pending - {idStr};
      order := order + [idStr];
    }
    return Ok(res);
  }

  // ---- The visiting order does not matter ------------------------------------------------

  lemma {:induction false} GatheredIds(
      lists: map<string, seq<string>>, order: seq<string>, parseIP: IPParser, id: Int64)
    requires GoodKeys(lists, order, parseIP)
    ensures var got := Gather(lists, order, parseIP);
            && (id in got <==> exists key :: key in order && Denotes(key, id))
            && (id in got ==> got[id] != [])
  {
    if order != [] {
      var front, last := order[..|order| - 1], Last(order);
      assert order == front + [last];
      GatheredIds(lists, front, parseIP, id);
      assert last in order;
      assert Denotes(last, ParseInt(last).value) && |ParsedIPs(lists[last], parseIP)| >= 1;
      assert forall key :: key in order <==> key in front || key == last;
    }
  }

  /** An id spelled by one key only keeps that key's list. */
  lemma {:induction false} GatheredFromLoneKey(
      lists: map<string, seq<string>>, order: seq<string>, parseIP: IPParser, id: Int64, key: string)
    requires GoodKeys(lists, order, parseIP) && NoDuplicates(order)
    requires key in order && Denotes(key, id)
    requires forall k :: k in order && Denotes(k, id) ==> k == key
    ensures Lookup(Gather(lists, order, parseIP), id) == ParsedIPs(lists[key], parseIP)
  {
    var front, last := order[..|order| - 1], Last(order);
    assert order == front + [last] && last in order;
    GatherStep(lists, front, last, parseIP);
    if last == key {
      GatheredIds(lists, front, parseIP, id);
      assert Lookup(Gather(lists, front, parseIP), id) == [];
    } else {
      assert !Denotes(last, id) && key in front;
      GatheredFromLoneKey(lists, front, parseIP, id, key);
    }
  }

  /** An id spelled by two keys has gathered at least two IPs. */
  lemma {:induction false} GatheredFromAliases(
      lists: map<string, seq<string>>, order: seq<string>, parseIP: IPParser, id: Int64, k: string, l: string)
    requires GoodKeys(lists, order, parseIP)
    requires k in order && Denotes(k, id) && l in order && Denotes(l, id) && k != l
    ensures |Lookup(Gather(lists, order, parseIP), id)| >= 2
  {
    var front, last := order[..|order| - 1], Last(order);
    assert order == front + [last] && last in order;
    GatherStep(lists, front, last, parseIP);
    if last == k || last == l {
      GatheredIds(lists, front, parseIP, id);
      assert |ParsedIPs(lists[last], parseIP)| >= 1;
    } else {
      GatheredFromAliases(lists, front, parseIP, id, k, l);
    }
  }

  /** The only key that spells `id` carries exactly one IP. */
  ghost predicate Sole(lists: map<string, seq<string>>, id: Int64, key: string) {
    && key in lists && Denotes(key, id) && |lists[key]| == 1
    && forall k :: k in lists && Denotes(k, id) ==> k == key
  }

  /** The length test that the instance parser applies to the gathered list succeeds exactly
      when one key spells the id and carries one IP, and then yields that IP. */
  lemma SingleIPIffSole(
      lists: map<string, seq<string>>, order: seq<string>, parseIP: IPParser, id: Int64)
    requires WellFormed(lists, parseIP) && Enumerates(order, lists.Keys)
    ensures var got := Gather(lists, order, parseIP);
            && ((id in got && |got[id]| == 1) <==> exists key :: Sole(lists, id, key))
            && forall key :: Sole(lists, id, key) ==> Lookup(got, id) == [parseIP(lists[key][0]).value]
  {
    var got := Gather(lists, order, parseIP);
    GatheredIds(lists, order, parseIP, id);
    forall key | Sole(lists, id, key)
      ensures Lookup(got, id) == [parseIP(lists[key][0]).value] && id in got
    {
      GatheredFromLoneKey(lists, order, parseIP, id, key);
    }
    if id in got && |got[id]| == 1 {
      var key :| key in order && Denotes(key, id);
      forall k | k in lists && Denotes(k, id) ensures k == key {
        if k != key {
          GatheredFromAliases(lists, order, parseIP, id, k, key);
        }
      }
      GatheredFromLoneKey(lists, order, parseIP, id, key);
      assert Sole(lists, id, key);
    }
  }

  /** The IPs gathered for one id, as a bag. */
  function Bag(lists: map<string, seq<string>>, order: seq<string>, parseIP: IPParser, id: Int64): multiset<IP>
    requires GoodKeys(lists, order, parseIP)
  {
    multiset(Lookup(Gather(lists, order, parseIP), id))
  }

  /** The bag of a concatenated order is the sum of the bags. */
  lemma {:induction false} BagConcat(
      lists: map<string, seq<string>>, a: seq<string>, b: seq<string>, parseIP: IPParser, id: Int64)
    requires GoodKeys(lists, a, parseIP) && GoodKeys(lists, b, parseIP)
    ensures GoodKeys(lists, a + b, parseIP)
    ensures Bag(lists, a + b, parseIP, id) == Bag(lists, a, parseIP, id) + Bag(lists, b, parseIP, id)
  {
    if b == [] {
      assert a + b == a;
    } else {
      var front, key := b[..|b| - 1], Last(b);
      assert key in b;
      assert b == front + [key] && a + b == (a + front) + [key];
      BagConcat(lists, a, front, parseIP, id);
      GatherStep(lists, a + front, key, parseIP);
      GatherStep(lists, front, key, parseIP);
    }
  }

  /** Leaving one key out of an order takes exactly that key's own bag away. */
  lemma BagWithout(lists: map<string, seq<string>>, order: seq<string>, parseIP: IPParser, id: Int64, i: nat)
    requires GoodKeys(lists, order, parseIP) && i < |order|
    ensures GoodKeys(lists, Without(order, i), parseIP) && GoodKeys(lists, [order[i]], parseIP)
    ensures Bag(lists, order, parseIP, id)
         == Bag(lists, Without(order, i), parseIP, id) + Bag(lists, [order[i]], parseIP, id)
  {
    var a, key, b := order[..i], [order[i]], order[i + 1..];
    assert order == a + (key + b);
    BagConcat(lists, key, b, parseIP, id);
    BagConcat(lists, a, key + b, parseIP, id);
    BagConcat(lists, a, b, parseIP, id);
  }

  /** Two visiting orders of the same keys gather, for every id, the same IPs up to order. */
  lemma {:induction false} GatherOrderFree(
      lists: map<string, seq<string>>, order: seq<string>, order': seq<string>, parseIP: IPParser, id: Int64)
    requires GoodKeys(lists, order, parseIP) && GoodKeys(lists, order', parseIP)
    requires multiset(order) == multiset(order')
    ensures Bag(lists, order, parseIP, id) == Bag(lists, order', parseIP, id)
  {
    if order == [] {
      assert |multiset(order')| == 0;
    } else {
      var i := SamePosition(order, order');
      BagWithout(lists, order, parseIP, id, 0);
      BagWithout(lists, order', parseIP, id, i);
      GatherOrderFree(lists, Without(order, 0), Without(order', i), parseIP, id);
    }
  }
}
