// From one stage to the next: when the flush of a stage announces n survivors, the distinct
// sub-batches it has published hold exactly n items, which is what the next stage waits for.
module Handover {
  import opened Sums
  import Chunks
  import opened EofProtocol
  import opened ReplicaGroup
  import opened Barrier
  import opened Stage
  import opened Text
  import opened Batching
  import opened Senders

  // How many items each published id carries: publishing an id again adds nothing.
  function Tally<T>(subs: seq<SubBatch<T>>): map<string, nat> {
    if subs == [] then map[]
    else Tally(subs[..|subs| - 1])[subs[|subs| - 1].id := |subs[|subs| - 1].items|]
  }

  function ItemTotal<T>(subs: seq<SubBatch<T>>): nat {
    if subs == [] then 0 else ItemTotal(subs[..|subs| - 1]) + |subs[|subs| - 1].items|
  }

  ghost predicate Named<T>(subs: seq<SubBatch<T>>, k: string) { exists sub :: sub in subs && sub.id == k }

  ghost predicate NoRepeats<T>(subs: seq<SubBatch<T>>) {
    forall i, j :: 0 <= i < j < |subs| ==> subs[i].id != subs[j].id
  }

  // No id is used twice within a batch or by two batches.
  ghost predicate DistinctIds<T>(outputs: map<string, seq<SubBatch<T>>>) {
    && (forall id :: id in outputs ==> NoRepeats(outputs[id]))
    && (forall p, q, k :: p in outputs && q in outputs && Named(outputs[p], k) && Named(outputs[q], k) ==> p == q)
  }

  // What a batch is counted for is what is published for it.
  ghost predicate OutputsFit<T>(t: Truth<T>) {
    && DistinctIds(t.outputs)
    && (forall id :: id in t.outputs && id in t.records ==>
          ItemTotal(t.outputs[id]) == t.records[id].survivors)
    && (forall id, sub :: id in t.outputs && sub in t.outputs[id] ==> sub.items != [])
  }

  lemma {:induction false} TallyKeys<T>(subs: seq<SubBatch<T>>, k: string)
    ensures k in Tally(subs) <==> Named(subs, k)
  {
    if subs != [] {
      TallyKeys(subs[..|subs| - 1], k);
      assert subs == subs[..|subs| - 1] + [subs[|subs| - 1]];
    }
  }

  ghost predicate SameIdSameSize<T>(subs: seq<SubBatch<T>>) {
    forall x, y :: x in subs && y in subs && x.id == y.id ==> |x.items| == |y.items|
  }

  lemma {:induction false} TallyValue<T>(subs: seq<SubBatch<T>>, sub: SubBatch<T>)
    requires SameIdSameSize(subs) && sub in subs
    ensures sub.id in Tally(subs) && Tally(subs)[sub.id] == |sub.items|
  {
    var init, last := subs[..|subs| - 1], subs[|subs| - 1];
    assert subs == init + [last];
    assert last in subs;
    if sub.id != last.id {
      TallyValue(init, sub);
    }
  }

  lemma {:induction false} TallyTotal<T>(subs: seq<SubBatch<T>>)
    requires NoRepeats(subs)
    ensures Sum(Tally(subs)) == ItemTotal(subs)
  {
    if subs != [] {
      var init, last := subs[..|subs| - 1], subs[|subs| - 1];
      TallyTotal(init);
      TallyKeys(init, last.id);
      SumAdd(Tally(init), last.id, |last.items|);
    }
  }

  // ---- All the outputs together ----

  function Totals<T>(outputs: map<string, seq<SubBatch<T>>>): map<string, nat> {
    map id | id in outputs :: ItemTotal(outputs[id])
  }

  ghost predicate Sizes<T>(m: map<string, nat>, subs: seq<SubBatch<T>>) {
    forall sub :: sub in subs ==> sub.id in m && m[sub.id] == |sub.items|
  }

  ghost predicate Tallies<T>(m: map<string, nat>, outputs: map<string, seq<SubBatch<T>>>) {
    && (forall id :: id in outputs ==> Sizes(m, outputs[id]))
    && (forall k :: k in m ==> exists id :: id in outputs && Named(outputs[id], k))
  }

  lemma TallySizes<T>(subs: seq<SubBatch<T>>)
    requires NoRepeats(subs)
    ensures Sizes(Tally(subs), subs)
  {
    forall x, y | x in subs && y in subs && x.id == y.id ensures |x.items| == |y.items| {
      var i :| 0 <= i < |subs| && subs[i] == x;
      var j :| 0 <= j < |subs| && subs[j] == y;
      assert i == j;
    }
    forall sub | sub in subs ensures sub.id in Tally(subs) && Tally(subs)[sub.id] == |sub.items| {
      TallyValue(subs, sub);
    }
  }

  lemma TallyWithin<T>(subs: seq<SubBatch<T>>, m: map<string, nat>, k: string)
    requires NoRepeats(subs) && Sizes(m, subs) && k in Tally(subs)
    ensures k in m && m[k] == Tally(subs)[k]
  {
    TallyKeys(subs, k);
    TallySizes(subs);
    var sub :| sub in subs && sub.id == k;
  }

  lemma TallyTakesPart<T>(subs: seq<SubBatch<T>>, m: map<string, nat>)
    requires NoRepeats(subs) && Sizes(m, subs)
    ensures Sum(m) == ItemTotal(subs) + Sum(m - Tally(subs).Keys)
  {
    forall k | k in Tally(subs) ensures k in m && m[k] == Tally(subs)[k] {
      TallyWithin(subs, m, k);
    }
    SumSplit(Tally(subs), m);
    TallyTotal(subs);
  }

  lemma WithoutOneBatch<T>(outputs: map<string, seq<SubBatch<T>>>, m: map<string, nat>, p: string)
    requires DistinctIds(outputs) && Tallies(m, outputs) && p in outputs
    ensures Tallies(m - Tally(outputs[p]).Keys, outputs - {p}) && DistinctIds(outputs - {p})
  {
    var rest := m - Tally(outputs[p]).Keys;
    forall id | id in outputs && id != p ensures Sizes(rest, outputs[id]) {
      forall sub | sub in outputs[id] ensures sub.id in rest && rest[sub.id] == |sub.items| {
        TallyKeys(outputs[p], sub.id);
        assert Named(outputs[id], sub.id);
      }
    }
    forall k | k in rest ensures exists id :: id in outputs - {p} && Named((outputs - {p})[id], k) {
      TallyKeys(outputs[p], k);
      var id :| id in outputs && Named(outputs[id], k);
      assert id in outputs - {p} && Named((outputs - {p})[id], k);
    }
  }

  lemma TotalsWithout<T>(outputs: map<string, seq<SubBatch<T>>>, p: string)
    ensures Totals(outputs) - {p} == Totals(outputs - {p})
  {
  }

  lemma {:induction false} TalliesTotal<T>(outputs: map<string, seq<SubBatch<T>>>, m: map<string, nat>)
    requires DistinctIds(outputs) && Tallies(m, outputs)
    ensures Sum(m) == Sum(Totals(outputs))
    decreases outputs.Keys
  {
    if outputs.Keys == {} {
      assert m == map[];
      assert Totals(outputs) == map[];
    } else {
      var p := Pick(outputs.Keys);
      TallyTakesPart(outputs[p], m);
      WithoutOneBatch(outputs, m, p);
      TalliesTotal(outputs - {p}, m - Tally(outputs[p]).Keys);
      SumRemove(Totals(outputs), p);
      TotalsWithout(outputs, p);
    }
  }

  // ---- The handover ----

  lemma AllPublished<T>(t: Truth<T>, cfg: Config, states: seq<System<T>>, steps: seq<Step>, i: nat, f: FlushCall)
    requires WellFormed(t, cfg) && OutputsFit(t) && IsStageRun(t, cfg, states, steps) && i < |states|
    requires f in states[i].flushes
    ensures forall id, sub :: id in t.outputs && sub in t.outputs[id] ==> sub in states[i].published
    ensures forall sub :: sub in states[i].published ==> exists id :: id in t.outputs && sub in t.outputs[id]
  {
    RunSafe(t, cfg, states, steps, i);
    RunKnownIsPublished(t, cfg, states, steps, i);
    forall id, sub | id in t.outputs && sub in t.outputs[id] ensures sub in states[i].published {
      if id in f.known {
        assert id in PublishedTruth(t, states[i].published).records;
        assert Out(t, states[i].published, id);
      } else {
        assert t.records[id].processed == 0 && t.records[id].survivors == 0;
        NoItemsNoSubs(t.outputs[id]);
      }
    }
  }

  lemma {:induction false} NoItemsNoSubs<T>(subs: seq<SubBatch<T>>)
    requires forall sub :: sub in subs ==> sub.items != []
    ensures ItemTotal(subs) >= |subs|
  {
    if subs != [] {
      NoItemsNoSubs(subs[..|subs| - 1]);
      assert subs[|subs| - 1] in subs;
    }
  }

  // Publishing every output, in any order and any number of times, tallies like the outputs.
  lemma PublishedTallies<T>(outputs: map<string, seq<SubBatch<T>>>, pub: seq<SubBatch<T>>)
    requires DistinctIds(outputs)
    requires forall id, sub :: id in outputs && sub in outputs[id] ==> sub in pub
    requires forall sub :: sub in pub ==> exists id :: id in outputs && sub in outputs[id]
    ensures Tallies(Tally(pub), outputs)
  {
    forall x, y | x in pub && y in pub && x.id == y.id ensures |x.items| == |y.items| {
      var p :| p in outputs && x in outputs[p];
      var q :| q in outputs && y in outputs[q];
      assert Named(outputs[p], x.id) && Named(outputs[q], x.id);
      TallySizes(outputs[p]);
    }
    forall id | id in outputs ensures Sizes(Tally(pub), outputs[id]) {
      forall sub | sub in outputs[id] ensures sub.id in Tally(pub) && Tally(pub)[sub.id] == |sub.items| {
        TallyValue(pub, sub);
      }
    }
    forall k | k in Tally(pub) ensures exists id :: id in outputs && Named(outputs[id], k) {
      TallyKeys(pub, k);
      var sub :| sub in pub && sub.id == k;
      var id :| id in outputs && sub in outputs[id];
      assert Named(outputs[id], k);
    }
  }

  // From the moment any replica of the stage calls its flush handler, the distinct published
  // sub-batches hold exactly as many items as the survivor count passed to it.
  lemma StageHandover<T>(t: Truth<T>, cfg: Config, states: seq<System<T>>, steps: seq<Step>, i: nat, f: FlushCall)
    requires WellFormed(t, cfg) && OutputsFit(t) && IsStageRun(t, cfg, states, steps) && i < |states|
    requires f in states[i].flushes
    ensures Sum(Tally(states[i].published)) == f.survivors
  {
    AllPublished(t, cfg, states, steps, i, f);
    PublishedTallies(t.outputs, states[i].published);
    TalliesTotal(t.outputs, Tally(states[i].published));
    RunSafe(t, cfg, states, steps, i);
    assert Totals(t.outputs) == Survivors(t.records);
  }

  // So what the stage hands over meets, for its part, what barrier exactness asks of the next
  // stage: the totals of the EOFs add up to the items of the distinct batches.
  ghost predicate Balanced(eofs: map<string, nat>, items: map<string, nat>) { Sum(eofs) == Sum(items) }

  lemma NextStageBalanced<T>(t: Truth<T>, cfg: Config, states: seq<System<T>>, steps: seq<Step>, i: nat, f: FlushCall,
                             namespace: string)
    requires WellFormed(t, cfg) && OutputsFit(t) && IsStageRun(t, cfg, states, steps) && i < |states|
    requires f in states[i].flushes
    ensures Balanced(map[NamespacedID(f.eofID, namespace) := f.survivors], Tally(states[i].published))
  {
    StageHandover(t, cfg, states, steps, i, f);
    var none: map<string, nat> := map[];
    SumAdd(none, NamespacedID(f.eofID, namespace), f.survivors);
    assert none[NamespacedID(f.eofID, namespace) := f.survivors] == map[NamespacedID(f.eofID, namespace) := f.survivors];
  }

  // Several groups feeding one stage under ids of their own balance together.
  lemma GroupsBalance(eofs: map<string, nat>, items: map<string, nat>, eofs': map<string, nat>,
                      items': map<string, nat>)
    requires Balanced(eofs, items) && Balanced(eofs', items')
    requires eofs.Keys !! eofs'.Keys && items.Keys !! items'.Keys
    ensures Balanced(eofs + eofs', items + items')
  {
    SumDisjoint(eofs, eofs');
    SumDisjoint(items, items');
  }

  // ---- The next stage ----

  // What one group hands over: the totals of its EOFs and the sizes of its distinct sub-batches.
  datatype Part = Part(eofs: map<string, nat>, items: map<string, nat>)

  ghost function AllEOFs(parts: seq<Part>): map<string, nat> {
    if parts == [] then map[] else AllEOFs(parts[..|parts| - 1]) + parts[|parts| - 1].eofs
  }

  ghost function AllItems(parts: seq<Part>): map<string, nat> {
    if parts == [] then map[] else AllItems(parts[..|parts| - 1]) + parts[|parts| - 1].items
  }

  ghost predicate Apart(parts: seq<Part>) {
    forall i, j :: 0 <= i < j < |parts| ==> parts[i].eofs.Keys !! parts[j].eofs.Keys && parts[i].items.Keys !! parts[j].items.Keys
  }

  lemma {:induction false} FromSomePart(parts: seq<Part>, k: string)
    ensures k in AllEOFs(parts) ==> exists i :: 0 <= i < |parts| && k in parts[i].eofs
    ensures k in AllItems(parts) ==> exists i :: 0 <= i < |parts| && k in parts[i].items
  {
    if parts != [] {
      FromSomePart(parts[..|parts| - 1], k);
    }
  }

  lemma LastPartApart(parts: seq<Part>)
    requires parts != [] && Apart(parts)
    ensures AllEOFs(parts[..|parts| - 1]).Keys !! parts[|parts| - 1].eofs.Keys
    ensures AllItems(parts[..|parts| - 1]).Keys !! parts[|parts| - 1].items.Keys
  {
    var init, last := parts[..|parts| - 1], parts[|parts| - 1];
    forall k ensures !(k in AllEOFs(init) && k in last.eofs) && !(k in AllItems(init) && k in last.items) {
      FromSomePart(init, k);
      if k in AllEOFs(init) {
        var i :| 0 <= i < |init| && k in init[i].eofs;
        assert parts[i].eofs.Keys !! parts[|parts| - 1].eofs.Keys;
      }
      if k in AllItems(init) {
        var i :| 0 <= i < |init| && k in init[i].items;
        assert parts[i].items.Keys !! parts[|parts| - 1].items.Keys;
      }
    }
  }

  // Any number of groups, each with one EOF of its own, balance together, with one EOF each.
  lemma {:induction false} PartsBalance(parts: seq<Part>)
    requires Apart(parts) && forall p :: p in parts ==> Balanced(p.eofs, p.items) && |p.eofs| == 1
    ensures Balanced(AllEOFs(parts), AllItems(parts)) && |AllEOFs(parts)| == |parts|
  {
    if parts != [] {
      var init, last := parts[..|parts| - 1], parts[|parts| - 1];
      assert last in parts;
      PartsBalance(init);
      LastPartApart(parts);
      GroupsBalance(AllEOFs(init), AllItems(init), last.eofs, last.items);
      assert (AllEOFs(init) + last.eofs).Keys == AllEOFs(init).Keys + last.eofs.Keys;
      assert |AllEOFs(parts).Keys| == |AllEOFs(init).Keys| + |last.eofs.Keys|;
      assert |AllEOFs(init).Keys| == |AllEOFs(init)| && |last.eofs.Keys| == |last.eofs|;
      assert |AllEOFs(parts).Keys| == |AllEOFs(parts)|;
    }
  }

  // A group of the stage and its run up to a flush, with the namespace of its sender.
  datatype Group<T> = Group(t: Truth<T>, cfg: Config, states: seq<System<T>>, steps: seq<Step>, flush: FlushCall,
                            namespace: string)

  ghost predicate HasFlushed<T>(g: Group<T>) {
    && WellFormed(g.t, g.cfg) && OutputsFit(g.t) && IsStageRun(g.t, g.cfg, g.states, g.steps)
    && g.flush in g.states[|g.states| - 1].flushes
  }

  ghost predicate AllFlushed<T>(groups: seq<Group<T>>) { forall i :: 0 <= i < |groups| ==> HasFlushed(groups[i]) }

  ghost function Handed<T>(g: Group<T>): Part
    requires HasFlushed(g)
  {
    Part(map[NamespacedID(g.flush.eofID, g.namespace) := g.flush.survivors], Tally(g.states[|g.states| - 1].published))
  }

  ghost function AllHanded<T>(groups: seq<Group<T>>): seq<Part>
    requires AllFlushed(groups)
  {
    seq(|groups|, i requires 0 <= i < |groups| => Handed(groups[i]))
  }

  // n is an input that consists of those parts: a record for each distinct sub-batch, counting its
  // items, and every group's EOF, all of which are waited for.
  ghost predicate Feeds<U>(parts: seq<Part>, n: Truth<U>, cfg: Config) {
    && Apart(parts) && cfg.expected == |parts| >= 1
    && n.eofs == AllEOFs(parts) && Processed(n.records) == AllItems(parts) && n.outputs.Keys == n.records.Keys
    && forall id :: id in n.records ==>
         n.records[id].batchID == id && (n.records[id].processed == 0 ==> n.records[id].survivors == 0)
  }

  lemma HandedBalances<T>(g: Group<T>)
    requires HasFlushed(g)
    ensures Balanced(Handed(g).eofs, Handed(g).items) && |Handed(g).eofs| == 1
  {
    NextStageBalanced(g.t, g.cfg, g.states, g.steps, |g.states| - 1, g.flush, g.namespace);
  }

  // What the groups of a stage hand over is an input that barrier exactness is proved for.
  lemma NextStageWellFormed<T, U>(groups: seq<Group<T>>, n: Truth<U>, cfg: Config)
    requires AllFlushed(groups) && Feeds(AllHanded(groups), n, cfg)
    ensures WellFormed(n, cfg)
  {
    var parts := AllHanded(groups);
    forall p | p in parts ensures Balanced(p.eofs, p.items) && |p.eofs| == 1 {
      var i :| 0 <= i < |parts| && p == parts[i];
      HandedBalances(groups[i]);
    }
    PartsBalance(parts);
    FedIsWellFormed(parts, n, cfg);
  }

  lemma FedIsWellFormed<U>(parts: seq<Part>, n: Truth<U>, cfg: Config)
    requires Feeds(parts, n, cfg) && Balanced(AllEOFs(parts), AllItems(parts)) && |AllEOFs(parts)| == |parts|
    ensures WellFormed(n, cfg)
  {
  }

  // Two stages in a row: once every group of the first has flushed, every flush of the second, in
  // every run of its own, counts each distinct sub-batch of the first exactly once.
  lemma TwoStagesExact<T, U>(groups: seq<Group<T>>, n: Truth<U>, cfg: Config, states: seq<System<U>>, steps: seq<Step>,
                             f: FlushCall)
    requires AllFlushed(groups) && Feeds(AllHanded(groups), n, cfg)
    requires IsRun(n, cfg, states, steps) && f in states[|states| - 1].flushes
    ensures f.survivors == Sum(Survivors(n.records)) && Covers(n, f.known) && IsLast(f.eofID, n.eofs.Keys)
  {
    NextStageWellFormed(groups, n, cfg);
    BarrierExactness(n, cfg, states, steps, f);
  }

  // ---- What a stateless engine makes of a batch ----

  // What the processor returns for an item: the results, and whether each of them is counted.
  datatype Results<V> = Results(results: seq<V>, multi: bool)

  function ResultsOf<U, V>(items: seq<U>, process: U -> Results<V>): seq<V> {
    if items == [] then []
    else ResultsOf(items[..|items| - 1], process) + process(items[|items| - 1]).results
  }

  function Counted<V>(r: Results<V>): nat {
    if r.multi then |r.results| else if |r.results| > 0 then 1 else 0
  }

  function SurvivorCount<U, V>(items: seq<U>, process: U -> Results<V>): nat {
    if items == [] then 0
    else SurvivorCount(items[..|items| - 1], process) + Counted(process(items[|items| - 1]))
  }

  // The results of the items one after the other, in their order; an item counts for all its results
  // if it is one with several, and otherwise for one if it has any.
  lemma {:induction false} ResultsInOrder<U, V>(a: seq<U>, b: seq<U>, x: U, process: U -> Results<V>)
    ensures ResultsOf(a + b, process) == ResultsOf(a, process) + ResultsOf(b, process)
    ensures SurvivorCount(a + b, process) == SurvivorCount(a, process) + SurvivorCount(b, process)
    ensures ResultsOf([x], process) == process(x).results
    ensures SurvivorCount([x], process) ==
              if process(x).multi then |process(x).results| else if process(x).results == [] then 0 else 1
  {
    assert [x][..0] == [];
    if b == [] {
      assert a + b == a;
    } else {
      assert (a + b)[..|a + b| - 1] == a + b[..|b| - 1];
      ResultsInOrder(a, b[..|b| - 1], x, process);
    }
  }

  ghost predicate AtMostOne<V>(r: Results<V>) { r.multi || |r.results| <= 1 }

  // The survivors are the results exactly when no single-result item gave several.
  lemma {:induction false} SurvivorsAreResults<U, V>(items: seq<U>, process: U -> Results<V>)
    ensures SurvivorCount(items, process) <= |ResultsOf(items, process)|
    ensures SurvivorCount(items, process) == |ResultsOf(items, process)| <==>
              forall x :: x in items ==> AtMostOne(process(x))
  {
    if items != [] {
      SurvivorsAreResults(items[..|items| - 1], process);
      assert items == items[..|items| - 1] + [items[|items| - 1]];
      assert items[|items| - 1] in items;
    }
  }

  lemma {:induction false} ItemTotalNumbered<T>(id: string, batches: seq<seq<T>>, first: nat)
    ensures ItemTotal(NumberedFrom(id, batches, first)) == |Chunks.Concat(batches)|
  {
    if batches != [] {
      var init := batches[..|batches| - 1];
      ItemTotalNumbered(id, init, first);
      var subs := NumberedFrom(id, batches, first);
      assert subs[..|subs| - 1] == NumberedFrom(id, init, first);
    }
  }

  lemma {:induction false} ItemTotalConcat<T>(a: seq<SubBatch<T>>, b: seq<SubBatch<T>>)
    ensures ItemTotal(a + b) == ItemTotal(a) + ItemTotal(b)
  {
    if b == [] {
      assert a + b == a;
    } else {
      assert (a + b)[..|a + b| - 1] == a + b[..|b| - 1];
      ItemTotalConcat(a, b[..|b| - 1]);
    }
  }

  // A published sub-batch of a batch sent under an id has that id, a number, and some items.
  lemma NumberedSub<T>(id: string, items: seq<T>, max: nat, sizer: T -> nat, sub: SubBatch<T>)
    requires forall x :: x in items ==> sizer(x) > 0
    requires sub in NumberedFrom(id, Chunks.BatchesOf(items, max, sizer), 0)
    ensures sub.items != [] && exists i: nat :: sub.id == Numbered(id, i)
  {
    var batches := Chunks.BatchesOf(items, max, sizer);
    Chunks.BatchesComplete(items, max, sizer);
    var subs := NumberedFrom(id, batches, 0);
    var i :| 0 <= i < |subs| && subs[i] == sub;
    if batches != [] { NumberedFromAt(id, batches, 0, 0); }
    NumberedFromAt(id, batches, 0, i);
    assert batches[i] in batches;
    assert sub.id == Numbered(id, i);
  }

  lemma NumberedDistinct<T>(id: string, batches: seq<seq<T>>)
    ensures NoRepeats(NumberedFrom(id, batches, 0))
  {
    var subs := NumberedFrom(id, batches, 0);
    if batches != [] { NumberedFromAt(id, batches, 0, 0); }
    forall i, j | 0 <= i < j < |subs| ensures subs[i].id != subs[j].id {
      NumberedFromAt(id, batches, 0, i);
      NumberedFromAt(id, batches, 0, j);
      if subs[i].id == subs[j].id { NumberedInjective(id, i, j); }
    }
  }

  // ---- A stage with a single sender ----

  function SingleOutputs<U, V>(data: map<string, seq<U>>, process: U -> Results<V>, namespace: string, max: nat,
                               sizer: V -> nat): map<string, seq<SubBatch<V>>>
  {
    map id | id in data ::
      NumberedFrom(NamespacedID(id, namespace), Chunks.BatchesOf(ResultsOf(data[id], process), max, sizer), 0)
  }

  function EngineRecords<U, V>(data: map<string, seq<U>>, process: U -> Results<V>): map<string, BatchRecord> {
    map id | id in data :: BatchRecord(id, |data[id]|, SurvivorCount(data[id], process))
  }

  // The records that the engines of the next stage make of the sub-batches they receive count exactly
  // the items handed over, so that these engines are fed as the barrier assumes.
  lemma EnginesFeed<U, V>(parts: seq<Part>, n: Truth<V>, cfg: Config, data: map<string, seq<U>>,
                          process: U -> Results<V>)
    requires Apart(parts) && cfg.expected == |parts| >= 1 && n.eofs == AllEOFs(parts)
    requires data.Keys == AllItems(parts).Keys && forall id :: id in data ==> |data[id]| == AllItems(parts)[id]
    requires n.records == EngineRecords(data, process) && n.outputs.Keys == data.Keys
    ensures Feeds(parts, n, cfg)
  {
    assert Processed(n.records) == AllItems(parts);
    forall id | id in n.records && n.records[id].processed == 0 ensures n.records[id].survivors == 0 {
      assert data[id] == [];
    }
  }

  ghost predicate PositiveResults<U, V>(items: seq<U>, process: U -> Results<V>, sizer: V -> nat) {
    forall r :: r in ResultsOf(items, process) ==> sizer(r) > 0
  }

  ghost predicate StageInputs<U, V>(data: map<string, seq<U>>, process: U -> Results<V>, sizer: V -> nat) {
    forall id :: id in data ==>
      PositiveResults(data[id], process, sizer) && forall x :: x in data[id] ==> AtMostOne(process(x))
  }

  lemma SingleOutputsDistinct<U, V>(data: map<string, seq<U>>, process: U -> Results<V>, namespace: string, max: nat,
                                    sizer: V -> nat)
    requires StageInputs(data, process, sizer)
    ensures DistinctIds(SingleOutputs(data, process, namespace, max, sizer))
  {
    var outputs: map<string, seq<SubBatch<V>>> := SingleOutputs(data, process, namespace, max, sizer);
    forall id | id in outputs ensures NoRepeats(outputs[id]) {
      NumberedDistinct(NamespacedID(id, namespace), Chunks.BatchesOf(ResultsOf(data[id], process), max, sizer));
    }
    forall p, q, k | p in outputs && q in outputs && Named(outputs[p], k) && Named(outputs[q], k) ensures p == q {
      var x :| x in outputs[p] && x.id == k;
      var y :| y in outputs[q] && y.id == k;
      NumberedSub(NamespacedID(p, namespace), ResultsOf(data[p], process), max, sizer, x);
      NumberedSub(NamespacedID(q, namespace), ResultsOf(data[q], process), max, sizer, y);
      var i: nat :| x.id == Numbered(NamespacedID(p, namespace), i);
      var j: nat :| y.id == Numbered(NamespacedID(q, namespace), j);
      LineageInjective(namespace, p, i, q, j);
    }
  }

  // The outputs of a stage that counts what it publishes fit, so the handover above applies to it.
  lemma SingleOutputsFit<U, V>(t: Truth<V>, data: map<string, seq<U>>, process: U -> Results<V>, namespace: string,
                               max: nat, sizer: V -> nat)
    requires StageInputs(data, process, sizer)
    requires t.records == EngineRecords(data, process)
    requires t.outputs == SingleOutputs(data, process, namespace, max, sizer)
    ensures OutputsFit(t)
  {
    SingleOutputsDistinct(data, process, namespace, max, sizer);
    forall id | id in data ensures ItemTotal(t.outputs[id]) == t.records[id].survivors {
      var results := ResultsOf(data[id], process);
      SurvivorsAreResults(data[id], process);
      ItemTotalNumbered(NamespacedID(id, namespace), Chunks.BatchesOf(results, max, sizer), 0);
      Chunks.BatchesComplete(results, max, sizer);
    }
    forall id, sub | id in t.outputs && sub in t.outputs[id] ensures sub.items != [] {
      NumberedSub(NamespacedID(id, namespace), ResultsOf(data[id], process), max, sizer, sub);
    }
  }

  // ---- A stage with a routed sender ----

  function Route(exchange: string, k: nat): string { exchange + "." + Decimal(k) }

  function RoutedID(id: string, namespace: string, exchange: string, k: nat): string {
    NamespacedID(id, namespace + "-" + Route(exchange, k))
  }

  // What is published for one batch over the route numbered k.
  function RouteOutputs<V>(id: string, items: seq<RoutedItem<V>>, namespace: string, exchange: string, k: nat,
                           max: nat, sizer: V -> nat): seq<SubBatch<V>>
  {
    NumberedFrom(RoutedID(id, namespace, exchange, k),
                 Chunks.BatchesOf(ForRoute(items, Route(exchange, k)), max, sizer), 0)
  }

  // What is published for one batch over the first n routes of the exchange.
  function RoutesOutputs<V>(id: string, items: seq<RoutedItem<V>>, namespace: string, exchange: string, n: nat,
                            max: nat, sizer: V -> nat): seq<SubBatch<V>>
  {
    if n == 0 then []
    else RoutesOutputs(id, items, namespace, exchange, n - 1, max, sizer)
         + RouteOutputs(id, items, namespace, exchange, n - 1, max, sizer)
  }

  lemma RouteInjective(exchange: string, j: nat, k: nat)
    requires Route(exchange, j) == Route(exchange, k)
    ensures j == k
  {
    assert Decimal(j) == Route(exchange, j)[|exchange| + 1..] == Route(exchange, k)[|exchange| + 1..] == Decimal(k);
    DecimalInjective(j, k);
  }

  // Parent id, route and number can all be read back from a published id.
  lemma RoutedLineageInjective(namespace: string, exchange: string, p: string, j: nat, m: nat, q: string, k: nat,
                               n: nat)
    requires Numbered(RoutedID(p, namespace, exchange, j), m) == Numbered(RoutedID(q, namespace, exchange, k), n)
    ensures p == q && j == k && m == n
  {
    NumberedSplits(RoutedID(p, namespace, exchange, j), m, RoutedID(q, namespace, exchange, k), n);
    var mid := "-" + namespace + "-" + exchange;
    assert RoutedID(p, namespace, exchange, j) == p + mid + ['.'] + Decimal(j);
    assert RoutedID(q, namespace, exchange, k) == q + mid + ['.'] + Decimal(k);
    DecimalFree(j, '.');
    DecimalFree(k, '.');
    LastSeparator('.', p + mid, Decimal(j), q + mid, Decimal(k));
    DecimalInjective(j, k);
    assert p == (p + mid)[..|p|] && q == (q + mid)[..|q|];
  }

  ghost predicate RoutedSub(id: string, namespace: string, exchange: string, n: nat, sub: string) {
    exists k: nat, i: nat :: k < n && sub == Numbered(RoutedID(id, namespace, exchange, k), i)
  }

  lemma {:induction false} ForRouteMember<V>(items: seq<RoutedItem<V>>, route: string, x: V)
    ensures x in ForRoute(items, route) <==> RoutedItem(route, x) in items
  {
    if items != [] {
      ForRouteMember(items[..|items| - 1], route, x);
      assert items == items[..|items| - 1] + [items[|items| - 1]];
    }
  }

  ghost predicate PositiveItems<V>(items: seq<RoutedItem<V>>, sizer: V -> nat) {
    forall r :: r in items ==> sizer(r.item) > 0
  }

  lemma RouteOutputsSub<V>(id: string, items: seq<RoutedItem<V>>, namespace: string, exchange: string, k: nat,
                           max: nat, sizer: V -> nat, sub: SubBatch<V>)
    requires PositiveItems(items, sizer) && sub in RouteOutputs(id, items, namespace, exchange, k, max, sizer)
    ensures sub.items != [] && exists i: nat :: sub.id == Numbered(RoutedID(id, namespace, exchange, k), i)
  {
    forall x | x in ForRoute(items, Route(exchange, k)) ensures sizer(x) > 0 {
      ForRouteMember(items, Route(exchange, k), x);
    }
    NumberedSub(RoutedID(id, namespace, exchange, k), ForRoute(items, Route(exchange, k)), max, sizer, sub);
  }

  lemma {:induction false} RoutesOutputsSub<V>(id: string, items: seq<RoutedItem<V>>, namespace: string,
                                               exchange: string, n: nat, max: nat, sizer: V -> nat, sub: SubBatch<V>)
    requires PositiveItems(items, sizer)
    requires sub in RoutesOutputs(id, items, namespace, exchange, n, max, sizer)
    ensures sub.items != [] && RoutedSub(id, namespace, exchange, n, sub.id)
  {
    if sub in RoutesOutputs(id, items, namespace, exchange, n - 1, max, sizer) {
      RoutesOutputsSub(id, items, namespace, exchange, n - 1, max, sizer, sub);
    } else {
      RouteOutputsSub(id, items, namespace, exchange, n - 1, max, sizer, sub);
    }
  }

  lemma RouteNoRepeats<V>(id: string, items: seq<RoutedItem<V>>, namespace: string, exchange: string, n: nat, max: nat,
                          sizer: V -> nat)
    ensures NoRepeats(RouteOutputs(id, items, namespace, exchange, n, max, sizer))
  {
    NumberedDistinct(RoutedID(id, namespace, exchange, n),
                     Chunks.BatchesOf(ForRoute(items, Route(exchange, n)), max, sizer));
  }

  lemma {:induction false} RoutesOutputsNoRepeats<V>(id: string, items: seq<RoutedItem<V>>, namespace: string,
                                                     exchange: string, n: nat, max: nat, sizer: V -> nat)
    requires PositiveItems(items, sizer)
    ensures NoRepeats(RoutesOutputs(id, items, namespace, exchange, n, max, sizer))
  {
    if n > 0 {
      RoutesOutputsNoRepeats(id, items, namespace, exchange, n - 1, max, sizer);
      RouteNoRepeats(id, items, namespace, exchange, n - 1, max, sizer);
      OneMoreApart(id, items, namespace, exchange, n - 1, max, sizer);
    }
  }

  lemma OneMoreApart<V>(id: string, items: seq<RoutedItem<V>>, namespace: string, exchange: string, n: nat, max: nat,
                        sizer: V -> nat)
    requires PositiveItems(items, sizer)
    requires NoRepeats(RoutesOutputs(id, items, namespace, exchange, n, max, sizer))
    requires NoRepeats(RouteOutputs(id, items, namespace, exchange, n, max, sizer))
    ensures NoRepeats(RoutesOutputs(id, items, namespace, exchange, n, max, sizer)
                      + RouteOutputs(id, items, namespace, exchange, n, max, sizer))
  {
    var a := RoutesOutputs(id, items, namespace, exchange, n, max, sizer);
    var b := RouteOutputs(id, items, namespace, exchange, n, max, sizer);
    forall x, y | x in a && y in b ensures x.id != y.id {
      RoutesApart(id, items, namespace, exchange, n, max, sizer, x, y);
    }
    NoRepeatsInBoth(a, b);
  }

  lemma NoRepeatsInBoth<T>(a: seq<SubBatch<T>>, b: seq<SubBatch<T>>)
    requires NoRepeats(a) && NoRepeats(b) && forall x, y :: x in a && y in b ==> x.id != y.id
    ensures NoRepeats(a + b)
  {
    forall i, j | 0 <= i < j < |a + b| ensures (a + b)[i].id != (a + b)[j].id {
      if i < |a| <= j {
        assert a[i] in a && b[j - |a|] in b;
      }
    }
  }

  lemma RoutesApart<V>(id: string, items: seq<RoutedItem<V>>, namespace: string, exchange: string, n: nat, max: nat,
                       sizer: V -> nat, x: SubBatch<V>, y: SubBatch<V>)
    requires PositiveItems(items, sizer)
    requires x in RoutesOutputs(id, items, namespace, exchange, n, max, sizer)
    requires y in RouteOutputs(id, items, namespace, exchange, n, max, sizer)
    ensures x.id != y.id
  {
    RoutesOutputsSub(id, items, namespace, exchange, n, max, sizer, x);
    RouteOutputsSub(id, items, namespace, exchange, n, max, sizer, y);
    var k: nat, i: nat :| k < n && x.id == Numbered(RoutedID(id, namespace, exchange, k), i);
    var j: nat :| y.id == Numbered(RoutedID(id, namespace, exchange, n), j);
    if x.id == y.id { RoutedLineageInjective(namespace, exchange, id, k, i, id, n, j); }
  }

  // How many items go to the first n routes.
  function RoutedTotal<V>(items: seq<RoutedItem<V>>, exchange: string, n: nat): nat {
    if n == 0 then 0 else RoutedTotal(items, exchange, n - 1) + |ForRoute(items, Route(exchange, n - 1))|
  }

  lemma OneMoreForRoute<V>(items: seq<RoutedItem<V>>, item: RoutedItem<V>, route: string)
    ensures |ForRoute(items + [item], route)| == |ForRoute(items, route)| + if item.route == route then 1 else 0
  {
    assert (items + [item])[..|items|] == items;
  }

  lemma {:induction false} OneMoreRouted<V>(items: seq<RoutedItem<V>>, item: RoutedItem<V>, exchange: string, n: nat,
                                            k: nat)
    requires item.route == Route(exchange, k)
    ensures RoutedTotal(items + [item], exchange, n) == RoutedTotal(items, exchange, n) + (if k < n then 1 else 0)
  {
    if n > 0 {
      OneMoreRouted(items, item, exchange, n - 1, k);
      OneMoreForRoute(items, item, Route(exchange, n - 1));
      if item.route == Route(exchange, n - 1) { RouteInjective(exchange, k, n - 1); }
    }
  }

  ghost predicate IsRoute(route: string, exchange: string, n: nat) {
    exists k: nat :: k < n && route == Route(exchange, k)
  }

  ghost predicate WithinRoutes<V>(items: seq<RoutedItem<V>>, exchange: string, n: nat) {
    forall r :: r in items ==> IsRoute(r.route, exchange, n)
  }

  lemma {:induction false} EveryItemRouted<V>(items: seq<RoutedItem<V>>, exchange: string, n: nat)
    requires WithinRoutes(items, exchange, n)
    ensures RoutedTotal(items, exchange, n) == |items|
  {
    if items == [] {
      NothingRouted<V>(exchange, n);
    } else {
      var init, last := items[..|items| - 1], items[|items| - 1];
      assert items == init + [last];
      assert IsRoute(last.route, exchange, n);
      EveryItemRouted(init, exchange, n);
      var k: nat :| k < n && last.route == Route(exchange, k);
      OneMoreRouted(init, last, exchange, n, k);
    }
  }

  lemma {:induction false} NothingRouted<V>(exchange: string, n: nat)
    ensures RoutedTotal<V>([], exchange, n) == 0
  {
    if n > 0 { NothingRouted<V>(exchange, n - 1); }
  }

  lemma OneRouteTotal<V>(id: string, items: seq<RoutedItem<V>>, namespace: string, exchange: string, k: nat, max: nat,
                         sizer: V -> nat)
    requires PositiveItems(items, sizer)
    ensures ItemTotal(RouteOutputs(id, items, namespace, exchange, k, max, sizer)) == |ForRoute(items, Route(exchange, k))|
  {
    var route := Route(exchange, k);
    forall x | x in ForRoute(items, route) ensures sizer(x) > 0 {
      ForRouteMember(items, route, x);
    }
    ItemTotalNumbered(RoutedID(id, namespace, exchange, k), Chunks.BatchesOf(ForRoute(items, route), max, sizer), 0);
    Chunks.BatchesComplete(ForRoute(items, route), max, sizer);
  }

  lemma {:induction false} RoutesOutputsTotal<V>(id: string, items: seq<RoutedItem<V>>, namespace: string,
                                                 exchange: string, n: nat, max: nat, sizer: V -> nat)
    requires PositiveItems(items, sizer)
    ensures ItemTotal(RoutesOutputs(id, items, namespace, exchange, n, max, sizer)) == RoutedTotal(items, exchange, n)
  {
    if n > 0 {
      var a := RoutesOutputs(id, items, namespace, exchange, n - 1, max, sizer);
      var b := RouteOutputs(id, items, namespace, exchange, n - 1, max, sizer);
      RoutesOutputsTotal(id, items, namespace, exchange, n - 1, max, sizer);
      assert ItemTotal(a + b) == RoutedTotal(items, exchange, n) by {
        OneRouteTotal(id, items, namespace, exchange, n - 1, max, sizer);
        ItemTotalConcat(a, b);
      }
    }
  }

  lemma SameParent(namespace: string, exchange: string, n: nat, p: string, q: string, sub: string)
    requires RoutedSub(p, namespace, exchange, n, sub) && RoutedSub(q, namespace, exchange, n, sub)
    ensures p == q
  {
    var j: nat, m: nat :| j < n && sub == Numbered(RoutedID(p, namespace, exchange, j), m);
    var j': nat, m': nat :| j' < n && sub == Numbered(RoutedID(q, namespace, exchange, j'), m');
    RoutedLineageInjective(namespace, exchange, p, j, m, q, j', m');
  }

  ghost predicate RoutedInputs<U, V>(data: map<string, seq<U>>, process: U -> Results<RoutedItem<V>>, exchange: string,
                                     n: nat, sizer: V -> nat)
  {
    forall id :: id in data ==>
      && PositiveItems(ResultsOf(data[id], process), sizer)
      && WithinRoutes(ResultsOf(data[id], process), exchange, n)
      && forall x :: x in data[id] ==> AtMostOne(process(x))
  }

  ghost predicate IsRoutedStage<U, V>(t: Truth<V>, data: map<string, seq<U>>, process: U -> Results<RoutedItem<V>>,
                                      namespace: string, exchange: string, n: nat, max: nat, sizer: V -> nat)
  {
    && t.records == EngineRecords(data, process)
    && t.outputs.Keys == data.Keys
    && forall id :: id in data ==>
         t.outputs[id] == RoutesOutputs(id, ResultsOf(data[id], process), namespace, exchange, n, max, sizer)
  }

  // The same for a stage that spreads its results over the routes of an exchange.
  lemma RoutedOutputsFit<U, V>(t: Truth<V>, data: map<string, seq<U>>, process: U -> Results<RoutedItem<V>>,
                               namespace: string, exchange: string, n: nat, max: nat, sizer: V -> nat)
    requires RoutedInputs(data, process, exchange, n, sizer)
    requires IsRoutedStage(t, data, process, namespace, exchange, n, max, sizer)
    ensures OutputsFit(t)
  {
    forall id | id in data
      ensures NoRepeats(t.outputs[id]) && ItemTotal(t.outputs[id]) == t.records[id].survivors
    {
      var results := ResultsOf(data[id], process);
      RoutesOutputsNoRepeats(id, results, namespace, exchange, n, max, sizer);
      SurvivorsAreResults(data[id], process);
      RoutesOutputsTotal(id, results, namespace, exchange, n, max, sizer);
      EveryItemRouted(results, exchange, n);
    }
    forall id, sub | id in data && sub in t.outputs[id]
      ensures sub.items != [] && RoutedSub(id, namespace, exchange, n, sub.id)
    {
      RoutesOutputsSub(id, ResultsOf(data[id], process), namespace, exchange, n, max, sizer, sub);
    }
    forall p, q, k | p in data && q in data && Named(t.outputs[p], k) && Named(t.outputs[q], k) ensures p == q {
      SameParent(namespace, exchange, n, p, q, k);
    }
  }
}
