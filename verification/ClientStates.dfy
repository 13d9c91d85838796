// What a replica remembers about one client, as the object that the coordinator updates.
module ClientStates {
  import opened MapOrder
  import opened Sums
  import opened EofProtocol

  lemma {:induction false} MergeSnoc<V>(acc: map<string, V>, peers: map<nat, map<string, V>>, order: seq<nat>, p: nat)
    requires p in peers
    ensures Merge(acc, peers, order + [p]) == peers[p] + Merge(acc, peers, order)
    decreases |order|
  {
    if order == [] {
      assert ([p])[1..] == [];
      assert order + [p] == [p];
      assert Merge(peers[p] + acc, peers, []) == peers[p] + acc;
    } else {
      assert (order + [p])[1..] == order[1..] + [p];
      MergeSnoc(if order[0] in peers then peers[order[0]] + acc else acc, peers, order[1..], p);
    }
  }

  lemma MergeNext<V>(acc: map<string, V>, peers: map<nat, map<string, V>>, order: seq<nat>, i: nat)
    requires i < |order| && order[i] in peers
    ensures Merge(acc, peers, order[..i + 1]) == peers[order[i]] + Merge(acc, peers, order[..i])
  {
    assert order[..i + 1] == order[..i] + [order[i]];
    MergeSnoc(acc, peers, order[..i], order[i]);
  }

  lemma {:induction false} MergeKeys<V>(acc: map<string, V>, peers: map<nat, map<string, V>>, order: seq<nat>, k: string)
    ensures k in Merge(acc, peers, order) <==> k in acc || exists p :: p in order && p in peers && k in peers[p]
    decreases |order|
  {
    if order != [] {
      MergeKeys(if order[0] in peers then peers[order[0]] + acc else acc, peers, order[1..], k);
      assert order == [order[0]] + order[1..];
    }
  }

  lemma MergeKnows<V>(own: map<string, V>, peers: map<nat, map<string, V>>, order: seq<nat>)
    requires Enumerates(order, peers.Keys)
    ensures Merge(own, peers, order).Keys == UnionKeys(own, peers)
  {
    forall k ensures k in Merge(own, peers, order) <==> k in UnionKeys(own, peers) {
      MergeKeys(own, peers, order, k);
    }
  }

  // Every key known anywhere, once: with our own value if we have one, else with that of some peer.
  ghost predicate IsUnion<V(!new)>(all: map<string, V>, own: map<string, V>, peers: map<nat, map<string, V>>) {
    && all.Keys == UnionKeys(own, peers)
    && (forall k :: k in own ==> k in all && all[k] == own[k])
    && (forall k :: k in all && k !in own ==> exists p :: p in peers && k in peers[p] && peers[p][k] == all[k])
  }

  lemma {:induction false} MergeValues<V(!new)>(acc: map<string, V>, peers: map<nat, map<string, V>>, order: seq<nat>, k: string)
    requires k in Merge(acc, peers, order)
    ensures k in acc ==> Merge(acc, peers, order)[k] == acc[k]
    ensures k !in acc ==> exists p :: p in peers && k in peers[p] && peers[p][k] == Merge(acc, peers, order)[k]
    decreases order
  {
    if order != [] {
      var first := if order[0] in peers then peers[order[0]] + acc else acc;
      MergeValues(first, peers, order[1..], k);
    }
  }

  lemma MergeUnites<V(!new)>(own: map<string, V>, peers: map<nat, map<string, V>>, order: seq<nat>)
    requires Enumerates(order, peers.Keys)
    ensures IsUnion(Merge(own, peers, order), own, peers)
  {
    MergeKnows(own, peers, order);
    forall k | k in Merge(own, peers, order)
      ensures k in own ==> Merge(own, peers, order)[k] == own[k]
      ensures k !in own ==> exists p :: p in peers && k in peers[p] && peers[p][k] == Merge(own, peers, order)[k]
    {
      MergeValues(own, peers, order, k);
    }
  }

  lemma UnionNext<V>(m: map<string, V>, union: map<string, V>, order: seq<string>, i: nat)
    requires Enumerates(order, m.Keys) && i < |order|
    ensures var all := Upto(m, order, i) + union;
            order[i] in m && Upto(m, order, i + 1) + union == if order[i] in all then all else all[order[i] := m[order[i]]]
  {
    UptoNext(m, order, i);
  }

  // The running sums and the set of counted ids stand for the records in all.
  ghost predicate Counts(all: map<string, BatchRecord>, processed: nat, survivors: nat, counted: set<string>) {
    counted == all.Keys && processed == Sum(Processed(all)) && survivors == Sum(Survivors(all))
  }

  lemma CountOne(all: map<string, BatchRecord>, processed: nat, survivors: nat, counted: set<string>,
                 k: string, r: BatchRecord)
    requires Counts(all, processed, survivors, counted) && k !in counted
    ensures Counts(all[k := r], processed + r.processed, survivors + r.survivors, counted + {k})
  {
    SumAdd(Processed(all), k, r.processed);
    SumAdd(Survivors(all), k, r.survivors);
    assert Processed(all[k := r]) == Processed(all)[k := r.processed];
    assert Survivors(all[k := r]) == Survivors(all)[k := r.survivors];
  }

  class ClientState {
    var ownBatches: map<string, BatchRecord>
    var peerBatches: map<nat, map<string, BatchRecord>>
    var ownEOFs: map<string, nat>
    var peerEOFs: map<nat, map<string, nat>>
    var lastEOFID: string
    var flushed: bool

    ghost function View(): ClientView
      reads this
    {
      ClientView(ownBatches, peerBatches, ownEOFs, peerEOFs, lastEOFID, flushed)
    }

    constructor ()
      ensures View() == EMPTY_VIEW
    {
      ownBatches, peerBatches, ownEOFs, peerEOFs := map[], map[], map[], map[];
      lastEOFID, flushed := "", false;
    }

    predicate HasOwnBatch(batchID: string)
      reads this
    {
      batchID in ownBatches
    }

    predicate HasOwnEOF(eofID: string)
      reads this
    {
      eofID in ownEOFs
    }

    predicate HasPeerEOF(peerID: nat, eofID: string)
      reads this
    {
      peerID in peerEOFs && eofID in peerEOFs[peerID]
    }

    method AddOwnBatch(record: BatchRecord)
      modifies this
      ensures View() == old(View()).(ownBatches := old(ownBatches)[record.batchID := record])
    {
      ownBatches := ownBatches[record.batchID := record];
    }

    method AddPeerBatch(peerID: nat, record: BatchRecord)
      modifies this
      ensures View() == old(View()).(peerBatches := AddPeer(old(peerBatches), peerID, record.batchID, record))
    {
      if peerID !in peerBatches {
        peerBatches := peerBatches[peerID := map[]];
      }
      peerBatches := peerBatches[peerID := peerBatches[peerID][record.batchID := record]];
    }

    method AddOwnEOF(eofID: string, expectedTotal: nat)
      modifies this
      ensures View() == Refreshed(old(View()).(ownEOFs := old(ownEOFs)[eofID := expectedTotal]))
    {
      ownEOFs := ownEOFs[eofID := expectedTotal];
      assert eofID in KnownEOFs(View());
      GetLastEOFID();
    }

    method AddPeerEOF(peerID: nat, eofID: string, expectedTotal: nat)
      modifies this
      ensures View() == Refreshed(old(View()).(peerEOFs := AddPeer(old(peerEOFs), peerID, eofID, expectedTotal)))
    {
      if peerID !in peerEOFs {
        peerEOFs := peerEOFs[peerID := map[]];
      }
      var eofs: map<string, nat> := peerEOFs[peerID][eofID := expectedTotal];
      peerEOFs := peerEOFs[peerID := eofs];
      assert peerEOFs == AddPeer(old(peerEOFs), peerID, eofID, expectedTotal);
      assert peerID in peerEOFs.Keys && eofID in peerEOFs[peerID].Keys;
      assert eofID in KnownEOFs(View());
      GetLastEOFID();
    }

    // Processed and survivor totals over the union of the batch ids, each id counted once.
    method Totals() returns (processed: nat, survivors: nat, ghost order: seq<nat>)
      ensures Enumerates(order, peerBatches.Keys)
      ensures processed == ProcessedTotal(View(), order) && survivors == SurvivorTotal(View(), order)
      ensures exists all :: IsUnion(all, ownBatches, peerBatches) && processed == Sum(Processed(all)) && survivors == Sum(Survivors(all))
    {
      var counted: set<string>;
      processed, survivors, counted := CountOwn();
      ghost var union := ownBatches;
      var peers := AnyOrder(peerBatches.Keys);
      order := peers;
      for i := 0 to |peers|
        invariant union == Merge(ownBatches, peerBatches, peers[..i])
        invariant Counts(union, processed, survivors, counted)
      {
        assert peers[i] in peers;
        MergeNext(ownBatches, peerBatches, peers, i);
        processed, survivors, counted := CountPeer(peerBatches[peers[i]], processed, survivors, counted, union);
        union := peerBatches[peers[i]] + union;
      }
      assert peers[..|peers|] == peers;
      MergeUnites(ownBatches, peerBatches, peers);
    }

    method CountOwn() returns (processed: nat, survivors: nat, counted: set<string>)
      ensures Counts(ownBatches, processed, survivors, counted)
    {
      var keys := AnyOrder(ownBatches.Keys);
      processed, survivors, counted := 0, 0, {};
      UptoAll(ownBatches, keys);
      for i := 0 to |keys|
        invariant Counts(Upto(ownBatches, keys, i), processed, survivors, counted)
      {
        UptoNext(ownBatches, keys, i);
        var batchID, record := keys[i], ownBatches[keys[i]];
        CountOne(Upto(ownBatches, keys, i), processed, survivors, counted, batchID, record);
        counted := counted + {batchID};
        processed := processed + record.processed;
        survivors := survivors + record.survivors;
      }
    }

    // The records of one peer, without those whose id is counted already.
    static method CountPeer(batches: map<string, BatchRecord>, p: nat, s: nat, c: set<string>,
                            ghost union: map<string, BatchRecord>)
      returns (processed: nat, survivors: nat, counted: set<string>)
      requires Counts(union, p, s, c)
      ensures Counts(batches + union, processed, survivors, counted)
    {
      var keys := AnyOrder(batches.Keys);
      processed, survivors, counted := p, s, c;
      UptoAll(batches, keys);
      assert map[] + union == union;
      for i := 0 to |keys|
        invariant Counts(Upto(batches, keys, i) + union, processed, survivors, counted)
      {
        UnionNext(batches, union, keys, i);
        var batchID, record := keys[i], batches[keys[i]];
        if batchID in counted {
          continue;
        }
        CountOne(Upto(batches, keys, i) + union, processed, survivors, counted, batchID, record);
        counted := counted + {batchID};
        processed := processed + record.processed;
        survivors := survivors + record.survivors;
      }
    }

    // The distinct EOF ids known, and the sum of their totals.
    method EofTotals() returns (count: nat, expectedTotal: nat, ghost order: seq<nat>)
      ensures count == |KnownEOFs(View())|
      ensures Enumerates(order, peerEOFs.Keys) && expectedTotal == ExpectedTotal(View(), order)
      ensures exists all: map<string, nat> :: IsUnion(all, ownEOFs, peerEOFs) && expectedTotal == Sum(all)
    {
      var counted := ownEOFs;
      var peers := AnyOrder(peerEOFs.Keys);
      order := peers;
      for i := 0 to |peers|
        invariant counted == Merge(ownEOFs, peerEOFs, peers[..i])
      {
        assert peers[i] in peers;
        MergeNext(ownEOFs, peerEOFs, peers, i);
        counted := AddUncounted(peerEOFs[peers[i]], counted);
      }
      assert peers[..|peers|] == peers;
      MergeKnows(ownEOFs, peerEOFs, peers);
      MergeUnites(ownEOFs, peerEOFs, peers);
      assert |counted| == |counted.Keys|;
      count := |counted|;
      expectedTotal := Added(counted);
    }

    static method AddUncounted(eofs: map<string, nat>, c: map<string, nat>) returns (counted: map<string, nat>)
      ensures counted == eofs + c
    {
      var keys := AnyOrder(eofs.Keys);
      counted := c;
      UptoAll(eofs, keys);
      for j := 0 to |keys|
        invariant counted == Upto(eofs, keys, j) + c
      {
        UnionNext(eofs, c, keys, j);
        if keys[j] in counted { continue; }
        counted := counted[keys[j] := eofs[keys[j]]];
      }
    }

    static method Added(m: map<string, nat>) returns (total: nat)
      ensures total == Sum(m)
    {
      var keys := AnyOrder(m.Keys);
      total := 0;
      UptoAll(m, keys);
      for i := 0 to |keys|
        invariant total == Sum(Upto(m, keys, i))
      {
        UptoNext(m, keys, i);
        SumAdd(Upto(m, keys, i), keys[i], m[keys[i]]);
        total := total + m[keys[i]];
      }
    }

    method HasAllEOFs(expectedEOFs: nat) returns (all: bool)
      ensures all == EofProtocol.HasAllEOFs(View(), expectedEOFs)
    {
      var count, _, _ := EofTotals();
      all := count >= expectedEOFs;
    }

    // o tells in which orders the maps were visited.
    method IsReadyToFlush(expectedEOFs: nat, ghost o: Orders) returns (ready: bool, ghost o': Orders)
      requires ValidOrders(View(), o)
      ensures ValidOrders(View(), o') && o' == o.(processed := o'.processed, totals := o'.totals)
      ensures ready == Ready(View(), expectedEOFs, o')
      ensures ready ==> !flushed && EofProtocol.HasAllEOFs(View(), expectedEOFs)
    {
      o' := o;
      if flushed { return false, o'; }
      var all := HasAllEOFs(expectedEOFs);
      if !all { return false, o'; }
      var processed, _, peers := Totals();
      var _, expectedTotal, eofPeers := EofTotals();
      o' := o.(processed := peers, totals := eofPeers);
      ready := processed >= expectedTotal;
    }

    // The id that sort.Strings puts last.
    method GetLastEOFID()
      requires KnownEOFs(View()) != {}
      modifies this`lastEOFID
      ensures View() == Refreshed(old(View()))
    {
      var ids := AnyOrder(ownEOFs.Keys);
      ghost var known := ownEOFs.Keys;
      var peers := AnyOrder(peerEOFs.Keys);
      for i := 0 to |peers|
        invariant unchanged(this)
        invariant forall k :: k in ids <==> k in ownEOFs || exists p :: p in peers[..i] && p in peerEOFs && k in peerEOFs[p]
      {
        assert peers[i] in peers;
        assert peers[..i + 1] == peers[..i] + [peers[i]];
        var more := AnyOrder(peerEOFs[peers[i]].Keys);
        ids := ids + more;
      }
      assert peers[..|peers|] == peers;
      ghost var all := set k | k in ids;
      assert all == KnownEOFs(View());
      assert ids != [];
      lastEOFID := Greatest(ids);
      LastIsUnique(lastEOFID, Last(all), all);
    }

    static method Greatest(ids: seq<string>) returns (last: string)
      requires ids != []
      ensures IsLast(last, set k | k in ids)
    {
      last := ids[0];
      LeqTotal(last, last);
      for i := 1 to |ids|
        invariant last in ids && forall j :: 0 <= j < i ==> Leq(ids[j], last)
      {
        LeqTotal(last, ids[i]);
        LeqTotal(ids[i], ids[i]);
        if Leq(last, ids[i]) {
          forall j | 0 <= j < i ensures Leq(ids[j], ids[i]) {
            LeqTransitive(ids[j], last, ids[i]);
          }
          last := ids[i];
        }
      }
    }
  }
}
