// The items behind a state of the engine: those of the accepted batches, each batch once and up to
// its first refused item.
module AcceptedItems {
  import opened Checkpoint

  ghost predicate ItemByItem<S(!new), T(!new), C, M>(p: Processor<S, T, C, M>) {
    && (forall s :: p.process(s, []) == s)
    && forall s, a, b :: p.process(p.process(s, a), b) == p.process(s, a + b)
  }

  ghost function ItemsOf<S, T, C, M>(p: Processor<S, T, C, M>, data: map<string, seq<T>>, ids: seq<string>): seq<T> {
    if ids == [] then []
    else
      var id := ids[|ids| - 1];
      ItemsOf(p, data, ids[..|ids| - 1]) + (if id in data then Taken(p, data[id]) else [])
  }

  lemma {:induction false} FoldIsProcess<S(!new), T(!new), C, M>(p: Processor<S, T, C, M>, data: map<string, seq<T>>,
                                                                 ids: seq<string>)
    requires ItemByItem(p)
    ensures Fold(p, data, ids) == p.process(p.init, ItemsOf(p, data, ids))
  {
    if ids != [] {
      var init, id := ids[..|ids| - 1], ids[|ids| - 1];
      FoldIsProcess(p, data, init);
      if id in data {
        assert p.process(p.process(p.init, ItemsOf(p, data, init)), Taken(p, data[id])) ==
               p.process(p.init, ItemsOf(p, data, init) + Taken(p, data[id]));
      } else {
        assert ItemsOf(p, data, ids) == ItemsOf(p, data, init);
      }
    }
  }

  // At any moment of any run, the state means what processing the accepted items in one go means.
  lemma StateIsOfItems<S(!new), T(!new), C(!new), M(!new)>(p: Processor<S, T, C, M>, data: map<string, seq<T>>,
                                                           every: nat, states: seq<System<S, C>>,
                                                           steps: seq<Step<S, C>>, i: nat)
    requires Lawful(p) && ItemByItem(p) && Admitted(p, data) && IsSoundRun(p, data, every, states, steps)
             && i < |states|
    ensures NoRepeats(Accepted(states[i]))
    ensures p.sem(states[i].proc) == p.sem(p.process(p.init, ItemsOf(p, data, Accepted(states[i]))))
  {
    ExactlyOnce(p, data, every, states, steps, i);
    FoldIsProcess(p, data, Accepted(states[i]));
  }
}
