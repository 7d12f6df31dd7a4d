module Search {
  // The search loop: its variables as an object, its moves as methods, and the
  // answer it gives.

  import opened Histories
  import opened Entries
  import opened Links
  import opened LinkedLists
  import opened Bitsets
  import opened Searching
  import opened Checker

  datatype CallsEntry<S, V> = CallsEntry(entry: Node<V>, state: S)

  /** The history as a linked list behind a sentinel. */
  method LinkEntries<S(!new), I(!new), O(!new)>(history: seq<Entry<Value<I, O>>>, ghost t: Task<S, I, O>)
    returns (list: LinkedNodes<Value<I, O>>, headEntry: Node<Value<I, O>>, n: nat)
    requires WellFormed(history) && t.es == history && t.h == HistoryOf(history)
    requires t.configs == Reach(t.m, t.h, {}, t.m.init)
    ensures n == |history| / 2
    ensures fresh(list) && fresh(list.nodes) && NodesOf(list.nodes, t) && headEntry == list.nodes[0]
    ensures list.Valid() && Woven(list.links, []) && list.links == Untouched(|list.nodes|)
    ensures headEntry.next == At(list.nodes, 1)
  {
    list := LinkedNodes<Value<I, O>>.FromEntries(history);
    UntouchedIsWoven(|list.nodes|);
    var len := list.Len([]);
    n := len / 2;
    headEntry := new Node<Value<I, O>>(NoValue, null, -1, len);
    WellFormedIsReady(t);
    SentinelFirst(headEntry, list.nodes, t);
    PushedUntouched(|list.nodes|);
    list.PushFront(headEntry);
    UntouchedIsWoven(|list.nodes|);
  }

  class Run<S(!new), I(!new), O(!new)> {
    const m: Model<S, I, O>
    const computePartial: bool
    const list: LinkedNodes<Value<I, O>>
    const headEntry: Node<Value<I, O>>
    const linearized: Bitset

    var entry: Node?<Value<I, O>>
    var state: S
    var calls: seq<CallsEntry<S, Value<I, O>>>
    var cache: Cache<S>
    var longest: Longest

    ghost const t: Task<S, I, O>
    ghost const nodes: seq<Node<Value<I, O>>>
    ghost var path: seq<nat>                 // call positions on the stack
    ghost var states: seq<S>                 // the state at each level of the stack
    ghost var visited: set<(set<nat>, S)>    // everything ever cached
    ghost var e: nat                         // the position of `entry`

    ghost predicate Setting() {
      && NodesOf(nodes, t) && headEntry == nodes[0]
      && t.m == m && t.partial == computePartial && Dense(t.es)
    }

    /** The list is what remains when the calls of `p` and their returns are lifted out. */
    ghost predicate ListFor(p: seq<nat>)
      reads list, list.nodes
    {
      list.nodes == nodes && list.Valid() && Woven(list.links, Gone(t, p))
    }

    ghost predicate BitsFor(p: seq<nat>)
      reads linearized
    {
      linearized.Members() == t.Linear(p) && |t.es| / 2 <= 64 * |linearized.words|
    }

    ghost predicate CallAt(p: seq<nat>, st: seq<S>, k: nat)
      reads this`calls
    {
      k < |calls| && k < |p| && k < |st| && p[k] < |nodes| - 1 && calls[k] == CallsEntry(nodes[p[k] + 1], st[k])
    }

    ghost predicate StackFor(p: seq<nat>, st: seq<S>)
      reads this`calls, this`state
    {
      && |calls| == |p| == |st| - 1 && state == st[|p|]
      && (forall k {:trigger CallAt(p, st, k)} :: 0 <= k < |p| ==> CallAt(p, st, k))
    }

    ghost predicate CacheFor(v: set<(set<nat>, S)>)
      reads this`cache, linearized
    {
      Represents(cache, v, |linearized.words|) && v <= t.configs
    }

    /** Unless everything is linearized, `entry` is a record that is still open. */
    ghost predicate Here()
      reads this`entry, this`e, this`path, headEntry`next
    {
      headEntry.next != null ==>
          e < |t.es| && |nodes| == |t.es| + 1 && entry == nodes[e + 1] && t.Id(e) !in t.Linear(path)
    }

    ghost predicate Valid()
      reads this, list, list.nodes, linearized, headEntry
    {
      && Setting()
      && t.SearchInv(longest, path, states, visited, e)
      && ListFor(path) && BitsFor(path) && StackFor(path, states) && CacheFor(visited)
      && |longest| == |t.es| / 2
      && Here()
    }

    constructor (m: Model<S, I, O>, history: seq<Entry<Value<I, O>>>, computePartial: bool)
      requires WellFormed(history) && Dense(history)
      ensures t == Task(m, history, HistoryOf(history), computePartial, Reach(m, HistoryOf(history), {}, m.init))
      ensures this.m == m && this.computePartial == computePartial
      ensures Valid() && fresh(list) && fresh(nodes) && fresh(linearized)
    {
      ghost var t := Task(m, history, HistoryOf(history), computePartial, Reach(m, HistoryOf(history), {}, m.init));
      var list, headEntry, n := LinkEntries(history, t);
      var linearized := new Bitset(n);
      this.m, this.computePartial, this.t := m, computePartial, t;
      this.list, this.headEntry, this.linearized, this.nodes := list, headEntry, linearized, list.nodes;
      entry, state, calls, cache, longest := headEntry.next, m.init, [], map[], seq(n, _ => None);
      path, states, visited, e := [], [m.init], {}, 0;
      new;
      assert t.Linear(path) == {};
    }

    /** On to the next open record. */
    method Advance()
      requires Valid() && headEntry.next != null && t.IsCall(e)
      requires t.ChoiceDone(longest, t.Linear(path), state, t.Id(e))
      modifies this`path, this`states, this`entry, this`e
      ensures Valid() && path == old(path) && e > old(e)
    {
      ghost var position := OpenAfter(longest, path, states, e);
      t.LevelAdvances(longest, t.Linear(path), state, e, position);
      Settle(path, states, entry.next, position);
    }

    /** Fixes the place of the search once everything else is in order. */
    method Settle(ghost p: seq<nat>, ghost st: seq<S>, next: Node?<Value<I, O>>, ghost position: nat)
      requires Setting() && t.SearchInv(longest, p, st, visited, position) && |longest| == |t.es| / 2
      requires ListFor(p) && BitsFor(p) && StackFor(p, st) && CacheFor(visited)
      requires headEntry.next != null ==>
        position < |t.es| && next == nodes[position + 1] && t.Id(position) !in t.Linear(p)
      modifies this`path, this`states, this`entry, this`e
      ensures Valid() && path == p && states == st && e == position
    {
      path, states, entry, e := p, st, next, position;
    }

    /** After an open call there is another open record: at the latest its own return. */
    lemma OpenAfter(lg: Longest, p: seq<nat>, st: seq<S>, c: int) returns (position: nat)
      requires Setting() && t.StackDone(lg, p, st) && ListFor(p) && t.IsCall(c) && t.Id(c) !in t.Linear(p)
      ensures c < position < |t.es| && nodes[c + 1].next == nodes[position + 1] && t.Id(position) !in t.Linear(p)
      ensures forall j :: c < j < position ==> t.Id(j) in t.Linear(p)
    {
      position := list.links.next[c + 1] - 1;
      StackIsOut(t, lg, p, st);
      assert OutAt(t, Gone(t, p), t.Linear(p), c);
      NextIsOpen(t, list.links, Gone(t, p), t.Linear(p), c + 1);
      assert NodeAt(nodes, t, c);
      assert t.Id(RetOf(t, c)) == t.Id(c);
    }

    /** The first record of the list is the first one open; if there is none, everything is linearized. */
    lemma OpenFirst(lg: Longest, p: seq<nat>, st: seq<S>) returns (n: int)
      requires Setting() && t.StackDone(lg, p, st) && ListFor(p)
      ensures 0 < n <= |nodes| && headEntry.next == At(nodes, n)
      ensures n < |nodes| ==> t.Id(n - 1) !in t.Linear(p)
      ensures forall j :: 0 <= j < n - 1 && j < |t.es| ==> t.Id(j) in t.Linear(p)
    {
      n := list.links.next[0];
      StackIsOut(t, lg, p, st);
      NextIsOpen(t, list.links, Gone(t, p), t.Linear(p), 0);
    }

    method LiftFrom(call: Node<Value<I, O>>, ghost p: seq<nat>, ghost c: nat, ghost lg: Longest, ghost st: seq<S>)
      requires Setting() && t.StackDone(lg, p, st) && ListFor(p) && t.IsCall(c)
      requires t.Id(c) !in t.Linear(p) && call == nodes[c + 1]
      modifies nodes, list`links
      ensures ListFor(p + [c])
    {
      StackIsOut(t, lg, p, st);
      assert NodeAt(nodes, t, c);
      ghost var r := RetOf(t, c);
      assert OutAt(t, Gone(t, p), t.Linear(p), c) && OutAt(t, Gone(t, p), t.Linear(p), r);
      list.Lift(call, c + 1, r + 1, Gone(t, p));
      assert (p + [c])[..|p|] == p;
    }

    method UnliftTo(call: Node<Value<I, O>>, ghost p: seq<nat>, ghost c: nat)
      requires Setting() && ListFor(p + [c]) && t.IsCall(c) && call == nodes[c + 1]
      modifies nodes, list`links
      ensures ListFor(p)
    {
      assert NodeAt(nodes, t, c);
      assert (p + [c])[..|p|] == p;
      list.Unlift(call, c + 1, RetOf(t, c) + 1, Gone(t, p));
    }

    method PushCall(call: Node<Value<I, O>>, newState: S, ghost p: seq<nat>, ghost st: seq<S>, ghost c: nat)
      requires StackFor(p, st) && c < |nodes| - 1 && call == nodes[c + 1]
      modifies this`calls, this`state
      ensures StackFor(p + [c], st + [newState])
    {
      calls := calls + [CallsEntry(call, state)];
      state := newState;
      ghost var p', st' := p + [c], st + [newState];
      forall k | 0 <= k < |p'| ensures CallAt(p', st', k) {
        assert k < |p| ==> old(CallAt(p, st, k));
      }
    }

    method PopCall(ghost p: seq<nat>, ghost st: seq<S>) returns (call: Node<Value<I, O>>)
      requires StackFor(p, st) && p != []
      modifies this`calls, this`state
      ensures StackFor(p[..|p| - 1], st[..|p|]) && p[|p| - 1] < |nodes| - 1 && call == nodes[p[|p| - 1] + 1]
    {
      var n := |calls| - 1;
      assert CallAt(p, st, n);
      call := calls[n].entry;
      state := calls[n].state;
      calls := calls[..n];
      ghost var p', st' := p[..n], st[..n + 1];
      forall k | 0 <= k < |p'| ensures CallAt(p', st', k) {
        assert old(CallAt(p, st, k));
      }
    }

    /** Looks the outcome of a choice up in the cache, and files it there if it is new. */
    method Visit(id: nat, newState: S) returns (found: bool)
      requires Setting() && BitsFor(path) && CacheFor(visited) && EqualIsSafe(m)
      requires id < |t.es| / 2 && (t.Linear(path) + {id}, newState) in t.configs
      modifies this`cache, this`visited
      ensures found ==>
        visited == old(visited) && exists seen :: (t.Linear(path) + {id}, seen) in visited && m.equal(newState, seen)
      ensures !found ==> (t.Linear(path) + {id}, newState) !in old(visited)
      ensures !found ==> visited == old(visited) + {(t.Linear(path) + {id}, newState)}
      ensures CacheFor(visited)
    {
      var newLinearized := new Bitset.Clone(linearized);
      newLinearized.Set(id);
      found := CacheContains(m, cache, newLinearized, newState, visited);
      if !found {
        assert m.equal(newState, newState);
        var hash := newLinearized.Hash();
        var newEntry := CacheEntry(newLinearized.words, newState);
        InsertRepresents(cache, visited, |linearized.words|, newEntry);
        cache := Insert(cache, Key(hash), newEntry);
        visited := visited + {(t.Linear(path) + {id}, newState)};
      }
    }

    method SetBit(id: nat, ghost p: seq<nat>, ghost c: nat)
      requires BitsFor(p) && id == t.Id(c) && id < |t.es| / 2 && CacheFor(visited)
      modifies linearized
      ensures BitsFor(p + [c]) && CacheFor(visited)
    {
      linearized.Set(id);
      t.LinearPush(p, c);
    }

    method ClearBit(id: nat, ghost p: seq<nat>, ghost c: nat)
      requires BitsFor(p + [c]) && id == t.Id(c) && id !in t.Linear(p) && id < |t.es| / 2 && CacheFor(visited)
      modifies linearized
      ensures BitsFor(p) && CacheFor(visited)
    {
      linearized.Clear(id);
      t.LinearPush(p, c);
    }

    method Linearize(call: Node<Value<I, O>>, newState: S, ghost p: seq<nat>, ghost st: seq<S>, ghost c: nat)
      requires Setting() && t.StackDone(longest, p, st) && t.IsCall(c)
      requires t.Id(c) !in t.Linear(p) && call == nodes[c + 1]
      requires ListFor(p) && BitsFor(p) && StackFor(p, st) && CacheFor(visited)
      modifies nodes, list`links, linearized, this`calls, this`state
      ensures ListFor(p + [c]) && BitsFor(p + [c]) && StackFor(p + [c], st + [newState]) && CacheFor(visited)
    {
      assert NodeAt(nodes, t, c);
      PushCall(call, newState, p, st, c);
      SetBit(call.id, p, c);
      LiftFrom(call, p, c, longest, st);
    }

    lemma DescendTo(p: seq<nat>, st: seq<S>, before: set<(set<nat>, S)>, c: nat, newState: S) returns (n: int)
      requires Setting() && t.SearchInv(longest, p, st, before, c) && t.IsCall(c) && t.Id(c) !in t.Linear(p)
      requires t.Id(c) in t.h && Step(m, t.h, st[|p|], t.Id(c)) == (true, newState)
      requires ListFor(p + [c])
      ensures t.SearchInv(longest, p + [c], st + [newState], before + {(t.Linear(p) + {t.Id(c)}, newState)}, n - 1)
      ensures 0 < n <= |nodes| && headEntry.next == At(nodes, n) && (n < |nodes| ==> t.Id(n - 1) !in t.Linear(p + [c]))
    {
      t.StackPush(longest, p, st, c, newState);
      n := OpenFirst(longest, p + [c], st + [newState]);
      t.LinearPush(p, c);
      t.Descend(longest, p, st, before, c, newState, n - 1);
    }

    /** Linearizes the current call: one level down, and back to the first open record. */
    method Descend(call: Node<Value<I, O>>, newState: S, ghost before: set<(set<nat>, S)>)
      requires Setting() && headEntry.next != null && Here() && call == entry && t.IsCall(e)
      requires t.SearchInv(longest, path, states, before, e)
      requires visited == before + {(t.Linear(path) + {t.Id(e)}, newState)}
      requires ListFor(path) && BitsFor(path) && StackFor(path, states) && CacheFor(visited) && |longest| == |t.es| / 2
      requires t.Id(e) in t.h && Step(m, t.h, state, t.Id(e)) == (true, newState)
      modifies nodes, list`links, linearized, this`calls, this`state, this`path, this`states, this`entry, this`e
      ensures Valid() && path == old(path) + [old(e)]
    {
      Linearize(call, newState, path, states, e);
      ghost var n := DescendTo(path, states, before, e, newState);
      Settle(path + [e], states + [newState], headEntry.next, n - 1);
    }

    /** The operations on the stack, oldest first. */
    method CallIds() returns (q: seq<nat>)
      requires Setting() && StackFor(path, states)
      ensures q == t.Names(path)
    {
      q := [];
      for i := 0 to |calls|
        invariant q == t.Names(path[..i])
      {
        assert CallAt(path, states, i);
        assert NodeAt(nodes, t, path[i]);
        q := q + [calls[i].entry.id];
        t.LinearPush(path[..i], path[i]);
        assert path[..i] + [path[i]] == path[..i + 1];
      }
      assert path[..|calls|] == path;
    }

    method Unlinearize(ghost p: seq<nat>, ghost st: seq<S>, ghost lg: Longest) returns (call: Node<Value<I, O>>)
      requires Setting() && t.StackDone(lg, p, st) && p != []
      requires ListFor(p) && BitsFor(p) && StackFor(p, st) && CacheFor(visited)
      modifies nodes, list`links, linearized, this`calls, this`state
      ensures var rest := p[..|p| - 1]; ListFor(rest) && BitsFor(rest) && StackFor(rest, st[..|p|]) && CacheFor(visited)
      ensures p[|p| - 1] < |nodes| - 1 && call == nodes[p[|p| - 1] + 1]
    {
      ghost var rest, c := p[..|p| - 1], p[|p| - 1];
      assert rest + [c] == p;
      assert t.ChosenAt(lg, p, st, |p| - 1);
      assert NodeAt(nodes, t, c);
      call := PopCall(p, st);
      ClearBit(call.id, rest, c);
      UnliftTo(call, rest, c);
    }

    lemma BacktrackTo(lg: Longest, lg': Longest, p: seq<nat>, st: seq<S>, r: nat) returns (position: nat)
      requires Setting() && t.SearchInv(lg, p, st, visited, r) && p != [] && t.IsReturn(r) && t.Id(r) !in t.Linear(p)
      requires t.Improves(lg, lg', p)
      requires ListFor(p[..|p| - 1])
      ensures var c, p' := p[|p| - 1], p[..|p| - 1];
              && t.SearchInv(lg', p', st[..|p|], visited, position)
              && t.IsCall(c) && c < position < |t.es| && nodes[c + 1].next == nodes[position + 1]
              && t.Id(position) !in t.Linear(p')
    {
      t.StackPop(lg, lg', p, st);
      position := OpenAfter(lg', p[..|p| - 1], st[..|p|], p[|p| - 1]);
      t.Backtrack(lg, lg', p, st, visited, r, position);
    }

    /** Takes back the last call on the stack and goes on behind it. */
    method Backtrack()
      requires Valid() && headEntry.next != null && t.IsReturn(e) && path != []
      modifies nodes, list`links, linearized
      modifies this`longest, this`calls, this`state, this`path, this`states, this`entry, this`e
      ensures Valid() && |path| == |old(path)| - 1
    {
      ghost var lg := longest;
      Record();
      TakeBack(lg);
    }

    method TakeBack(ghost lg: Longest)
      requires Setting() && t.SearchInv(lg, path, states, visited, e)
      requires path != [] && t.IsReturn(e) && t.Id(e) !in t.Linear(path)
      requires t.Improves(lg, longest, path) && |longest| == |t.es| / 2
      requires ListFor(path) && BitsFor(path) && StackFor(path, states) && CacheFor(visited)
      modifies nodes, list`links, linearized, this`calls, this`state, this`path, this`states, this`entry, this`e
      ensures Valid() && |path| == |old(path)| - 1
    {
      var call := Unlinearize(path, states, lg);
      ghost var position := BacktrackTo(lg, longest, path, states, e);
      var next := call.next;
      assert next == nodes[position + 1];
      Settle(path[..|path| - 1], states[..|path|], next, position);
    }

    lemma FoundIsDone(id: nat, newState: S)
      requires Setting() && EqualIsSafe(m) && t.SearchInv(longest, path, states, visited, e) && state == states[|path|]
      requires id in t.h && id !in t.Linear(path) && Step(m, t.h, state, id) == (true, newState)
      requires exists seen :: (t.Linear(path) + {id}, seen) in visited && m.equal(newState, seen)
      ensures t.ChoiceDone(longest, t.Linear(path), state, id)
    {
      var seen :| (t.Linear(path) + {id}, seen) in visited && m.equal(newState, seen);
      t.CachedChoiceIsDone(longest, path, states, visited, id, newState, seen);
    }

    /** The model accepts the current call: goes down, unless the outcome has been seen before. */
    method Accept(id: nat, newState: S)
      requires Valid() && EqualIsSafe(m) && headEntry.next != null && t.IsCall(e)
      requires id == t.Id(e) && id in t.h && Step(m, t.h, state, id) == (true, newState)
      modifies nodes, list`links, linearized
      modifies this`cache, this`visited, this`calls, this`state, this`path, this`states, this`entry, this`e
      ensures Valid()
      ensures if visited == old(visited) then path == old(path) && e > old(e) else visited > old(visited)
    {
      t.NextIsConfig(longest, path, states, id);
      ghost var before := visited;
      var found := Visit(id, newState);
      if found {
        FoundIsDone(id, newState);
        Advance();
      } else {
        Descend(entry, newState, before);
      }
    }

    lemma CallStep()
      requires Setting() && t.IsCall(e)
      ensures var call := nodes[e + 1];
              && call.matched != null && call.value.Input? && call.matched.value.Output? && call.id == t.Id(e)
              && t.Id(e) in t.h
              && t.Id(e) < |t.es| / 2
              && m.step(state, call.value.input, call.matched.value.output) == Step(m, t.h, state, t.Id(e))
    {
      assert NodeAt(nodes, t, e);
      assert NodeAt(nodes, t, RetOf(t, e));
    }

    /** Tries to linearize the current call. */
    method TryCall()
      requires Valid() && EqualIsSafe(m) && headEntry.next != null && t.IsCall(e)
      modifies nodes, list`links, linearized
      modifies this`cache, this`visited, this`calls, this`state, this`path, this`states, this`entry, this`e
      ensures Valid()
      ensures if visited == old(visited) then path == old(path) && e > old(e) else visited > old(visited)
    {
      CallStep();
      var matching := entry.matched;
      var (accepted, newState) := m.step(state, entry.value.input, matching.value.output);
      if accepted {
        Accept(entry.id, newState);
      } else {
        Advance();
      }
    }

    /** The search has moved on: something new was cached, or it is higher up, or further along. */
    ghost predicate MovedOn(v: set<(set<nat>, S)>, p: seq<nat>, position: nat)
      reads this`visited, this`path, this`e
    {
      visited > v || (visited == v && (|path| < |p| || (path == p && e > position)))
    }

    /** One turn of the loop; stuck means that there is no linearization. */
    method Turn() returns (stuck: bool)
      requires Valid() && EqualIsSafe(m) && headEntry.next != null
      modifies nodes, list`links, linearized, this`longest
      modifies this`cache, this`visited, this`calls, this`state, this`path, this`states, this`entry, this`e
      ensures Valid()
      ensures stuck ==> !Linearizable(m, t.h) && (t.partial ==> BestPartials(m, t.h, longest))
      ensures !stuck ==> MovedOn(old(visited), old(path), old(e))
    {
      assert NodeAt(nodes, t, e);
      if entry.matched != null {
        TryCall();
        return false;
      } else if calls == [] {
        Stuck();
        return true;
      } else {
        Backtrack();
        return false;
      }
    }

    lemma Stuck()
      requires Valid() && headEntry.next != null && t.IsReturn(e) && calls == []
      ensures !Linearizable(m, t.h) && (t.partial ==> BestPartials(m, t.h, longest))
    {
      t.NothingLeft(longest, states, visited, e);
      if t.partial { CoveredIsBest(t, longest); }
    }

    /** The list is empty: the stack is a linearization. */
    method Finish() returns (q: seq<nat>)
      requires Valid() && headEntry.next == null
      ensures Completes(m, t.h, {}, m.init, q)
    {
      q := CallIds();
      ghost var n := OpenFirst(longest, path, states);
      t.AllLinearized(longest, path, states);
    }

    /** Keeps the stack as the best partial linearization of those of its operations that had no longer one. */
    method Record()
      requires Setting() && t.SearchInv(longest, path, states, visited, e)
      requires StackFor(path, states) && |longest| == |t.es| / 2
      modifies this`longest
      ensures |longest| == |t.es| / 2 && t.Improves(old(longest), longest, path)
    {
      if computePartial {
        var q := CallIds();
        t.StackSpells(longest, path, states);
        forall i | i in q ensures i < |longest| {
          assert DescribesOp(t.es, t.h, i);
        }
        longest := KeepLongest(t, q, longest);
      }
    }
  }

  /** Where `q` is longer than what was kept for one of its operations, `q` is kept instead. */
  method KeepLongest<S(!new), I(!new), O(!new)>(ghost t: Task<S, I, O>, q: seq<nat>, lg: Longest) returns (lg': Longest)
    requires forall i :: i in q ==> i < |lg|
    requires PartialLinearization(t.m, t.h, q) && t.LongestSound(lg)
    ensures |lg'| == |lg| && Grows(lg, lg') && t.LongestSound(lg')
    ensures AllRecorded(lg', Elems(q), |q|)
  {
    lg' := lg;
    for k := 0 to |q|
      invariant |lg'| == |lg| && Grows(lg, lg') && t.LongestSound(lg')
      invariant forall j :: 0 <= j < k ==> Recorded(lg', q[j], |q|)
    {
      var id := q[k];
      assert id in q;
      if lg'[id].None? || |q| > |lg'[id].value| {
        ghost var before := lg';
        lg' := lg'[id := Some(q)];
        forall i | 0 <= i < |lg'| ensures t.SoundAt(lg', i) {
          assert t.SoundAt(before, i);
        }
        forall i: nat, n: nat | Recorded(before, i, n) ensures Recorded(lg', i, n) {
        }
      }
    }
  }

  /**
   What `longest` promises when the search has failed: for each operation the best there is, and nothing only where
   there is none.
   */
  ghost predicate BestPartials<S, I, O>(m: Model<S, I, O>, h: History<I, O>, longest: Longest) {
    forall i :: i in h ==>
      && i < |longest|
      && (longest[i].Some? ==> PartialLinearization(m, h, longest[i].value) && i in longest[i].value)
      && (forall q :: PartialLinearization(m, h, q) && i in q ==> longest[i].Some? && |q| <= |longest[i].value|)
  }

  /** What it promises in any case, also when the search is called off. */
  ghost predicate SoundPartials<S, I, O>(m: Model<S, I, O>, h: History<I, O>, longest: Longest) {
    forall i :: 0 <= i < |longest| && longest[i].Some? ==>
      PartialLinearization(m, h, longest[i].value) && i in longest[i].value
  }

  lemma KeptIsSound<S(!new), I(!new), O(!new)>(t: Task<S, I, O>, lg: Longest)
    requires t.LongestSound(lg)
    ensures SoundPartials(t.m, t.h, lg)
  {
    forall i | 0 <= i < |lg| && lg[i].Some? ensures PartialLinearization(t.m, t.h, lg[i].value) && i in lg[i].value {
      assert t.SoundAt(lg, i);
    }
  }

  lemma CoveredIsBest<S(!new), I(!new), O(!new)>(t: Task<S, I, O>, lg: Longest)
    requires t.Ready() && Dense(t.es) && |lg| == |t.es| / 2 && t.LongestSound(lg) && Covered(t.m, t.h, lg, {}, t.m.init)
    ensures BestPartials(t.m, t.h, lg)
  {
    forall i | i in t.h ensures i < |lg| && t.SoundAt(lg, i) {
      assert DescribesOp(t.es, t.h, i);
    }
    forall i, q | i in t.h && PartialLinearization(t.m, t.h, q) && i in q ensures Recorded(lg, i, |q|) {
      CoveredBounds(t.m, t.h, lg, {}, t.m.init, q, i);
    }
  }

  /**
   Decides whether a history is linearizable.  `kill` tells, at each turn of the
   loop, whether another worker has called the search off.
   */
  method CheckSingle<S(!new), I(!new), O(!new)>(m: Model<S, I, O>, history: seq<Entry<Value<I, O>>>,
                                                computePartial: bool, kill: nat -> bool)
    returns (ok: bool, longest: Longest)
    requires WellFormed(history) && Dense(history) && EqualIsSafe(m)
    ensures ok ==> Linearizable(m, HistoryOf(history))
    ensures (forall n :: !kill(n)) ==> (ok <==> Linearizable(m, HistoryOf(history)))
    ensures computePartial && !ok && (forall n :: !kill(n)) ==> BestPartials(m, HistoryOf(history), longest)
    ensures |longest| == |history| / 2 && (!ok ==> SoundPartials(m, HistoryOf(history), longest))
    ensures ok ==>
      exists q :: Completes(m, HistoryOf(history), {}, m.init, q) && longest == seq(|history| / 2, _ => Some(q))
  {
    var run := new Run(m, history, computePartial);
    var turn := 0;
    while run.headEntry.next != null
      invariant run.Valid()
      invariant fresh(run) && fresh(run.list) && fresh(run.nodes) && fresh(run.linearized)
      decreases run.t.configs - run.visited, |run.path|, |history| - run.e
    {
      if kill(turn) {
        KeptIsSound(run.t, run.longest);
        return false, run.longest;
      }
      turn := turn + 1;
      var stuck := run.Turn();
      if stuck {
        KeptIsSound(run.t, run.longest);
        return false, run.longest;
      }
    }
    var q := run.Finish();
    return true, seq(|history| / 2, _ => Some(q));
  }
}
