module KvCompaction {
  // Compaction on disk: the live commands are rewritten into a new generation, and
  // the older ones are deleted.  Whatever moment the process stops at, opening the
  // store again must give the same map.

  import opened Histories
  import opened KvLogs

  ghost predicate Within(a: map<string, string>, b: map<string, string>) {
    forall k :: k in a ==> k in b && a[k] == b[k]
  }

  /** Every command sets a key to the value it has in `m`. */
  ghost predicate Rewrites(ms: seq<Command>, m: map<string, string>) {
    forall i :: 0 <= i < |ms| ==> ms[i].Set? && ms[i].key in m && m[ms[i].key] == ms[i].value
  }

  ghost predicate Mentions(ms: seq<Command>, k: string) {
    exists i :: 0 <= i < |ms| && ms[i].key == k
  }

  ghost predicate Covers(ms: seq<Command>, m: map<string, string>) {
    forall k :: k in m ==> Mentions(ms, k)
  }

  // ---------------------------------------------------------------- replaying less, and replaying again

  lemma {:induction false} LessToStartFrom(m: map<string, string>, rs: seq<Record>)
    ensures Within(Replay(map[], rs), Replay(m, rs))
  {
    if rs != [] { LessToStartFrom(m, rs[..|rs| - 1]); }
  }

  /** Rewriting true values over part of a map stays within the map and adds the keys mentioned. */
  lemma {:induction false} RedoWithin(c: Codec, gen: nat, sub: map<string, string>, full: map<string, string>,
                                      ms: seq<Command>)
    requires Within(sub, full) && Rewrites(ms, full)
    ensures Within(Replay(sub, Records(c, gen, ms)), full)
    ensures forall k :: k in sub || Mentions(ms, k) ==> k in Replay(sub, Records(c, gen, ms))
  {
    if ms != [] {
      var front := ms[..|ms| - 1];
      RedoWithin(c, gen, sub, full, front);
      RecordsPush(c, gen, front, ms[|ms| - 1]);
      assert ms == front + [ms[|ms| - 1]];
      ReplayPush(sub, Records(c, gen, front), Records(c, gen, ms)[|front|]);
      forall k | k in sub || Mentions(ms, k) ensures k in Replay(sub, Records(c, gen, ms)) {
        assert k != ms[|ms| - 1].key && Mentions(ms, k) ==> Mentions(front, k);
      }
    }
  }

  // ---------------------------------------------------------------- the disk while it is compacted

  /** The compacted file holds `ms` so far; the file after it, for new commands, is empty. */
  ghost function Compacting(logs: Logs, gen: nat, ms: seq<Command>): Logs {
    logs[gen := ms][gen + 1 := []]
  }

  lemma FlatCompacting(c: Codec, logs: Logs, gen: nat, ms: seq<Command>)
    requires Below(logs, gen)
    ensures Flat(c, Compacting(logs, gen, ms)) == Flat(c, logs) + Records(c, gen, ms)
  {
    FlatNewest(c, logs, gen, ms);
    FlatNewest(c, logs[gen := ms], gen + 1, []);
  }

  /** Stopping at any record boundary of the compacted file changes nothing. */
  lemma {:induction false} CopyingKeeps(c: Codec, logs: Logs, gen: nat, ms: seq<Command>)
    requires Below(logs, gen) && Rewrites(ms, Contents(c, logs))
    ensures Contents(c, Compacting(logs, gen, ms)) == Contents(c, logs)
  {
    var m := Contents(c, logs);
    FlatCompacting(c, logs, gen, ms);
    ReplayTwice(map[], Flat(c, logs), Records(c, gen, ms));
    RedoWithin(c, gen, m, m, ms);
  }

  /** The generations deleted so far are the oldest ones. */
  ghost predicate OldestFirst(gens: set<nat>, dropped: set<nat>) {
    dropped <= gens && forall g, h :: g in gens && h in dropped && g < h ==> g in dropped
  }

  /** Without its oldest generations a log is a tail of itself. */
  lemma {:induction false} DroppedIsTail(c: Codec, logs: Logs, dropped: set<nat>, n: nat) returns (head: seq<Record>)
    requires OldestFirst(logs.Keys, dropped)
    ensures FlatBelow(c, logs, n) == head + FlatBelow(c, logs - dropped, n)
    decreases n
  {
    if n == 0 {
      head := [];
    } else if n - 1 in dropped {
      head := FlatBelow(c, logs, n);
      FlatGap(c, logs - dropped, 0, n);
    } else {
      head := DroppedIsTail(c, logs, dropped, n - 1);
      Regroup(head, FlatBelow(c, logs - dropped, n - 1), if n - 1 in logs then Records(c, n - 1, logs[n - 1]) else []);
    }
  }

  lemma Regroup<T>(a: seq<T>, b: seq<T>, c: seq<T>)
    ensures a + b + c == a + (b + c)
  {
  }

  /** Stopping after any number of deletions, oldest first, changes nothing either. */
  lemma {:induction false} DroppingKeeps(c: Codec, logs: Logs, dropped: set<nat>, gen: nat, ms: seq<Command>)
    requires Below(logs, gen) && Rewrites(ms, Contents(c, logs))
    requires Covers(ms, Contents(c, logs)) && OldestFirst(logs.Keys, dropped)
    ensures Contents(c, Compacting(logs - dropped, gen, ms)) == Contents(c, logs)
  {
    var m, left := Contents(c, logs), logs - dropped;
    var head := DroppedIsTail(c, logs, dropped, gen);
    FlatIs(c, logs, gen);
    FlatIs(c, left, gen);
    ReplayTwice(map[], head, Flat(c, left));
    LessToStartFrom(Replay(map[], head), Flat(c, left));
    FlatCompacting(c, left, gen, ms);
    ReplayTwice(map[], Flat(c, left), Records(c, gen, ms));
    RedoWithin(c, gen, Contents(c, left), m, ms);
  }

  // ---------------------------------------------------------------- which deletions are safe

  /** The newest generation ends with a Set, as it does whenever the store is compacted. */
  ghost predicate JustSet(logs: Logs) {
    exists g :: g in logs && (forall h :: h in logs ==> h <= g) && logs[g] != [] && logs[g][|logs[g]| - 1].Set?
  }

  /** Deleting `dropped` is safe if no store with these generations notices, however its compacted file was written. */
  ghost predicate SafeToDrop(c: Codec, gens: set<nat>, dropped: set<nat>, gen: nat) {
    forall logs: Logs, ms {:trigger Unnoticed(c, logs, dropped, gen, ms)} ::
      logs.Keys == gens && JustSet(logs) ==> Unnoticed(c, logs, dropped, gen, ms)
  }

  ghost predicate Unnoticed(c: Codec, logs: Logs, dropped: set<nat>, gen: nat, ms: seq<Command>) {
    Rewrites(ms, Contents(c, logs)) && Covers(ms, Contents(c, logs)) ==>
      Contents(c, Compacting(logs - dropped, gen, ms)) == Contents(c, logs)
  }

  /** Three generations of a store, and two keys and a value. */
  datatype Plot = Plot(older: nat, newer: nat, newest: nat, k: string, j: string, v: string)

  /** An older generation sets k, a newer one removes it, and the newest ends with a Set of j. */
  ghost function Witness(gens: set<nat>, p: Plot): Logs {
    map g | g in gens ::
      (if g == p.older then [Set(p.k, p.v)] else if g == p.newer then [Remove(p.k)] else [])
      + (if g == p.newest then [Set(p.j, p.v)] else [])
  }

  ghost predicate Staged(gens: set<nat>, p: Plot, gen: nat) {
    && p.older in gens && p.newer in gens && p.newest in gens && p.older < p.newer && p.k != p.j
    && forall g :: g in gens ==> g <= p.newest < gen
  }

  /** The last word of a file on a key. */
  ghost function LastWord(ms: seq<Command>, k: string): Option<Command> {
    if ms == [] then None else if Touches(ms[|ms| - 1], k) then Some(ms[|ms| - 1]) else LastWord(ms[..|ms| - 1], k)
  }

  /** The key is as this word leaves it. */
  ghost predicate Leaves(m: map<string, string>, k: string, word: Option<Command>) {
    if word.None? || !word.value.Set? then k !in m else k in m && m[k] == word.value.value
  }

  ghost predicate Follows(m: map<string, string>, after: map<string, string>, k: string, word: Option<Command>) {
    if word.Some? then Leaves(after, k, word) else (k in after <==> k in m) && (k in m ==> after[k] == m[k])
  }

  lemma {:induction false} ReplayFile(c: Codec, m: map<string, string>, g: nat, ms: seq<Command>, k: string)
    ensures Follows(m, Replay(m, Records(c, g, ms)), k, LastWord(ms, k))
  {
    if ms != [] {
      ReplayFile(c, m, g, ms[..|ms| - 1], k);
    }
  }

  /** The last generation that has a word on a key decides. */
  lemma {:induction false} LastDecides(c: Codec, logs: Logs, n: nat, k: string, g: int)
    requires g < n && (g >= 0 ==> g in logs && LastWord(logs[g], k).Some?)
    requires forall x :: x in logs && g < x < n ==> LastWord(logs[x], k).None?
    ensures Leaves(Replay(map[], FlatBelow(c, logs, n)), k, if g < 0 then None else LastWord(logs[g], k))
    decreases n
  {
    if n > 0 {
      var before, after := Replay(map[], FlatBelow(c, logs, n - 1)), Replay(map[], FlatBelow(c, logs, n));
      if g < n - 1 { LastDecides(c, logs, n - 1, k, g); }
      if n - 1 in logs {
        ReplayTwice(map[], FlatBelow(c, logs, n - 1), Records(c, n - 1, logs[n - 1]));
        ReplayFile(c, before, n - 1, logs[n - 1], k);
        assert Follows(before, after, k, LastWord(logs[n - 1], k));
      } else {
        assert FlatBelow(c, logs, n) == FlatBelow(c, logs, n - 1);
      }
    }
  }

  /** What each generation of the witness says about a key. */
  ghost function Says(p: Plot, g: nat, k: string): Option<Command> {
    if k == p.k then if g == p.older then Some(Set(k, p.v)) else if g == p.newer then Some(Remove(k)) else None
    else if k == p.j && g == p.newest then Some(Set(k, p.v)) else None
  }

  lemma {:induction false} WitnessSays(gens: set<nat>, p: Plot, gen: nat, g: nat, k: string)
    requires Staged(gens, p, gen) && g in gens
    ensures LastWord(Witness(gens, p)[g], k) == Says(p, g, k)
  {
    var ms := Witness(gens, p)[g];
    if g == p.newest {
      assert ms[..|ms| - 1] == if g == p.newer then [Remove(p.k)] else [];
      assert LastWord(ms[..|ms| - 1], k) == if g == p.newer && k == p.k then Some(Remove(k)) else None;
    }
  }

  lemma {:induction false} WitnessKey(c: Codec, gens: set<nat>, p: Plot, gen: nat, k: string)
    requires Staged(gens, p, gen)
    ensures var m := Contents(c, Witness(gens, p)); (k in m <==> k == p.j) && (k in m ==> m[k] == p.v)
  {
    var logs, g := Witness(gens, p), if k == p.j then p.newest else if k == p.k then p.newer else -1;
    FlatIs(c, logs, gen);
    if g >= 0 { WitnessSays(gens, p, gen, g, k); }
    forall x | x in logs && g < x < gen ensures LastWord(logs[x], k).None? { WitnessSays(gens, p, gen, x, k); }
    LastDecides(c, logs, gen, k, g);
  }

  /** The store stands for j alone. */
  lemma {:induction false} WitnessHolds(c: Codec, gens: set<nat>, p: Plot, gen: nat)
    requires Staged(gens, p, gen)
    ensures Contents(c, Witness(gens, p)) == map[p.j := p.v]
  {
    var m := Contents(c, Witness(gens, p));
    forall k ensures (k in m <==> k == p.j) && (k in m ==> m[k] == p.v) { WitnessKey(c, gens, p, gen, k); }
  }

  /** With the generation that removes it gone, k is back. */
  lemma {:induction false} WitnessLost(c: Codec, gens: set<nat>, p: Plot, gen: nat, dropped: set<nat>)
    requires Staged(gens, p, gen) && p.newer in dropped && p.older !in dropped
    ensures p.k in Contents(c, Compacting(Witness(gens, p) - dropped, gen, [Set(p.j, p.v)]))
  {
    var left := Compacting(Witness(gens, p) - dropped, gen, [Set(p.j, p.v)]);
    WitnessSays(gens, p, gen, p.older, p.k);
    forall g | g in left && p.older < g < gen + 2 ensures LastWord(left[g], p.k).None? {
      if g < gen { WitnessSays(gens, p, gen, g, p.k); }
    }
    LastDecides(c, left, gen + 2, p.k, p.older);
    FlatIs(c, left, gen + 2);
  }

  /** Deleting the generation that removes a key while keeping the one that sets it brings the key back. */
  lemma {:induction false} GapResurrects(c: Codec, gens: set<nat>, dropped: set<nat>, gen: nat, older: nat, newer: nat)
    requires older in gens && newer in gens && older < newer && newer in dropped && older !in dropped
    requires forall g :: g in gens ==> g < gen
    ensures !SafeToDrop(c, gens, dropped, gen)
  {
    var newest := Newest(gens);
    var p := Plot(older, newer, newest, "k", "j", "v");
    var logs, ms := Witness(gens, p), [Set(p.j, p.v)];
    WitnessHolds(c, gens, p, gen);
    WitnessLost(c, gens, p, gen, dropped);
    assert logs.Keys == gens && JustSet(logs);
    assert ms[0].key == p.j;
    assert !Unnoticed(c, logs, dropped, gen, ms);
  }

  lemma {:induction false} Newest(gens: set<nat>) returns (g: nat)
    requires gens != {}
    ensures g in gens && forall h :: h in gens ==> h <= g
    decreases |gens|
  {
    var a :| a in gens;
    g := a;
    if gens != {a} {
      var b := Newest(gens - {a});
      g := if a < b then b else a;
    }
    forall h | h in gens ensures h <= g { assert h == a || h in gens - {a}; }
  }

  /** Safe exactly when the oldest generations go first. */
  lemma {:induction false} SafeIffOldestFirst(c: Codec, gens: set<nat>, dropped: set<nat>, gen: nat)
    requires dropped <= gens && forall g :: g in gens ==> g < gen
    ensures SafeToDrop(c, gens, dropped, gen) <==> OldestFirst(gens, dropped)
  {
    if OldestFirst(gens, dropped) {
      forall logs: Logs, ms | logs.Keys == gens ensures Unnoticed(c, logs, dropped, gen, ms) {
        if Rewrites(ms, Contents(c, logs)) && Covers(ms, Contents(c, logs)) {
          DroppingKeeps(c, logs, dropped, gen, ms);
        }
      }
    } else {
      var older: nat, newer: nat :| older in gens && newer in dropped && older < newer && older !in dropped;
      GapResurrects(c, gens, dropped, gen, older, newer);
    }
  }
}
