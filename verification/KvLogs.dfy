/**
 The key/value store's log: commands in files, one file per generation, and what
 replaying them means.
 */
module KvLogs {
  import opened Histories

  datatype Command = Set(key: string, value: string) | Get(key: string) | Remove(key: string)

  /** Where a command lies: its file, and its bytes in that file. */
  datatype CmdMetadata = CmdMetadata(generation: nat, position: nat, len: nat)

  type Bytes = seq<bv8>

  /** The serializer: one command at a time, and a file read as a stream of commands. */
  datatype Codec = Codec(encode: Command -> Bytes, decode: Bytes -> Option<Command>, stream: Bytes -> seq<Command>)

  function Encoded(c: Codec, ms: seq<Command>): Bytes {
    if ms == [] then [] else Encoded(c, ms[..|ms| - 1]) + c.encode(ms[|ms| - 1])
  }

  /** Decoding undoes encoding, and a file of commands reads back as those commands. */
  ghost predicate Faithful(c: Codec) {
    && (forall m: Command {:trigger DecodesBack(c, m)} :: DecodesBack(c, m))
    && (forall ms: seq<Command> {:trigger StreamsBack(c, ms)} :: StreamsBack(c, ms))
  }

  ghost predicate DecodesBack(c: Codec, m: Command) {
    c.decode(c.encode(m)) == Some(m)
  }

  ghost predicate StreamsBack(c: Codec, ms: seq<Command>) {
    c.stream(Encoded(c, ms)) == ms
  }

  lemma EncodedPush(c: Codec, ms: seq<Command>, m: Command)
    ensures Encoded(c, ms + [m]) == Encoded(c, ms) + c.encode(m)
  {
    assert (ms + [m])[..|ms|] == ms;
  }

  /** The bytes of a command are found where the commands before it end. */
  lemma {:induction false} EncodedAt(c: Codec, ms: seq<Command>, i: nat)
    requires i < |ms|
    ensures var from := |Encoded(c, ms[..i])|;
            from + |c.encode(ms[i])| <= |Encoded(c, ms)|
              && Encoded(c, ms)[from..from + |c.encode(ms[i])|] == c.encode(ms[i])
  {
    var front := ms[..|ms| - 1];
    if i < |front| {
      assert front[..i] == ms[..i];
      EncodedAt(c, front, i);
    }
  }

  // ---------------------------------------------------------------- records

  /** A command together with the place it lies at. */
  datatype Record = Record(command: Command, at: CmdMetadata)

  function Records(c: Codec, gen: nat, ms: seq<Command>): (rs: seq<Record>)
    ensures |rs| == |ms|
  {
    if ms == [] then []
    else
      var front, last := ms[..|ms| - 1], ms[|ms| - 1];
      Records(c, gen, front) + [Record(last, CmdMetadata(gen, |Encoded(c, front)|, |c.encode(last)|))]
  }

  lemma RecordsPush(c: Codec, gen: nat, ms: seq<Command>, m: Command)
    ensures Records(c, gen, ms + [m])
            == Records(c, gen, ms) + [Record(m, CmdMetadata(gen, |Encoded(c, ms)|, |c.encode(m)|))]
  {
    assert (ms + [m])[..|ms|] == ms;
  }

  lemma {:induction false} RecordIs(c: Codec, gen: nat, ms: seq<Command>, i: nat)
    requires i < |ms|
    ensures Records(c, gen, ms)[i] == Record(ms[i], CmdMetadata(gen, |Encoded(c, ms[..i])|, |c.encode(ms[i])|))
  {
    var front := ms[..|ms| - 1];
    if i < |front| {
      assert front[..i] == ms[..i];
      RecordIs(c, gen, front, i);
    }
  }

  // ---------------------------------------------------------------- all files, oldest generation first

  type Logs = map<nat, seq<Command>>

  /** The records of the generations before `n`, in the order in which the store reads them when it opens. */
  ghost function FlatBelow(c: Codec, logs: Logs, n: nat): seq<Record> {
    if n == 0 then [] else FlatBelow(c, logs, n - 1) + if n - 1 in logs then Records(c, n - 1, logs[n - 1]) else []
  }

  ghost predicate Below(logs: Logs, n: nat) {
    forall g :: g in logs ==> g < n
  }

  lemma {:induction false} HasBound(logs: Logs)
    ensures exists n: nat :: Below(logs, n)
    decreases |logs|
  {
    if logs.Keys == {} {
      assert Below(logs, 0);
    } else {
      var g :| g in logs;
      HasBound(logs - {g});
      var n: nat :| Below(logs - {g}, n);
      var m := if g < n then n else g + 1;
      forall x | x in logs ensures x < m { assert x != g ==> x in logs - {g}; }
      assert Below(logs, m);
    }
  }

  ghost function Bound(logs: Logs): (n: nat)
    ensures Below(logs, n)
  {
    HasBound(logs);
    var n: nat :| Below(logs, n);
    n
  }

  /** Every record there is. */
  ghost function Flat(c: Codec, logs: Logs): seq<Record> {
    FlatBelow(c, logs, Bound(logs))
  }

  /** Generations without a file add nothing. */
  lemma {:induction false} FlatGap(c: Codec, logs: Logs, n: nat, m: nat)
    requires n <= m && forall g :: g in logs ==> g < n || g >= m
    ensures FlatBelow(c, logs, m) == FlatBelow(c, logs, n)
    decreases m
  {
    if n < m {
      FlatGap(c, logs, n, m - 1);
      assert m - 1 !in logs;
    }
  }

  /** Any bound on the generations will do. */
  lemma FlatIs(c: Codec, logs: Logs, n: nat)
    requires Below(logs, n)
    ensures Flat(c, logs) == FlatBelow(c, logs, n)
  {
    var b := Bound(logs);
    if n <= b { FlatGap(c, logs, n, b); } else { FlatGap(c, logs, b, n); }
  }

  lemma FlatNothing(c: Codec)
    ensures Flat(c, map[]) == []
  {
    FlatIs(c, map[], 0);
  }

  lemma {:induction false} FlatBelowOnly(c: Codec, logs: Logs, more: Logs, n: nat)
    requires forall g :: 0 <= g < n ==> (g in logs <==> g in more) && (g in logs ==> logs[g] == more[g])
    ensures FlatBelow(c, logs, n) == FlatBelow(c, more, n)
  {
    if n > 0 { FlatBelowOnly(c, logs, more, n - 1); }
  }

  /** The newest generation comes last. */
  lemma FlatNewest(c: Codec, logs: Logs, g: nat, ms: seq<Command>)
    requires Below(logs, g)
    ensures Flat(c, logs[g := ms]) == Flat(c, logs) + Records(c, g, ms)
  {
    var more := logs[g := ms];
    FlatIs(c, more, g + 1);
    FlatIs(c, logs, g);
    FlatBelowOnly(c, logs, more, g);
  }

  /** Adding to the newest file adds one record at the end. */
  lemma FlatPush(c: Codec, logs: Logs, g: nat, m: Command)
    requires g in logs && Below(logs, g + 1)
    ensures Flat(c, logs[g := logs[g] + [m]])
            == Flat(c, logs) + [Record(m, CmdMetadata(g, |Encoded(c, logs[g])|, |c.encode(m)|))]
  {
    var rest := logs - {g};
    assert logs == rest[g := logs[g]] && logs[g := logs[g] + [m]] == rest[g := logs[g] + [m]];
    FlatNewest(c, rest, g, logs[g]);
    FlatNewest(c, rest, g, logs[g] + [m]);
    RecordsPush(c, g, logs[g], m);
  }

  /** Every record lies in a file that is there, and its bytes are the command's. */
  lemma {:induction false} FlatRecord(c: Codec, logs: Logs, n: nat, r: Record)
    requires r in FlatBelow(c, logs, n)
    ensures r.at.generation in logs
    ensures var bytes := Encoded(c, logs[r.at.generation]);
            r.at.position + r.at.len <= |bytes| && bytes[r.at.position..r.at.position + r.at.len] == c.encode(r.command)
    decreases n
  {
    var g := n - 1;
    if g in logs && r in Records(c, g, logs[g]) {
      var i :| 0 <= i < |Records(c, g, logs[g])| && Records(c, g, logs[g])[i] == r;
      RecordIs(c, g, logs[g], i);
      EncodedAt(c, logs[g], i);
    } else {
      FlatRecord(c, logs, g, r);
    }
  }

  // ---------------------------------------------------------------- what a log says

  predicate Touches(m: Command, k: string) {
    !m.Get? && m.key == k
  }

  /** The last command about `k`: the plain meaning of a log. */
  ghost function Find(rs: seq<Record>, k: string): Option<Record> {
    if rs == [] then None
    else if Touches(rs[|rs| - 1].command, k) then Some(rs[|rs| - 1])
    else Find(rs[..|rs| - 1], k)
  }

  ghost predicate Holds(rs: seq<Record>, k: string) {
    Find(rs, k).Some? && Find(rs, k).value.command.Set?
  }

  function Obey(m: map<string, string>, command: Command): map<string, string> {
    match command
    case Set(k, v) => m[k := v]
    case Remove(k) => m - {k}
    case Get(_) => m
  }

  /** Carrying out every command in turn. */
  ghost function Replay(m: map<string, string>, rs: seq<Record>): map<string, string> {
    if rs == [] then m else Obey(Replay(m, rs[..|rs| - 1]), rs[|rs| - 1].command)
  }

  ghost function Contents(c: Codec, logs: Logs): map<string, string> {
    Replay(map[], Flat(c, logs))
  }

  function Note(index: map<string, CmdMetadata>, r: Record): map<string, CmdMetadata> {
    match r.command
    case Set(k, _) => index[k := r.at]
    case Remove(k) => index - {k}
    case Get(_) => index
  }

  /** Noting the place of every Set, forgetting it at every Remove. */
  ghost function Indexed(index: map<string, CmdMetadata>, rs: seq<Record>): map<string, CmdMetadata> {
    if rs == [] then index else Note(Indexed(index, rs[..|rs| - 1]), rs[|rs| - 1])
  }

  lemma ReplayPush(m: map<string, string>, rs: seq<Record>, r: Record)
    ensures Replay(m, rs + [r]) == Obey(Replay(m, rs), r.command)
  {
    assert (rs + [r])[..|rs|] == rs;
  }

  lemma IndexedPush(index: map<string, CmdMetadata>, rs: seq<Record>, r: Record)
    ensures Indexed(index, rs + [r]) == Note(Indexed(index, rs), r)
  {
    assert (rs + [r])[..|rs|] == rs;
  }

  lemma {:induction false} ReplayTwice(m: map<string, string>, a: seq<Record>, b: seq<Record>)
    ensures Replay(m, a + b) == Replay(Replay(m, a), b)
  {
    if b == [] {
      assert a + b == a;
    } else {
      assert (a + b)[..|a + b| - 1] == a + b[..|b| - 1];
      ReplayTwice(m, a, b[..|b| - 1]);
    }
  }

  lemma {:induction false} IndexedTwice(index: map<string, CmdMetadata>, a: seq<Record>, b: seq<Record>)
    ensures Indexed(index, a + b) == Indexed(Indexed(index, a), b)
  {
    if b == [] {
      assert a + b == a;
    } else {
      assert (a + b)[..|a + b| - 1] == a + b[..|b| - 1];
      IndexedTwice(index, a, b[..|b| - 1]);
    }
  }

  /** A key has a value exactly when its last command is a Set, and the value is that command's. */
  lemma {:induction false} ReplayFinds(rs: seq<Record>, k: string)
    ensures k in Replay(map[], rs) <==> Holds(rs, k)
    ensures Holds(rs, k) ==> Replay(map[], rs)[k] == Find(rs, k).value.command.value
  {
    if rs != [] { ReplayFinds(rs[..|rs| - 1], k); }
  }

  /** A key is indexed exactly when its last command is a Set, and the index gives that command's place. */
  lemma {:induction false} IndexedFinds(rs: seq<Record>, k: string)
    ensures k in Indexed(map[], rs) <==> Holds(rs, k)
    ensures Holds(rs, k) ==>
      Indexed(map[], rs)[k] == Find(rs, k).value.at && Find(rs, k).value in rs && Find(rs, k).value.command.key == k
  {
    if rs != [] {
      IndexedFinds(rs[..|rs| - 1], k);
      assert forall r :: r in rs[..|rs| - 1] ==> r in rs;
    }
  }

  /** What the index says about `k` is what the map says, and it can be read back from the files. */
  ghost predicate PlaceOk(c: Codec, logs: Logs, index: map<string, CmdMetadata>, m: map<string, string>, k: string) {
    && (k in index <==> k in m)
    && (k in index && k in m ==>
          var at := index[k];
          && at.generation in logs && at.position + at.len <= |Encoded(c, logs[at.generation])|
          && Encoded(c, logs[at.generation])[at.position..at.position + at.len] == c.encode(Set(k, m[k])))
  }

  ghost predicate Places(c: Codec, logs: Logs, index: map<string, CmdMetadata>, m: map<string, string>) {
    forall k {:trigger PlaceOk(c, logs, index, m, k)} :: PlaceOk(c, logs, index, m, k)
  }

  /** The index of a log places every key of the map that the log stands for. */
  lemma {:induction false} IndexPlaces(c: Codec, logs: Logs)
    ensures Places(c, logs, Indexed(map[], Flat(c, logs)), Contents(c, logs))
  {
    var rs := Flat(c, logs);
    forall k ensures PlaceOk(c, logs, Indexed(map[], rs), Contents(c, logs), k) {
      ReplayFinds(rs, k);
      IndexedFinds(rs, k);
      if Holds(rs, k) { FlatRecord(c, logs, Bound(logs), Find(rs, k).value); }
    }
  }
}
