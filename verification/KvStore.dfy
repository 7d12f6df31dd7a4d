/**
 The log-structured key/value store: an index of places in the log, kept equal to
 what replaying the log would give.
 */
module KvStores {
  import opened Histories
  import opened KvLogs
  import opened KvCompaction
  import opened KvDisks

  const MEM_THRESHOLD := 1024 * 1024

  ghost function LogsOf(c: Codec, files: Files): Logs {
    map g | g in files :: c.stream(files[g])
  }

  /** Every file is the encoding of the commands it is read as. */
  ghost predicate Readable(c: Codec, files: Files) {
    forall g :: g in files ==> files[g] == Encoded(c, c.stream(files[g]))
  }

  /** The files hold these commands and nothing else. */
  ghost predicate Written(c: Codec, files: Files, logs: Logs) {
    forall g {:trigger WrittenAt(c, files, logs, g)} :: WrittenAt(c, files, logs, g)
  }

  ghost predicate WrittenAt(c: Codec, files: Files, logs: Logs, g: nat) {
    && (g in files <==> g in logs)
    && (g in files && g in logs ==> files[g] == Encoded(c, logs[g]) && c.stream(files[g]) == logs[g])
  }

  lemma WrittenIs(c: Codec, files: Files, logs: Logs)
    ensures Written(c, files, logs) <==> Readable(c, files) && LogsOf(c, files) == logs
  {
    if Written(c, files, logs) {
      forall g
        ensures (g in files <==> g in logs)
        ensures (g in files && g in logs ==> files[g] == Encoded(c, logs[g]) && c.stream(files[g]) == logs[g])
      {
        assert WrittenAt(c, files, logs, g);
      }
    }
  }

  lemma StreamIs(c: Codec, ms: seq<Command>)
    requires Faithful(c)
    ensures c.stream(Encoded(c, ms)) == ms
  {
    assert StreamsBack(c, ms);
  }

  lemma DecodeIs(c: Codec, m: Command)
    requires Faithful(c)
    ensures c.decode(c.encode(m)) == Some(m)
  {
    assert DecodesBack(c, m);
  }

  /** Writing a whole file of commands. */
  lemma PutFile(c: Codec, files: Files, g: nat, ms: seq<Command>)
    requires Faithful(c) && Readable(c, files)
    ensures Readable(c, files[g := Encoded(c, ms)])
    ensures LogsOf(c, files[g := Encoded(c, ms)]) == LogsOf(c, files)[g := ms]
  {
    StreamIs(c, ms);
  }

  // ---------------------------------------------------------------- loading

  /** The bytes the index points at. */
  ghost function TotalLen(index: map<string, CmdMetadata>): nat
    decreases |index|
  {
    if index.Keys == {} then 0
    else
      var k :| k in index;
      index[k].len + TotalLen(index - {k})
  }

  lemma {:induction false} TotalLenWithout(index: map<string, CmdMetadata>, k: string)
    requires k in index
    ensures TotalLen(index) == index[k].len + TotalLen(index - {k})
    decreases |index|
  {
    var j :| j in index && TotalLen(index) == index[j].len + TotalLen(index - {j});
    if j != k {
      var without := index - {j};
      TotalLenWithout(without, k);
      TotalLenWithout(index - {k}, j);
      assert without - {k} == index - {k} - {j};
    }
  }

  /** The bytes of the Set and Remove commands. */
  ghost function Weight(rs: seq<Record>): nat {
    if rs == [] then 0 else Weight(rs[..|rs| - 1]) + if rs[|rs| - 1].command.Get? then 0 else rs[|rs| - 1].at.len
  }

  lemma {:induction false} WeightOfBoth(a: seq<Record>, b: seq<Record>)
    ensures Weight(a + b) == Weight(a) + Weight(b)
  {
    if b == [] {
      assert a + b == a;
    } else {
      assert (a + b)[..|a + b| - 1] == a + b[..|b| - 1];
      WeightOfBoth(a, b[..|b| - 1]);
    }
  }

  lemma WeightPush(rs: seq<Record>, r: Record)
    ensures Weight(rs + [r]) == Weight(rs) + if r.command.Get? then 0 else r.at.len
  {
    assert (rs + [r])[..|rs|] == rs;
  }

  lemma NoteLen(index: map<string, CmdMetadata>, r: Record)
    ensures r.command.Set? ==>
              TotalLen(Note(index, r)) + (if r.command.key in index then index[r.command.key].len else 0)
                == TotalLen(index) + r.at.len
    ensures r.command.Remove? ==>
              TotalLen(Note(index, r)) + (if r.command.key in index then index[r.command.key].len else 0)
                == TotalLen(index)
  {
    var k := r.command.key;
    if k in index { TotalLenWithout(index, k); }
    if r.command.Set? {
      TotalLenWithout(index[k := r.at], k);
      assert index[k := r.at] - {k} == index - {k};
    }
    if k !in index { assert index - {k} == index; }
  }

  /** The bytes that a command makes stale. */
  function Stale(index: map<string, CmdMetadata>, command: Command, len: nat): nat {
    (if !command.Get? && command.key in index then index[command.key].len else 0) + if command.Remove? then len else 0
  }

  /** The index, the stale bytes and the offset once the first `i` commands are loaded. */
  ghost predicate ReadTo(c: Codec, generation: nat, stream: seq<Command>, i: nat, index: map<string, CmdMetadata>,
                         loaded: map<string, CmdMetadata>, uncompacted: nat, start: nat)
    requires i <= |stream|
  {
    var rs := Records(c, generation, stream[..i]);
    start == |Encoded(c, stream[..i])| && loaded == Indexed(index, rs)
      && uncompacted + TotalLen(loaded) == TotalLen(index) + Weight(rs)
  }

  lemma ReadsOneMore(c: Codec, generation: nat, stream: seq<Command>, i: nat, index: map<string, CmdMetadata>,
                     loaded: map<string, CmdMetadata>, uncompacted: nat, start: nat)
    requires i < |stream| && ReadTo(c, generation, stream, i, index, loaded, uncompacted, start)
    ensures var len := |c.encode(stream[i])|;
            ReadTo(c, generation, stream, i + 1, index,
                   Note(loaded, Record(stream[i], CmdMetadata(generation, start, len))),
                   uncompacted + Stale(loaded, stream[i], len), start + len)
  {
    var r := Record(stream[i], CmdMetadata(generation, start, |c.encode(stream[i])|));
    assert stream[..i + 1] == stream[..i] + [stream[i]];
    EncodedPush(c, stream[..i], stream[i]);
    RecordsPush(c, generation, stream[..i], stream[i]);
    IndexedPush(index, Records(c, generation, stream[..i]), r);
    WeightPush(Records(c, generation, stream[..i]), r);
    NoteLen(loaded, r);
  }

  method LoadOne(index: map<string, CmdMetadata>, uncompacted: nat, command: Command, at: CmdMetadata)
    returns (loaded: map<string, CmdMetadata>, more: nat)
    ensures loaded == Note(index, Record(command, at)) && more == uncompacted + Stale(index, command, at.len)
  {
    loaded, more := index, uncompacted;
    match command {
      case Set(key, _) =>
        if key in index { more := more + index[key].len; }
        loaded := index[key := at];
      case Remove(key) =>
        if key in index { more := more + index[key].len; }
        loaded := index - {key};
        more := more + at.len;
      case Get(_) =>
    }
  }

  /** Replays one file into the index; what it returns is the bytes the file made stale. */
  method LoadLogFile(c: Codec, generation: nat, bytes: Bytes, index: map<string, CmdMetadata>)
    returns (loaded: map<string, CmdMetadata>, uncompacted: nat)
    requires Faithful(c) && bytes == Encoded(c, c.stream(bytes))
    ensures loaded == Indexed(index, Records(c, generation, c.stream(bytes)))
    ensures uncompacted + TotalLen(loaded) == TotalLen(index) + Weight(Records(c, generation, c.stream(bytes)))
  {
    var stream := c.stream(bytes);
    var start: nat := 0;
    loaded, uncompacted := index, 0;
    for i := 0 to |stream|
      invariant ReadTo(c, generation, stream, i, index, loaded, uncompacted, start)
    {
      var next := start + |c.encode(stream[i])|;
      ReadsOneMore(c, generation, stream, i, index, loaded, uncompacted, start);
      loaded, uncompacted := LoadOne(loaded, uncompacted, stream[i], CmdMetadata(generation, start, next - start));
      start := next;
    }
    assert stream[..|stream|] == stream;
  }

  predicate Ascending(gens: seq<nat>) {
    forall i, j :: 0 <= i < j < |gens| ==> gens[i] < gens[j]
  }

  method Least(s: set<nat>) returns (g: nat)
    requires s != {}
    ensures g in s && forall x :: x in s ==> g <= x
  {
    g :| g in s;
    var rest := s;
    while rest != {}
      invariant g in s && forall x :: x in s ==> x in rest || g <= x
    {
      var x :| x in rest;
      if x in s && x < g { g := x; }
      rest := rest - {x};
    }
  }

  /** `gens` holds, in order, every generation that has a file and is not in `rest`; those in `rest` come later. */
  ghost predicate SortedSoFar(files: Files, gens: seq<nat>, rest: set<nat>) {
    && Ascending(gens)
    && (forall g :: g in files <==> g in gens || g in rest)
    && (forall i, h :: 0 <= i < |gens| && h in rest ==> gens[i] < h)
  }

  lemma SortsOneMore(files: Files, gens: seq<nat>, rest: set<nat>, g: nat)
    requires SortedSoFar(files, gens, rest) && g in rest && forall x :: x in rest ==> g <= x
    ensures SortedSoFar(files, gens + [g], rest - {g})
  {
    var more := gens + [g];
    forall x ensures x in files <==> x in more || x in rest - {g} { assert x in more <==> x in gens || x == g; }
  }

  /** The generations that have a file, in ascending order. */
  method SortedGeneration(files: Files) returns (gens: seq<nat>)
    ensures Ascending(gens) && forall g :: g in gens <==> g in files
  {
    gens := [];
    var rest := files.Keys;
    while rest != {}
      invariant SortedSoFar(files, gens, rest)
    {
      var g := Least(rest);
      SortsOneMore(files, gens, rest, g);
      gens := gens + [g];
      rest := rest - {g};
    }
  }

  // ---------------------------------------------------------------- the store

  ghost function Only(logs: Logs, gens: seq<nat>): Logs {
    map g | g in logs && g in gens :: logs[g]
  }

  /** Taking one more generation, the newest so far, appends its records. */
  lemma OnlyMore(c: Codec, logs: Logs, gens: seq<nat>, i: nat)
    requires Ascending(gens) && i < |gens| && gens[i] in logs
    ensures Flat(c, Only(logs, gens[..i + 1])) == Flat(c, Only(logs, gens[..i])) + Records(c, gens[i], logs[gens[i]])
  {
    var before := Only(logs, gens[..i]);
    assert gens[..i + 1] == gens[..i] + [gens[i]];
    assert Below(before, gens[i]);
    assert Only(logs, gens[..i + 1]) == before[gens[i] := logs[gens[i]]];
    FlatNewest(c, before, gens[i], logs[gens[i]]);
  }

  /** The index and the stale bytes once the first `i` generations are loaded. */
  ghost predicate LoadedTo(c: Codec, logs: Logs, gens: seq<nat>, i: nat, index: map<string, CmdMetadata>,
                           uncompacted: nat)
    requires i <= |gens|
  {
    var rs := Flat(c, Only(logs, gens[..i]));
    index == Indexed(map[], rs) && uncompacted + TotalLen(index) == Weight(rs)
  }

  lemma LoadsOneMore(c: Codec, logs: Logs, gens: seq<nat>, i: nat, index: map<string, CmdMetadata>, uncompacted: nat,
                     loaded: map<string, CmdMetadata>, stale: nat)
    requires Ascending(gens) && i < |gens| && gens[i] in logs && LoadedTo(c, logs, gens, i, index, uncompacted)
    requires loaded == Indexed(index, Records(c, gens[i], logs[gens[i]]))
    requires stale + TotalLen(loaded) == TotalLen(index) + Weight(Records(c, gens[i], logs[gens[i]]))
    ensures LoadedTo(c, logs, gens, i + 1, loaded, uncompacted + stale)
  {
    OnlyMore(c, logs, gens, i);
    IndexedTwice(map[], Flat(c, Only(logs, gens[..i])), Records(c, gens[i], logs[gens[i]]));
    WeightOfBoth(Flat(c, Only(logs, gens[..i])), Records(c, gens[i], logs[gens[i]]));
  }

  /** Replays every file, oldest generation first. */
  method LoadAll(c: Codec, files: Files) returns (index: map<string, CmdMetadata>, readers: set<nat>, uncompacted: nat)
    requires Faithful(c) && Readable(c, files)
    ensures index == Indexed(map[], Flat(c, LogsOf(c, files))) && AllOpen(readers, files)
    ensures uncompacted + TotalLen(index) == Weight(Flat(c, LogsOf(c, files)))
  {
    var gens := SortedGeneration(files);
    ghost var logs := LogsOf(c, files);
    index, readers, uncompacted := map[], {}, 0;
    LoadedNone(c, logs, gens);
    for i := 0 to |gens|
      invariant LoadedTo(c, logs, gens, i, index, uncompacted)
      invariant forall g :: g in readers <==> g in gens[..i]
    {
      var version := gens[i];
      assert version in gens;
      var loaded, stale := LoadLogFile(c, version, files[version], index);
      LoadsOneMore(c, logs, gens, i, index, uncompacted, loaded, stale);
      index, uncompacted := loaded, uncompacted + stale;
      readers := readers + {version};
    }
    LoadedAll(c, logs, gens, index, uncompacted);
  }

  lemma LoadedNone(c: Codec, logs: Logs, gens: seq<nat>)
    ensures LoadedTo(c, logs, gens, 0, map[], 0)
  {
    assert Only(logs, gens[..0]) == map[];
    FlatNothing(c);
  }

  lemma LoadedAll(c: Codec, logs: Logs, gens: seq<nat>, index: map<string, CmdMetadata>, uncompacted: nat)
    requires LoadedTo(c, logs, gens, |gens|, index, uncompacted) && forall g :: g in gens <==> g in logs
    ensures index == Indexed(map[], Flat(c, logs)) && uncompacted + TotalLen(index) == Weight(Flat(c, logs))
  {
    assert gens[..|gens|] == gens;
    assert Only(logs, gens) == logs;
  }

  /** One more than the newest generation, and the first if there is none. */
  ghost predicate NextAfter(gen: nat, files: Files) {
    && (forall g :: g in files ==> g < gen)
    && (if files == map[] then gen == 1 else gen > 0 && gen - 1 in files)
  }

  method NextGeneration(files: Files) returns (gen: nat)
    ensures NextAfter(gen, files)
  {
    var gens := SortedGeneration(files);
    gen := if gens == [] then 1 else gens[|gens| - 1] + 1;
    if gens == [] {
      forall g ensures g !in files { assert g in files ==> g in gens; }
    } else {
      assert gens[|gens| - 1] in gens;
    }
    forall g | g in files ensures g < gen {
      assert g in gens;
      var i :| 0 <= i < |gens| && gens[i] == g;
    }
  }

  lemma EmptyFileChangesNothing(c: Codec, files: Files, gen: nat)
    requires Faithful(c) && Readable(c, files) && forall g :: g in files ==> g < gen
    ensures Readable(c, files[gen := []]) && LogsOf(c, files[gen := []]) == LogsOf(c, files)[gen := []]
    ensures Flat(c, LogsOf(c, files[gen := []])) == Flat(c, LogsOf(c, files))
  {
    assert Encoded(c, []) == [];
    PutFile(c, files, gen, []);
    FlatNewest(c, LogsOf(c, files), gen, []);
  }

  ghost predicate NoGets(ms: seq<Command>) {
    forall i :: 0 <= i < |ms| ==> !ms[i].Get?
  }

  /** No file holds a Get; the store never writes one. */
  ghost predicate GetFree(c: Codec, files: Files) {
    forall g :: g in files ==> NoGets(c.stream(files[g]))
  }

  ghost function BytesBelow(files: Files, n: nat): nat {
    if n == 0 then 0 else BytesBelow(files, n - 1) + if n - 1 in files then |files[n - 1]| else 0
  }

  /** The size of all files together. */
  ghost function DiskBytes(c: Codec, files: Files): nat {
    BytesBelow(files, Bound(LogsOf(c, files)))
  }

  lemma {:induction false} WeightOfFile(c: Codec, gen: nat, ms: seq<Command>)
    requires NoGets(ms)
    ensures Weight(Records(c, gen, ms)) == |Encoded(c, ms)|
  {
    if ms != [] {
      var front, last := ms[..|ms| - 1], ms[|ms| - 1];
      WeightOfFile(c, gen, front);
      WeightPush(Records(c, gen, front), Records(c, gen, ms)[|front|]);
    }
  }

  lemma {:induction false} WeightBelow(c: Codec, files: Files, n: nat)
    requires Readable(c, files) && GetFree(c, files)
    ensures Weight(FlatBelow(c, LogsOf(c, files), n)) == BytesBelow(files, n)
  {
    if n > 0 {
      WeightBelow(c, files, n - 1);
      var logs := LogsOf(c, files);
      WeightOfBoth(FlatBelow(c, logs, n - 1), if n - 1 in logs then Records(c, n - 1, logs[n - 1]) else []);
      if n - 1 in files { WeightOfFile(c, n - 1, logs[n - 1]); }
    }
  }

  /** The stale bytes counted when the store opens are all bytes on disk less those the index points at. */
  lemma StaleBytes(c: Codec, files: Files, index: map<string, CmdMetadata>, uncompacted: nat)
    requires Readable(c, files) && GetFree(c, files)
    requires uncompacted + TotalLen(index) == Weight(Flat(c, LogsOf(c, files)))
    ensures uncompacted + TotalLen(index) == DiskBytes(c, files)
  {
    WeightBelow(c, files, Bound(LogsOf(c, files)));
  }

  /** There is a reader for every file, and no other. */
  ghost predicate AllOpen(readers: set<nat>, files: Files) {
    forall g :: g in readers <==> g in files
  }

  // ---------------------------------------------------------------- copying the live commands

  /** A disk that can be opened, and then stands for `m`. */
  ghost predicate OpensTo(c: Codec, files: Files, m: map<string, string>) {
    Readable(c, files) && Contents(c, LogsOf(c, files)) == m
  }

  /** Every state from the n-th on can be opened, and then stands for `m`. */
  ghost predicate SafeFrom(c: Codec, history: seq<Files>, n: nat, m: map<string, string>) {
    forall i {:trigger OpensTo(c, history[i], m)} :: n <= i < |history| ==> OpensTo(c, history[i], m)
  }

  lemma SafeOn(c: Codec, history: seq<Files>, n: nat, m: map<string, string>, next: Files)
    requires SafeFrom(c, history, n, m) && OpensTo(c, next, m)
    ensures SafeFrom(c, history + [next], n, m)
  {
    var longer := history + [next];
    forall i | n <= i < |longer| ensures OpensTo(c, longer[i], m) {
      if i < |history| {
        assert OpensTo(c, history[i], m) && longer[i] == history[i];
      } else {
        assert longer[i] == next;
      }
    }
  }

  /** Keys that the copied commands do not mention keep their place. */
  lemma {:induction false} UntouchedPlace(c: Codec, index: map<string, CmdMetadata>, gen: nat, ms: seq<Command>,
                                          k: string)
    requires !Mentions(ms, k)
    ensures k in Indexed(index, Records(c, gen, ms)) <==> k in index
    ensures k in index ==> Indexed(index, Records(c, gen, ms))[k] == index[k]
  {
    if ms != [] {
      var front := ms[..|ms| - 1];
      assert ms[|ms| - 1].key != k;
      assert Mentions(front, k) ==> Mentions(ms, k);
      UntouchedPlace(c, index, gen, front, k);
    }
  }

  /** Keys that they do mention have the same place wherever one starts from. */
  lemma {:induction false} RewrittenPlace(c: Codec, index: map<string, CmdMetadata>, gen: nat, ms: seq<Command>,
                                          k: string)
    requires Mentions(ms, k) && forall i :: 0 <= i < |ms| ==> ms[i].Set?
    ensures k in Indexed(index, Records(c, gen, ms)) && k in Indexed(map[], Records(c, gen, ms))
    ensures Indexed(index, Records(c, gen, ms))[k] == Indexed(map[], Records(c, gen, ms))[k]
  {
    var front := ms[..|ms| - 1];
    if ms[|ms| - 1].key != k {
      assert Mentions(front, k);
      RewrittenPlace(c, index, gen, front, k);
    }
  }

  /** Once every indexed key has been copied, the index is that of the compacted file alone. */
  lemma {:induction false} IndexIsFresh(c: Codec, index: map<string, CmdMetadata>, gen: nat, ms: seq<Command>)
    requires (forall i :: 0 <= i < |ms| ==> ms[i].Set?) && forall k :: k in index ==> Mentions(ms, k)
    ensures Indexed(index, Records(c, gen, ms)) == Indexed(map[], Records(c, gen, ms))
  {
    var a, b := Indexed(index, Records(c, gen, ms)), Indexed(map[], Records(c, gen, ms));
    forall k ensures (k in a <==> k in b) && (k in a && k in b ==> a[k] == b[k]) {
      if Mentions(ms, k) {
        RewrittenPlace(c, index, gen, ms, k);
      } else {
        UntouchedPlace(c, index, gen, ms, k);
        UntouchedPlace(c, map[], gen, ms, k);
      }
    }
  }

  /** Copying one more key adds its command to the copies and its new place to the index. */
  lemma CopiesOne(c: Codec, index: map<string, CmdMetadata>, m: map<string, string>, gen: nat, ms: seq<Command>,
                  k: string)
    requires Rewrites(ms, m) && k in m
    ensures Indexed(index, Records(c, gen, ms + [Set(k, m[k])])) ==
            Indexed(index, Records(c, gen, ms))[k := CmdMetadata(gen, |Encoded(c, ms)|, |c.encode(Set(k, m[k]))|)]
    ensures Rewrites(ms + [Set(k, m[k])], m)
  {
    RecordsPush(c, gen, ms, Set(k, m[k]));
    IndexedPush(index, Records(c, gen, ms), Records(c, gen, ms + [Set(k, m[k])])[|ms|]);
  }

  /** The disk and the index in the middle of the copying, given the log, index and map it started from. */
  ghost predicate Midway(c: Codec, logs: Logs, from: map<string, CmdMetadata>, m: map<string, string>, gen: nat,
                         ms: seq<Command>,
                         files: Files, index: map<string, CmdMetadata>) {
    && Written(c, files, Compacting(logs, gen, ms)) && Below(logs, gen)
    && Places(c, logs, from, m) && index == Indexed(from, Records(c, gen, ms)) && Rewrites(ms, m)
  }

  lemma MidwayFiles(c: Codec, logs: Logs, gen: nat, ms: seq<Command>, files: Files)
    requires Written(c, files, Compacting(logs, gen, ms)) && Below(logs, gen)
    ensures gen in files && files[gen] == Encoded(c, ms)
    ensures forall g :: g in files <==> g in logs || g == gen || g == gen + 1
    ensures forall g :: g in logs ==> files[g] == Encoded(c, logs[g])
  {
    var now := Compacting(logs, gen, ms);
    assert WrittenAt(c, files, now, gen);
    forall g ensures g in files <==> g in logs || g == gen || g == gen + 1 { assert WrittenAt(c, files, now, g); }
    forall g | g in logs ensures files[g] == Encoded(c, logs[g]) { assert WrittenAt(c, files, now, g); }
  }

  /** What is read for a key not copied yet. */
  lemma {:induction false} MidwayReads(c: Codec, logs: Logs, from: map<string, CmdMetadata>, m: map<string, string>,
                                       gen: nat, ms: seq<Command>,
                                       files: Files, index: map<string, CmdMetadata>, k: string)
    requires Midway(c, logs, from, m, gen, ms, files, index) && !Mentions(ms, k) && k in index
    ensures k in m && index[k].generation in files && index[k].position + index[k].len <= |files[index[k].generation]|
    ensures files[index[k].generation][index[k].position..index[k].position + index[k].len] == c.encode(Set(k, m[k]))
  {
    UntouchedPlace(c, from, gen, ms, k);
    MidwayFiles(c, logs, gen, ms, files);
    assert PlaceOk(c, logs, from, m, k);
  }

  lemma MidwayFilesOn(c: Codec, logs: Logs, gen: nat, ms: seq<Command>, files: Files, command: Command)
    requires Faithful(c) && Written(c, files, Compacting(logs, gen, ms)) && Below(logs, gen)
    ensures gen in files && files[gen] == Encoded(c, ms)
    ensures Written(c, files[gen := files[gen] + c.encode(command)], Compacting(logs, gen, ms + [command]))
  {
    MidwayFiles(c, logs, gen, ms, files);
    EncodedPush(c, ms, command);
    StreamIs(c, ms + [command]);
    var more, now := files[gen := files[gen] + c.encode(command)], Compacting(logs, gen, ms + [command]);
    forall g ensures WrittenAt(c, more, now, g) { assert WrittenAt(c, files, Compacting(logs, gen, ms), g); }
  }

  lemma {:induction false} MidwayOn(c: Codec, logs: Logs, from: map<string, CmdMetadata>, m: map<string, string>,
                                    gen: nat, ms: seq<Command>,
                                    files: Files, index: map<string, CmdMetadata>, k: string)
    requires Faithful(c) && Midway(c, logs, from, m, gen, ms, files, index) && k in m && m == Contents(c, logs)
    ensures gen in files
    ensures var (bytes, more) := (c.encode(Set(k, m[k])), ms + [Set(k, m[k])]);
            && Midway(c, logs, from, m, gen, more, files[gen := files[gen] + bytes],
                      index[k := CmdMetadata(gen, |files[gen]|, |bytes|)])
            && OpensTo(c, files[gen := files[gen] + bytes], m)
  {
    var command := Set(k, m[k]);
    MidwayFilesOn(c, logs, gen, ms, files, command);
    WrittenIs(c, files[gen := files[gen] + c.encode(command)], Compacting(logs, gen, ms + [command]));
    CopiesOne(c, from, m, gen, ms, k);
    CopyingKeeps(c, logs, gen, ms + [command]);
  }

  /** Copies every indexed command into the file of generation `gen`, pointing the index at the copies. */
  method CopyLive(c: Codec, disk: Disk, index: map<string, CmdMetadata>, readers: set<nat>, gen: nat, ghost logs: Logs)
    returns (places: map<string, CmdMetadata>, ghost ms: seq<Command>)
    requires Faithful(c) && disk.Valid() && AllOpen(readers, disk.files)
    requires Midway(c, logs, index, Contents(c, logs), gen, [], disk.files, index)
    modifies disk
    ensures disk.Valid() && AllOpen(readers, disk.files) && Covers(ms, Contents(c, logs)) && Once(ms)
    ensures Midway(c, logs, index, Contents(c, logs), gen, ms, disk.files, places)
    ensures old(disk.history) <= disk.history && SafeFrom(c, disk.history, |old(disk.history)|, Contents(c, logs))
  {
    places, ms := index, [];
    ghost var m := Contents(c, logs);
    var rest := index.Keys;
    while rest != {}
      invariant disk.Valid() && AllOpen(readers, disk.files)
      invariant Midway(c, logs, index, m, gen, ms, disk.files, places) && Once(ms)
      invariant forall k :: k in places <==> k in rest || Mentions(ms, k)
      invariant forall k :: k in index ==> k in places
      invariant forall k :: k in rest ==> !Mentions(ms, k)
      invariant old(disk.history) <= disk.history && SafeFrom(c, disk.history, |old(disk.history)|, m)
    {
      var k :| k in rest;
      ghost var before := disk.history;
      places, ms := CopyOne(c, disk, places, readers, gen, k, logs, index, m, ms);
      SafeOn(c, before, |old(disk.history)|, m, disk.files);
      rest := rest - {k};
    }
    AllCopied(c, logs, index, m, ms);
  }

  method CopyOne(c: Codec, disk: Disk, index: map<string, CmdMetadata>, readers: set<nat>, gen: nat, k: string,
                 ghost logs: Logs, ghost from: map<string, CmdMetadata>, ghost m: map<string, string>,
                 ghost ms: seq<Command>)
    returns (places: map<string, CmdMetadata>, ghost more: seq<Command>)
    requires Faithful(c) && disk.Valid() && AllOpen(readers, disk.files)
    requires Midway(c, logs, from, m, gen, ms, disk.files, index)
    requires k in index && !Mentions(ms, k) && m == Contents(c, logs)
    modifies disk
    ensures disk.Valid() && AllOpen(readers, disk.files) && Midway(c, logs, from, m, gen, more, disk.files, places)
    ensures (forall j :: j in places <==> j in index) && (forall j :: Mentions(more, j) <==> Mentions(ms, j) || j == k)
    ensures Once(ms) ==> Once(more)
    ensures disk.history == old(disk.history) + [disk.files] && OpensTo(c, disk.files, m)
  {
    var cmd := index[k];
    MidwayReads(c, logs, from, m, gen, ms, disk.files, index, k);
    MidwayOn(c, logs, from, m, gen, ms, disk.files, index, k);
    MentionsPush(ms, Set(k, m[k]));
    assert cmd.generation in readers;
    places, more := index, ms + [Set(k, m[k])];
    if cmd.generation in readers {
      var bytes := disk.files[cmd.generation][cmd.position..cmd.position + cmd.len];
      places := index[k := CmdMetadata(gen, |disk.files[gen]|, |bytes|)];
      disk.Append(gen, bytes);
    }
  }

  /** No key is copied twice. */
  ghost predicate Once(ms: seq<Command>) {
    forall i, j :: 0 <= i < j < |ms| ==> ms[i].key != ms[j].key
  }

  /** What has been copied once is all indexed. */
  lemma {:induction false} CopiesWeigh(c: Codec, gen: nat, ms: seq<Command>)
    requires Once(ms) && forall i :: 0 <= i < |ms| ==> ms[i].Set?
    ensures Weight(Records(c, gen, ms)) == TotalLen(Indexed(map[], Records(c, gen, ms)))
  {
    if ms != [] {
      var front, last := ms[..|ms| - 1], ms[|ms| - 1];
      CopiesWeigh(c, gen, front);
      var rs, r := Records(c, gen, front), Records(c, gen, ms)[|ms| - 1];
      assert front + [last] == ms;
      RecordsPush(c, gen, front, last);
      WeightPush(rs, r);
      IndexedPush(map[], rs, r);
      NoteLen(Indexed(map[], rs), r);
      assert !Mentions(front, last.key);
      UntouchedPlace(c, map[], gen, front, last.key);
    }
  }

  lemma MidwayOpens(c: Codec, logs: Logs, gen: nat, ms: seq<Command>, files: Files)
    requires Written(c, files, Compacting(logs, gen, ms)) && Below(logs, gen) && Rewrites(ms, Contents(c, logs))
    ensures OpensTo(c, files, Contents(c, logs))
  {
    WrittenIs(c, files, Compacting(logs, gen, ms));
    CopyingKeeps(c, logs, gen, ms);
  }

  lemma MinusBoth<K, V>(m: map<K, V>, a: set<K>, b: set<K>)
    ensures m - a - b == m - (a + b)
  {
  }

  /** Deletes the generations older than the compacted one, in no particular order. */
  method DeleteStale(disk: Disk, readers: set<nat>, gen: nat) returns (open: set<nat>)
    requires disk.Valid() && AllOpen(readers, disk.files)
    modifies disk
    ensures disk.Valid() && AllOpen(open, disk.files) && Trimmed(old(disk.files), gen, disk.files)
    ensures old(disk.history) <= disk.history
  {
    open := readers;
    ghost var files := disk.files;
    var stale := set g | g in readers && g < gen;
    while stale != {}
      invariant disk.Valid() && AllOpen(open, disk.files) && old(disk.history) <= disk.history
      invariant forall g :: g in stale ==> g in disk.files && g < gen
      invariant forall g :: g in disk.files ==> g in files && disk.files[g] == files[g]
      invariant forall g :: g in files ==> g in disk.files || g < gen
      invariant forall g :: g in disk.files && g < gen ==> g in stale
    {
      var g :| g in stale;
      open := open - {g};
      disk.Delete(g);
      stale := stale - {g};
    }
  }

  /** In every state from the n-th on, the generations missing are older than `gen` and the oldest there were. */
  ghost predicate LosesOldest(files: Files, gen: nat, history: seq<Files>, n: nat) {
    forall i {:trigger DropsOldest(files, gen, history[i])} :: n <= i < |history| ==>
      DropsOldest(files, gen, history[i])
  }

  lemma LosesOn(files: Files, gen: nat, history: seq<Files>, n: nat, next: Files)
    requires LosesOldest(files, gen, history, n) && DropsOldest(files, gen, next)
    ensures LosesOldest(files, gen, history + [next], n)
  {
    var longer := history + [next];
    forall i | n <= i < |longer| ensures DropsOldest(files, gen, longer[i]) {
      if i < |history| {
        assert DropsOldest(files, gen, history[i]) && longer[i] == history[i];
      } else {
        assert longer[i] == next;
      }
    }
  }

  /** Deletes the generations older than the compacted one, oldest first. */
  method DeleteOldestFirst(disk: Disk, readers: set<nat>, gen: nat) returns (open: set<nat>)
    requires disk.Valid() && AllOpen(readers, disk.files)
    modifies disk
    ensures disk.Valid() && AllOpen(open, disk.files) && Trimmed(old(disk.files), gen, disk.files)
    ensures old(disk.history) <= disk.history && LosesOldest(old(disk.files), gen, disk.history, |old(disk.history)|)
  {
    ghost var files := disk.files;
    var gens := SortedGeneration(disk.files);
    open := readers;
    ghost var dropped: set<nat> := {};
    for i := 0 to |gens|
      invariant disk.Valid() && AllOpen(open, disk.files) && old(disk.history) <= disk.history
      invariant disk.files == files - dropped && DroppedTo(gens, i, gen, dropped)
      invariant forall j :: i <= j < |gens| ==> gens[j] in disk.files
      invariant LosesOldest(files, gen, disk.history, |old(disk.history)|)
    {
      DropsOneMore(gens, i, gen, dropped);
      if gens[i] < gen {
        ghost var before := disk.history;
        open := open - {gens[i]};
        MinusBoth(files, dropped, {gens[i]});
        disk.Delete(gens[i]);
        dropped := dropped + {gens[i]};
        SoFar(gens, i + 1, gen, dropped, files, disk.files);
        LosesOn(files, gen, before, |old(disk.history)|, disk.files);
      }
    }
    AllDropped(gens, gen, dropped, files, disk.files);
  }

  /** Starts the two new generations and copies every live command into the first of them. */
  method Rewrite(c: Codec, disk: Disk, index: map<string, CmdMetadata>, readers: set<nat>, gen: nat)
    returns (places: map<string, CmdMetadata>, open: set<nat>, ghost ms: seq<Command>)
    requires Faithful(c) && disk.Valid() && Readable(c, disk.files) && AllOpen(readers, disk.files)
    requires (forall g :: g in disk.files ==> g < gen) && index == Indexed(map[], Flat(c, LogsOf(c, disk.files)))
    modifies disk
    ensures disk.Valid() && AllOpen(open, disk.files)
    ensures var (logs, m) := (LogsOf(c, old(disk.files)), Contents(c, LogsOf(c, old(disk.files))));
            && Midway(c, logs, index, m, gen, ms, disk.files, places) && Covers(ms, m) && Once(ms)
            && old(disk.history) <= disk.history && SafeFrom(c, disk.history, |old(disk.history)|, m)
  {
    ghost var logs, n := LogsOf(c, disk.files), |disk.history|;
    BeginsMidway(c, disk.files, index, gen);
    CreateBoth(c, disk, gen);
    ghost var before := disk.history;
    open := readers + {gen + 1, gen};
    places, ms := CopyLive(c, disk, index, open, gen, logs);
    SafeBoth(c, before, disk.history, n, Contents(c, logs));
  }

  /** Makes the files of the two new generations, that of the current one first. */
  method CreateBoth(c: Codec, disk: Disk, gen: nat)
    requires Faithful(c) && disk.Valid() && Readable(c, disk.files) && forall g :: g in disk.files ==> g < gen
    modifies disk
    ensures disk.Valid() && disk.files == old(disk.files)[gen + 1 := []][gen := []] && old(disk.history) <= disk.history
    ensures SafeFrom(c, disk.history, |old(disk.history)|, Contents(c, LogsOf(c, old(disk.files))))
  {
    ghost var logs, n := LogsOf(c, disk.files), |disk.history|;
    Begun(c, disk.files, gen);
    MidwayOpens(c, logs, gen, [], disk.files[gen + 1 := []][gen := []]);
    disk.Create(gen + 1);
    disk.Create(gen);
  }

  lemma SafeBoth(c: Codec, before: seq<Files>, after: seq<Files>, n: nat, m: map<string, string>)
    requires before <= after && SafeFrom(c, before, n, m) && SafeFrom(c, after, |before|, m)
    ensures SafeFrom(c, after, n, m)
  {
    forall i | n <= i < |after| ensures OpensTo(c, after[i], m) {
      if i < |before| { assert OpensTo(c, before[i], m) && after[i] == before[i]; }
    }
  }

  class KvStore {
    const codec: Codec
    const disk: Disk
    var index: map<string, CmdMetadata>
    var currGen: nat
    var readers: set<nat>
    var uncompactedSpace: nat

    ghost function Logged(): Logs
      reads disk
    {
      LogsOf(codec, disk.files)
    }

    /** The map the store stands for. */
    ghost function Model(): map<string, string>
      reads disk
    {
      Contents(codec, Logged())
    }

    ghost predicate OnDisk()
      reads this, disk
    {
      && Faithful(codec) && disk.Valid() && Readable(codec, disk.files)
      && currGen in disk.files && (forall g :: g in disk.files ==> g <= currGen) && AllOpen(readers, disk.files)
    }

    /** The index is what replaying the files would give. */
    ghost predicate Valid()
      reads this, disk
    {
      OnDisk() && index == Indexed(map[], Flat(codec, Logged()))
    }

    /** The bytes of Set and Remove commands on disk that the index does not point at. */
    ghost function Unindexed(): int
      reads this, disk
    {
      Weight(Flat(codec, Logged())) - TotalLen(index)
    }

    /** Opens what is on disk, and starts a new generation for what is to come. */
    constructor Open(codec: Codec, disk: Disk)
      requires Faithful(codec) && disk.Valid() && Readable(codec, disk.files)
      modifies disk
      ensures Valid() && this.codec == codec && this.disk == disk
      ensures Model() == Contents(codec, LogsOf(codec, old(disk.files)))
      ensures NextAfter(currGen, old(disk.files)) && disk.files == old(disk.files)[currGen := []]
      ensures disk.history == old(disk.history) + [disk.files]
      ensures uncompactedSpace == Unindexed()
      ensures GetFree(codec, disk.files) ==> uncompactedSpace + TotalLen(index) == DiskBytes(codec, disk.files)
    {
      this.codec, this.disk := codec, disk;
      var gen := NextGeneration(disk.files);
      currGen := gen;
      EmptyFileChangesNothing(codec, disk.files, gen);
      disk.Create(gen);
      var loaded, open, stale := LoadAll(codec, disk.files);
      index, readers, uncompactedSpace := loaded, open, stale;
      if GetFree(codec, disk.files) { StaleBytes(codec, disk.files, loaded, stale); }
    }

    method Get(key: string) returns (value: Option<string>)
      requires Valid()
      ensures value == if key in Model() then Some(Model()[key]) else None
    {
      IndexPlaces(codec, Logged());
      assert PlaceOk(codec, Logged(), index, Model(), key);
      if key in index {
        var at := index[key];
        if at.generation in readers {
          var command := codec.decode(disk.files[at.generation][at.position..at.position + at.len]);
          DecodeIs(codec, KvLogs.Set(key, Model()[key]));
          if command.Some? && command.value.Set? {
            return Some(command.value.value);
          }
        }
      }
      return None;
    }

    /** Writes a command at the end of the current file. */
    method Append(command: Command)
      requires OnDisk()
      modifies disk
      ensures OnDisk() && disk.files.Keys == old(disk.files.Keys) && disk.history == old(disk.history) + [disk.files]
      ensures Flat(codec, Logged()) ==
              old(Flat(codec, Logged()))
                + [Record(command, CmdMetadata(currGen, |old(disk.files[currGen])|, |codec.encode(command)|))]
      ensures |disk.files[currGen]| == |old(disk.files[currGen])| + |codec.encode(command)|
    {
      ghost var ms := codec.stream(disk.files[currGen]);
      EncodedPush(codec, ms, command);
      PutFile(codec, disk.files, currGen, ms + [command]);
      FlatPush(codec, Logged(), currGen, command);
      disk.Append(currGen, codec.encode(command));
    }

    /** One record is written, and once it is there the key is gone for good. */
    method Remove(key: string) returns (found: bool)
      requires Valid()
      modifies this, disk
      ensures Valid() && found == (key in old(Model())) && Model() == old(Model()) - {key}
      ensures disk.history == if found then old(disk.history) + [disk.files] else old(disk.history)
      ensures uncompactedSpace == old(uncompactedSpace)
      ensures found ==> key in old(index)
      ensures found ==>
                Unindexed() == old(Unindexed()) + old(index)[key].len + |codec.encode(KvLogs.Remove(key))|
    {
      IndexPlaces(codec, Logged());
      assert PlaceOk(codec, Logged(), index, Model(), key);
      found := key in index;
      if found {
        ghost var r := Record(KvLogs.Remove(key),
                              CmdMetadata(currGen, |disk.files[currGen]|, |codec.encode(KvLogs.Remove(key))|));
        ReplayPush(map[], Flat(codec, Logged()), r);
        IndexedPush(map[], Flat(codec, Logged()), r);
        WeightPush(Flat(codec, Logged()), r);
        NoteLen(index, r);
        Append(KvLogs.Remove(key));
        index := index - {key};
      }
    }

    method Compact()
      requires Valid()
      modifies this, disk
      ensures Valid() && Model() == old(Model()) && currGen == old(currGen) + 2 && uncompactedSpace == 0 == Unindexed()
      ensures forall g :: g in disk.files <==> g == currGen - 1 || g == currGen
      ensures old(disk.history) <= disk.history
    {
      var compactGen := currGen + 1;
      ghost var logs, from := Logged(), index;
      currGen := currGen + 2;
      ghost var ms;
      index, readers, ms := Rewrite(codec, disk, index, readers, compactGen);
      ghost var written := disk.files;
      readers := DeleteStale(disk, readers, compactGen);
      Compacted(codec, logs, from, compactGen, ms, written, disk.files, index);
      uncompactedSpace := 0;
    }

    /**
     The same with the oldest generations deleted first: whatever state the disk is in on the way can be opened and
     stands for the same map.
     */
    method CompactOldestFirst()
      requires Valid()
      modifies this, disk
      ensures Valid() && Model() == old(Model()) && currGen == old(currGen) + 2 && uncompactedSpace == 0 == Unindexed()
      ensures forall g :: g in disk.files <==> g == currGen - 1 || g == currGen
      ensures old(disk.history) <= disk.history && SafeFrom(codec, disk.history, |old(disk.history)|, old(Model()))
    {
      var compactGen := currGen + 1;
      ghost var logs, from, n := Logged(), index, |disk.history|;
      currGen := currGen + 2;
      ghost var ms;
      index, readers, ms := Rewrite(codec, disk, index, readers, compactGen);
      ghost var written, before := disk.files, disk.history;
      readers := DeleteOldestFirst(disk, readers, compactGen);
      DroppingIsSafe(codec, logs, from, compactGen, ms, written, index, disk.history, |before|);
      SafeBoth(codec, before, disk.history, n, Contents(codec, logs));
      Compacted(codec, logs, from, compactGen, ms, written, disk.files, index);
      uncompactedSpace := 0;
    }

    /** Writes the record of a Set and points the index at it. */
    method Write(key: string, value: string)
      requires Valid()
      modifies this`index, disk
      ensures Valid() && Model() == old(Model())[key := value] && disk.history == old(disk.history) + [disk.files]
      ensures disk.files.Keys == old(disk.files.Keys)
      ensures Unindexed() == old(Unindexed()) + (if key in old(index) then old(index)[key].len else 0)
    {
      var command := KvLogs.Set(key, value);
      var start := |disk.files[currGen]|;
      ghost var r := Record(command, CmdMetadata(currGen, start, |codec.encode(command)|));
      ReplayPush(map[], Flat(codec, Logged()), r);
      IndexedPush(map[], Flat(codec, Logged()), r);
      WeightPush(Flat(codec, Logged()), r);
      NoteLen(index, r);
      Append(command);
      index := index[key := CmdMetadata(currGen, start, |disk.files[currGen]| - start)];
    }

    /**
     What a Set that does not compact leaves: one more record in the current generation, and what it replaces
     unindexed.
     */
    twostate predicate WrittenOnly(key: string)
      reads this, disk
    {
      && disk.history == old(disk.history) + [disk.files] && disk.files.Keys == old(disk.files.Keys)
      && currGen == old(currGen)
      && Unindexed() == old(Unindexed()) + (if key in old(index) then old(index)[key].len else 0)
    }

    /** What one that compacts leaves: two new generations, and nothing unindexed. */
    twostate predicate Renewed()
      reads this, disk
    {
      && currGen == old(currGen) + 2 && uncompactedSpace == 0 == Unindexed() && old(disk.history) <= disk.history
      && forall g :: g in disk.files <==> g == currGen - 1 || g == currGen
    }

    /**
     Compacts exactly when more than 1 MiB was counted as stale before; what it makes stale itself it does not count.
     */
    method Set(key: string, value: string)
      requires Valid()
      modifies this, disk
      ensures Valid() && Model() == old(Model())[key := value]
      ensures if old(uncompactedSpace) > 1024 * 1024 then Renewed()
              else WrittenOnly(key) && uncompactedSpace == old(uncompactedSpace)
    {
      Write(key, value);
      if uncompactedSpace > MEM_THRESHOLD {
        Compact();
      }
    }

    /**
     The same with the stale bytes counted and the oldest generations deleted first: once the record is written, no
     crash loses it, and a right count stays right.
     */
    method SetOldestFirst(key: string, value: string)
      requires Valid()
      modifies this, disk
      ensures Valid() && Model() == old(Model())[key := value]
      ensures var stale := old(uncompactedSpace) + if key in old(index) then old(index)[key].len else 0;
              if stale > 1024 * 1024 then Renewed() else WrittenOnly(key) && uncompactedSpace == stale
      ensures old(uncompactedSpace) == old(Unindexed()) ==> uncompactedSpace == Unindexed()
      ensures old(disk.history) < disk.history && SafeFrom(codec, disk.history, |old(disk.history)|, Model())
    {
      var stale := if key in index then index[key].len else 0;
      ghost var n := |disk.history|;
      Write(key, value);
      assert OpensTo(codec, disk.files, Model());
      uncompactedSpace := uncompactedSpace + stale;
      if uncompactedSpace > MEM_THRESHOLD {
        ghost var before := disk.history;
        CompactOldestFirst();
        SafeBoth(codec, before, disk.history, n, Model());
      }
    }
  }

  /** Opening the disk as a crash at any of these moments left it gives the map back. */
  method Recover(c: Codec, ghost history: seq<Files>, ghost n: nat, i: nat, disk: Disk, ghost m: map<string, string>)
    returns (store: KvStore)
    requires Faithful(c) && SafeFrom(c, history, n, m) && n <= i < |history| && disk.Valid() && disk.files == history[i]
    modifies disk
    ensures fresh(store) && store.Valid() && store.Model() == m
  {
    assert OpensTo(c, history[i], m);
    store := new KvStore.Open(c, disk);
  }

  /** Closing the store at any time and opening it again changes nothing. */
  method Reopen(store: KvStore) returns (again: KvStore)
    requires store.Valid()
    ensures fresh(again) && again.Valid() && again.Model() == store.Model()
  {
    var copy := new Disk(store.disk.files);
    again := new KvStore.Open(store.codec, copy);
  }

  lemma Begun(c: Codec, files: Files, gen: nat)
    requires Faithful(c) && Readable(c, files) && forall g :: g in files ==> g < gen
    ensures Written(c, files[gen + 1 := []][gen := []], Compacting(LogsOf(c, files), gen, []))
    ensures OpensTo(c, files[gen + 1 := []], Contents(c, LogsOf(c, files)))
  {
    EmptyFileChangesNothing(c, files, gen + 1);
    StreamIs(c, []);
    var both, logs := files[gen + 1 := []][gen := []], LogsOf(c, files);
    WrittenIs(c, files, logs);
    forall g ensures WrittenAt(c, both, Compacting(logs, gen, []), g) { assert WrittenAt(c, files, logs, g); }
  }

  lemma {:induction false} BeginsMidway(c: Codec, files: Files, index: map<string, CmdMetadata>, gen: nat)
    requires Faithful(c) && Readable(c, files) && (forall g :: g in files ==> g < gen)
    requires index == Indexed(map[], Flat(c, LogsOf(c, files)))
    ensures Midway(c, LogsOf(c, files), index, Contents(c, LogsOf(c, files)), gen, [], files[gen + 1 := []][gen := []],
                   index)
  {
    Begun(c, files, gen);
    IndexPlaces(c, LogsOf(c, files));
  }

  /** The disk with all generations older than `gen` gone. */
  ghost predicate Trimmed(files: Files, gen: nat, left: Files) {
    && (forall g :: g in left <==> g in files && gen <= g)
    && (forall g :: g in left ==> left[g] == files[g])
  }

  /** The disk with some generations older than `gen` gone, the oldest of them first. */
  ghost predicate DropsOldest(files: Files, gen: nat, left: Files) {
    exists dropped: set<nat> :: DropsThese(files, gen, left, dropped)
  }

  ghost predicate DropsThese(files: Files, gen: nat, left: Files, dropped: set<nat>) {
    left == files - dropped && (forall g :: g in dropped ==> g < gen) && OldestFirst(files.Keys, dropped)
  }

  /** Of the first `i` generations, those before `gen` are dropped. */
  ghost predicate DroppedTo(gens: seq<nat>, i: nat, gen: nat, dropped: set<nat>)
    requires i <= |gens|
  {
    && (forall g :: g in dropped ==> g < gen && exists j :: 0 <= j < i && gens[j] == g)
    && (forall j :: 0 <= j < i && gens[j] < gen ==> gens[j] in dropped)
  }

  lemma DropsOneMore(gens: seq<nat>, i: nat, gen: nat, dropped: set<nat>)
    requires i < |gens| && DroppedTo(gens, i, gen, dropped)
    ensures DroppedTo(gens, i + 1, gen, if gens[i] < gen then dropped + {gens[i]} else dropped)
  {
  }

  lemma SoFar(gens: seq<nat>, i: nat, gen: nat, dropped: set<nat>, files: Files, left: Files)
    requires Ascending(gens) && i <= |gens| && (forall g :: g in gens <==> g in files)
    requires DroppedTo(gens, i, gen, dropped) && left == files - dropped
    ensures DropsOldest(files, gen, left)
  {
    forall g, h | g in files && h in dropped && g < h ensures g in dropped {
      assert g in gens;
      var a :| 0 <= a < |gens| && gens[a] == g;
      var b :| 0 <= b < i && gens[b] == h;
      assert a < b;
    }
    forall g | g in dropped ensures g in files { assert g in gens; }
    assert DropsThese(files, gen, left, dropped);
  }

  lemma AllDropped(gens: seq<nat>, gen: nat, dropped: set<nat>, files: Files, left: Files)
    requires (forall g :: g in gens <==> g in files) && DroppedTo(gens, |gens|, gen, dropped) && left == files - dropped
    ensures Trimmed(files, gen, left)
  {
    forall g | g in files && g < gen ensures g in dropped {
      assert g in gens;
      var j :| 0 <= j < |gens| && gens[j] == g;
    }
  }

  lemma {:induction false} DroppingIsSafe(c: Codec, logs: Logs, from: map<string, CmdMetadata>, gen: nat,
                                          ms: seq<Command>, written: Files, index: map<string, CmdMetadata>,
                                          history: seq<Files>, n: nat)
    requires Midway(c, logs, from, Contents(c, logs), gen, ms, written, index) && Covers(ms, Contents(c, logs))
    requires LosesOldest(written, gen, history, n)
    ensures SafeFrom(c, history, n, Contents(c, logs))
  {
    forall i | n <= i < |history| ensures OpensTo(c, history[i], Contents(c, logs)) {
      assert DropsOldest(written, gen, history[i]);
      var dropped: set<nat> :| DropsThese(written, gen, history[i], dropped);
      DropFromWritten(c, logs, gen, ms, written, history[i], dropped);
      DroppingKeeps(c, logs, dropped, gen, ms);
    }
  }

  lemma DropFromWritten(c: Codec, logs: Logs, gen: nat, ms: seq<Command>, written: Files, left: Files,
                        dropped: set<nat>)
    requires Written(c, written, Compacting(logs, gen, ms))
    requires Below(logs, gen) && DropsThese(written, gen, left, dropped)
    ensures Readable(c, left) && LogsOf(c, left) == Compacting(logs - dropped, gen, ms)
    ensures OldestFirst(logs.Keys, dropped)
  {
    MidwayFiles(c, logs, gen, ms, written);
    var now := Compacting(logs - dropped, gen, ms);
    forall g ensures WrittenAt(c, left, now, g) { assert WrittenAt(c, written, Compacting(logs, gen, ms), g); }
    WrittenIs(c, left, now);
  }

  /** Once the older generations are gone, the index is that of what is left. */
  lemma {:induction false} Compacted(c: Codec, logs: Logs, from: map<string, CmdMetadata>, gen: nat, ms: seq<Command>,
                                     written: Files, left: Files, index: map<string, CmdMetadata>)
    requires Midway(c, logs, from, Contents(c, logs), gen, ms, written, index) && Covers(ms, Contents(c, logs))
    requires Trimmed(written, gen, left) && Once(ms)
    ensures Readable(c, left) && (forall g :: g in left <==> g == gen || g == gen + 1)
    ensures Contents(c, LogsOf(c, left)) == Contents(c, logs)
    ensures index == Indexed(map[], Flat(c, LogsOf(c, left)))
    ensures Weight(Flat(c, LogsOf(c, left))) == TotalLen(index)
  {
    CopiesWeigh(c, gen, ms);
    CompactedLogs(c, logs, gen, ms, written, left);
    DroppingKeeps(c, logs, logs.Keys, gen, ms);
    FlatCompacted(c, gen, ms);
    FreshAfter(c, logs, from, gen, ms);
  }

  lemma CompactedLogs(c: Codec, logs: Logs, gen: nat, ms: seq<Command>, written: Files, left: Files)
    requires Written(c, written, Compacting(logs, gen, ms)) && Below(logs, gen)
    requires Trimmed(written, gen, left)
    ensures Readable(c, left) && forall g :: g in left <==> g == gen || g == gen + 1
    ensures LogsOf(c, left) == Compacting(logs - logs.Keys, gen, ms) == Compacting(map[], gen, ms)
  {
    MidwayFiles(c, logs, gen, ms, written);
    assert left == written - logs.Keys;
    DropFromWritten(c, logs, gen, ms, written, left, logs.Keys);
    assert logs - logs.Keys == map[];
  }

  lemma FlatCompacted(c: Codec, gen: nat, ms: seq<Command>)
    ensures Flat(c, Compacting(map[], gen, ms)) == Records(c, gen, ms)
  {
    FlatCompacting(c, map[], gen, ms);
    FlatNothing(c);
    assert [] + Records(c, gen, ms) == Records(c, gen, ms);
  }

  lemma FreshAfter(c: Codec, logs: Logs, from: map<string, CmdMetadata>, gen: nat, ms: seq<Command>)
    requires Places(c, logs, from, Contents(c, logs))
    requires Covers(ms, Contents(c, logs)) && Rewrites(ms, Contents(c, logs))
    ensures Indexed(from, Records(c, gen, ms)) == Indexed(map[], Records(c, gen, ms))
  {
    forall k | k in from ensures Mentions(ms, k) { assert PlaceOk(c, logs, from, Contents(c, logs), k); }
    IndexIsFresh(c, from, gen, ms);
  }

  lemma MentionsPush(ms: seq<Command>, m: Command)
    ensures forall k :: Mentions(ms + [m], k) <==> Mentions(ms, k) || m.key == k
  {
    forall k ensures Mentions(ms + [m], k) <==> Mentions(ms, k) || m.key == k {
      if Mentions(ms, k) {
        var i :| 0 <= i < |ms| && ms[i].key == k;
        assert (ms + [m])[i].key == k;
      }
      assert (ms + [m])[|ms|] == m;
    }
  }

  lemma AllCopied(c: Codec, logs: Logs, from: map<string, CmdMetadata>, m: map<string, string>, ms: seq<Command>)
    requires Places(c, logs, from, m) && forall k :: k in from ==> Mentions(ms, k)
    ensures Covers(ms, m)
  {
    forall k | k in m ensures Mentions(ms, k) { assert PlaceOk(c, logs, from, m, k); }
  }
}
