module KvDisks {
  // The directory of log files, changed one file operation at a time and remembering
  // every state it has been in.

  import opened KvLogs

  type Files = map<nat, Bytes>

  /** One file operation: an empty file is created, bytes are appended to a file, or a file is deleted. */
  ghost predicate Operation(a: Files, b: Files) {
    exists g: nat :: Creates(a, b, g) || Extends(a, b, g) || Deletes(a, b, g)
  }

  ghost predicate Creates(a: Files, b: Files, g: nat) {
    g !in a && b == a[g := []]
  }

  ghost predicate Extends(a: Files, b: Files, g: nat) {
    g in a && exists bytes :: b == a[g := a[g] + bytes]
  }

  ghost predicate Deletes(a: Files, b: Files, g: nat) {
    g in a && b == a - {g}
  }

  ghost predicate Stepwise(history: seq<Files>) {
    forall i {:trigger StepAt(history, i)} :: 0 <= i < |history| - 1 ==> StepAt(history, i)
  }

  ghost predicate StepAt(history: seq<Files>, i: nat)
    requires i < |history| - 1
  {
    Operation(history[i], history[i + 1])
  }

  lemma StepsOn(history: seq<Files>, next: Files)
    requires history != [] && Stepwise(history) && Operation(history[|history| - 1], next)
    ensures Stepwise(history + [next])
  {
    var longer := history + [next];
    forall i | 0 <= i < |longer| - 1 ensures StepAt(longer, i) {
      if i < |history| - 1 {
        assert StepAt(history, i) && longer[i] == history[i] && longer[i + 1] == history[i + 1];
      } else {
        assert longer[i] == history[i] && longer[i + 1] == next;
      }
    }
  }

  class Disk {
    var files: Files
    ghost var history: seq<Files>  // every state so far, the present one last

    ghost predicate Valid()
      reads this
    {
      history != [] && history[|history| - 1] == files && Stepwise(history)
    }

    constructor (files: Files)
      ensures Valid() && this.files == files && history == [files]
    {
      this.files, history := files, [files];
    }

    method Create(g: nat)
      requires Valid() && g !in files
      modifies this
      ensures Valid() && files == old(files)[g := []] && history == old(history) + [files]
    {
      assert Creates(files, files[g := []], g);
      StepsOn(history, files[g := []]);
      files := files[g := []];
      history := history + [files];
    }

    method Append(g: nat, bytes: Bytes)
      requires Valid() && g in files
      modifies this
      ensures Valid() && files == old(files)[g := old(files)[g] + bytes] && history == old(history) + [files]
    {
      assert Extends(files, files[g := files[g] + bytes], g);
      StepsOn(history, files[g := files[g] + bytes]);
      files := files[g := files[g] + bytes];
      history := history + [files];
    }

    method Delete(g: nat)
      requires Valid() && g in files
      modifies this
      ensures Valid() && files == old(files) - {g} && history == old(history) + [files]
    {
      assert Deletes(files, files - {g}, g);
      StepsOn(history, files - {g});
      files := files - {g};
      history := history + [files];
    }
  }
}
