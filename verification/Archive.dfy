/** Archiving a KodoFS volume that is to be retained: DeleteVolume renames it to the first free name
    "deleted-i-id" (plugin/kodofs_controller_server.go:183-196). */
module Archive {
  import opened Text

  function Name(id: string, i: nat): string { "deleted-" + (FormatUint(i) + ("-" + id)) }

  /** What can go wrong at a probe: the lookup fails, or the rename does, before or after it took
      effect. */
  datatype Fault = NoFault | LookFault | RenameFault | RenameLost

  /** How the RPC ends. */
  datatype Verdict = Deleted | LookFailed(index: nat) | RenameFailed(index: nat)

  /** The volume under its archive name. */
  function Moved<T>(volumes: map<string, T>, id: string, i: nat): map<string, T>
    requires id in volumes
  {
    (volumes - {id})[Name(id, i) := volumes[id]]
  }

  ghost predicate AllTaken(names: set<string>, id: string, n: nat) { forall j :: 0 <= j < n ==> Name(id, j) in names }

  /** The first index whose name is free. */
  ghost predicate FirstFree<T>(volumes: map<string, T>, id: string, i: nat) {
    Name(id, i) !in volumes && AllTaken(volumes.Keys, id, i)
  }

  /** The volume has been moved to its first free name. */
  ghost predicate ArchivedAt<T>(before: map<string, T>, after: map<string, T>, id: string, i: nat) {
    id in before && FirstFree(before, id, i) && after == Moved(before, id, i)
  }

  lemma CutMiddle(p: string, a: string, b: string, s: string)
    requires p + (a + s) == p + (b + s)
    ensures a == b
  {
    var u := p + (a + s);
    assert |a| == |b|;
    assert a == u[|p|..][..|a|] && b == (p + (b + s))[|p|..][..|b|];
  }

  lemma NameInjective(id: string, i: nat, j: nat)
    requires Name(id, i) == Name(id, j)
    ensures i == j
  {
    CutMiddle("deleted-", FormatUint(i), FormatUint(j), "-" + id);
    FormatUintInjective(i, j);
  }

  /** An archive name starts with "deleted-" and the decimal index, and ends with the volume's id. */
  lemma NameIsSpelled(id: string, i: nat)
    ensures var number := FormatUint(i);
            && Name(id, i) == "deleted-" + number + "-" + id
            && AllDigits(number) && DecimalValue(number) == i
  {
    FormatUintDigits(i);
  }

  lemma NameIsNew(id: string, i: nat)
    ensures Name(id, i) != id
  {
    assert |Name(id, i)| > |id|;
  }

  /** Names with different indices are different, so they cannot all be taken. */
  lemma {:induction false} TakenNames(names: set<string>, id: string, n: nat)
    requires AllTaken(names, id, n)
    ensures n <= |names|
  {
    if n > 0 {
      var last := Name(id, n - 1);
      forall j | 0 <= j < n - 1 ensures Name(id, j) in names - {last} {
        if Name(id, j) == last {
          NameInjective(id, j, n - 1);
        }
      }
      TakenNames(names - {last}, id, n - 1);
    }
  }

  /** There is a first free index, and it is at most the number of volumes. */
  lemma {:induction false} FirstFreeExists<T>(volumes: map<string, T>, id: string, from: nat) returns (i: nat)
    requires AllTaken(volumes.Keys, id, from)
    ensures FirstFree(volumes, id, i) && i <= |volumes.Keys|
    decreases |volumes.Keys| - from
  {
    TakenNames(volumes.Keys, id, from);
    if Name(id, from) !in volumes {
      i := from;
    } else {
      TakenNames(volumes.Keys, id, from + 1);
      i := FirstFreeExists(volumes, id, from + 1);
    }
  }

  /** After the move, the next probes find all names up to the new one taken. */
  lemma MovedTakes<T>(volumes: map<string, T>, id: string, i: nat)
    requires id in volumes && FirstFree(volumes, id, i)
    ensures var m := Moved(volumes, id, i);
            id !in m && |m.Keys| == |volumes.Keys| && AllTaken(m.Keys, id, i + 1)
  {
    MovedKeeps(volumes, id, i, id);
    var m := Moved(volumes, id, i);
    forall j | 0 <= j < i + 1 ensures Name(id, j) in m {
      NameIsNew(id, j);
    }
  }

  /** A volume keeps its contents when it is moved, and so does every other one. */
  lemma MovedKeeps<T>(volumes: map<string, T>, id: string, i: nat, other: string)
    requires id in volumes && FirstFree(volumes, id, i)
    ensures var m := Moved(volumes, id, i);
            && m[Name(id, i)] == volumes[id] && id !in m && |m.Keys| == |volumes.Keys|
            && (other in volumes && other != id ==> other in m && m[other] == volumes[other])
            && (other in m ==> other == Name(id, i) || (other in volumes && m[other] == volumes[other]))
  {
    NameIsNew(id, i);
    var m := Moved(volumes, id, i);
    assert m.Keys == volumes.Keys - {id} + {Name(id, i)};
  }

  /** The KodoFS volumes of an account. */
  class Store<T> {
    var volumes: map<string, T>

    constructor (initial: map<string, T>)
      ensures volumes == initial
    {
      volumes := initial;
    }

    /** RenameVolume; renaming a volume that does not exist fails. */
    method Rename(from: string, to: string, fault: Fault) returns (ok: bool)
      modifies this
      ensures ok == (from in old(volumes) && fault.NoFault?)
      ensures volumes ==
              if from in old(volumes) && !fault.RenameFault?
              then (old(volumes) - {from})[to := old(volumes)[from]] else old(volumes)
    {
      ok := from in volumes && fault.NoFault?;
      if from in volumes && !fault.RenameFault? {
        volumes := (volumes - {from})[to := volumes[from]];
      }
    }

    /** The loop of DeleteVolume.  It has no successful exit: the RPC ends with the error of a lookup
        or of a rename, at a probe whose index is at most the number of volumes.  The volume is moved
        at most once, to the first free name, or stays as it is.  Without faults an existing volume is
        moved, and the error is that of renaming it once more, at the next free name. */
    method ArchiveVolume(id: string, faults: nat -> Fault) returns (verdict: Verdict)
      modifies this
      ensures !verdict.Deleted? && verdict.index <= |old(volumes).Keys| && AllTaken(volumes.Keys, id, verdict.index)
      ensures forall j :: 0 <= j < verdict.index ==> !faults(j).LookFault?
      ensures verdict.LookFailed? <==> faults(verdict.index).LookFault?
      ensures verdict.LookFailed? ==>
                || volumes == old(volumes)
                || exists i: nat :: i < verdict.index && ArchivedAt(old(volumes), volumes, id, i)
      ensures verdict.RenameFailed? ==>
                Name(id, verdict.index) !in volumes || ArchivedAt(old(volumes), volumes, id, verdict.index)
      ensures verdict.RenameFailed? ==> id !in old(volumes) || id !in volumes || faults(verdict.index).RenameFault?
      ensures || volumes == old(volumes)
              || (id in old(volumes) && exists i: nat :: i <= verdict.index && ArchivedAt(old(volumes), volumes, id, i))
      ensures (forall i :: faults(i) == NoFault) && id in old(volumes) ==>
                && verdict.RenameFailed? && id !in volumes && FirstFree(volumes, id, verdict.index)
                && exists i: nat :: i < verdict.index && ArchivedAt(old(volumes), volumes, id, i)
    {
      ghost var before := volumes;
      ghost var moved := false;
      ghost var at: nat := 0;
      var i := 0;
      while true
        invariant |volumes.Keys| == |before.Keys|
        invariant AllTaken(volumes.Keys, id, i)
        invariant forall j :: 0 <= j < i ==> !faults(j).LookFault?
        invariant !moved ==> volumes == before
        invariant moved ==> at < i && id !in volumes && ArchivedAt(before, volumes, id, at)
        decreases |before.Keys| - i
      {
        var newId := Name(id, i);
        if faults(i).LookFault? {
          TakenNames(volumes.Keys, id, i);
          return LookFailed(i);
        }
        if newId !in volumes {
          TakenNames(volumes.Keys, id, i);
          if id in volumes {
            MovedTakes(volumes, id, i);
          }
          ghost var was := volumes;
          var ok := Rename(id, newId, faults(i));
          assert volumes == was || ArchivedAt(was, volumes, id, i);
          if !ok {
            return RenameFailed(i);
          }
          moved, at := true, i;
        }
        TakenNames(volumes.Keys, id, i + 1);
        i := i + 1;
      }
    }
  }
}
