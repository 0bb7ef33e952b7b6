/** The rotating log file: numbered backups behind a current file, written record
    by record. No I/O fails. */
module LogRotator {
  import opened Wrappers

  type Record = seq<char>

  // The file at index 0 is the current one; a missing index is a missing file.
  type Files = map<nat, seq<Record>>

  function Bytes(records: seq<Record>): string {
    if records == [] then "" else Bytes(records[..|records| - 1]) + records[|records| - 1]
  }

  datatype Limits = Limits(maxBytes: int, maxBackups: nat)

  // Every present file moves up one place, the last one is lost, and the
  // current one starts empty; without backups the current one is truncated.
  function Rotated(files: Files, maxBackups: nat): Files {
    map j | j in ShiftedUp(files.Keys, maxBackups) ::
      if j == 0 then [] else if j > maxBackups then files[j] else files[j - 1]
  }

  function ShiftedUp(present: set<nat>, maxBackups: nat): set<nat> {
    {0} + (set k | k in present && k > maxBackups) + (set k | k in present && k < maxBackups :: k + 1)
  }

  lemma RotatedAt(files: Files, maxBackups: nat, j: nat)
    ensures j in Rotated(files, maxBackups) <==> j == 0 || (if j > maxBackups then j in files else j - 1 in files)
    ensures At(Rotated(files, maxBackups), j) == if j == 0 then [] else if j > maxBackups then At(files, j) else At(files, j - 1)
  {
  }

  predicate Rotates(current: seq<Record>, p: Record, l: Limits) {
    |Bytes(current)| > 0 && |Bytes(current)| + |p| > l.maxBytes
  }

  function Write(files: Files, p: Record, l: Limits): Files
    requires 0 in files
  {
    var f := if Rotates(files[0], p, l) then Rotated(files, l.maxBackups) else files;
    f[0 := f[0] + [p]]
  }

  function At(files: Files, j: nat): seq<Record> {
    if j in files then files[j] else []
  }

  // The records read from backup `n` down to the current file.
  function History(files: Files, n: nat): seq<Record> {
    At(files, n) + if n == 0 then [] else History(files, n - 1)
  }

  // What one write discards.
  function Lost(files: Files, p: Record, l: Limits): seq<Record>
    requires 0 in files
  {
    if Rotates(files[0], p, l) then At(files, l.maxBackups) else []
  }

  lemma {:induction false} RotatedHistory(files: Files, maxBackups: nat, n: nat)
    requires 0 in files && n <= maxBackups
    ensures History(Rotated(files, maxBackups), n) == if n == 0 then [] else History(files, n - 1)
  {
    hide Rotated;
    RotatedAt(files, maxBackups, n);
    if n > 0 {
      RotatedHistory(files, maxBackups, n - 1);
    }
  }

  lemma {:induction false} AppendHistory(files: Files, p: Record, n: nat)
    requires 0 in files
    ensures History(files[0 := files[0] + [p]], n) == History(files, n) + [p]
  {
    if n > 0 {
      AppendHistory(files, p, n - 1);
    }
  }

  // A write loses nothing, or exactly the whole oldest file, and adds the record
  // at the end.
  lemma WriteHistory(files: Files, p: Record, l: Limits)
    requires 0 in files
    ensures 0 in Write(files, p, l)
    ensures Lost(files, p, l) + History(Write(files, p, l), l.maxBackups) == History(files, l.maxBackups) + [p]
  {
    hide Rotated;
    RotatedAt(files, l.maxBackups, 0);
    var f := if Rotates(files[0], p, l) then Rotated(files, l.maxBackups) else files;
    AppendHistory(f, p, l.maxBackups);
    assert History(files, l.maxBackups) == At(files, l.maxBackups) + if l.maxBackups == 0 then [] else History(files, l.maxBackups - 1);
    hide History;
    if Rotates(files[0], p, l) {
      RotatedHistory(files, l.maxBackups, l.maxBackups);
    }
  }

  // A run of writes, and what it discards, file by file.

  function Run(files: Files, ps: seq<Record>, l: Limits): (r: Files)
    requires 0 in files
    ensures 0 in r
  {
    if ps == [] then files else Write(Run(files, ps[..|ps| - 1], l), ps[|ps| - 1], l)
  }

  function RunLost(files: Files, ps: seq<Record>, l: Limits): seq<seq<Record>>
    requires 0 in files
  {
    if ps == [] then []
    else
      var before := Run(files, ps[..|ps| - 1], l);
      RunLost(files, ps[..|ps| - 1], l) + if Rotates(before[0], ps[|ps| - 1], l) then [At(before, l.maxBackups)] else []
  }

  function Flatten(files: seq<seq<Record>>): seq<Record> {
    if files == [] then [] else Flatten(files[..|files| - 1]) + files[|files| - 1]
  }

  // Whatever files were there at the start and whatever is written, the files
  // read from oldest to current are a suffix of everything ever in them, and
  // what is missing in front is a sequence of whole files.
  lemma {:induction false} RotationKeepsHistory(files: Files, ps: seq<Record>, l: Limits)
    requires 0 in files
    ensures Flatten(RunLost(files, ps, l)) + History(Run(files, ps, l), l.maxBackups) == History(files, l.maxBackups) + ps
  {
    hide *;
    if ps == [] {
      RunNone(files, l);
      var h := History(files, l.maxBackups);
      assert [] + h == h + [];
    } else {
      var init, p := ps[..|ps| - 1], ps[|ps| - 1];
      RotationKeepsHistory(files, init, l);
      RotationStep(files, init, p, l);
      assert ps == init + [p];
    }
  }

  lemma RunNone(files: Files, l: Limits)
    requires 0 in files
    ensures Run(files, [], l) == files && Flatten(RunLost(files, [], l)) == []
  {
  }

  lemma RotationStep(files: Files, init: seq<Record>, p: Record, l: Limits)
    requires 0 in files
    requires Flatten(RunLost(files, init, l)) + History(Run(files, init, l), l.maxBackups) == History(files, l.maxBackups) + init
    ensures Flatten(RunLost(files, init + [p], l)) + History(Run(files, init + [p], l), l.maxBackups)
         == History(files, l.maxBackups) + (init + [p])
  {
    var before, lost, m := Run(files, init, l), Flatten(RunLost(files, init, l)), l.maxBackups;
    RunStep(files, init, p, l);
    WriteHistory(before, p, l);
    hide *;
    Rejoin(lost, Lost(before, p, l), History(Write(before, p, l), m), History(before, m), History(files, m), init, p);
  }

  lemma Rejoin(lost: seq<Record>, more: seq<Record>, now: seq<Record>, before: seq<Record>, start: seq<Record>, init: seq<Record>, p: Record)
    requires lost + before == start + init && more + now == before + [p]
    ensures (lost + more) + now == start + (init + [p])
  {
    assert (lost + more) + now == lost + (more + now);
    assert lost + (before + [p]) == (lost + before) + [p];
  }

  lemma RunStep(files: Files, init: seq<Record>, p: Record, l: Limits)
    requires 0 in files
    ensures var before := Run(files, init, l);
      && Run(files, init + [p], l) == Write(before, p, l)
      && Flatten(RunLost(files, init + [p], l)) == Flatten(RunLost(files, init, l)) + Lost(before, p, l)
  {
    assert (init + [p])[..|init|] == init;
    FlattenSnoc(RunLost(files, init, l), At(Run(files, init, l), l.maxBackups));
  }

  lemma FlattenSnoc(files: seq<seq<Record>>, f: seq<Record>)
    ensures Flatten(files + [f]) == Flatten(files) + f && Flatten(files + []) == Flatten(files)
  {
    assert (files + [f])[..|files|] == files && files + [] == files;
  }

  // The number of rotations in a run: the files below it were all started by
  // the writer.
  function Rotations(files: Files, ps: seq<Record>, l: Limits): nat
    requires 0 in files
  {
    |RunLost(files, ps, l)|
  }

  // No longer than the limit, unless one record alone is.
  predicate Fits(f: seq<Record>, l: Limits) {
    |Bytes(f)| <= l.maxBytes || exists k :: 0 <= k < |f| && Bytes(f) == f[k]
  }

  lemma BytesSnoc(f: seq<Record>, p: Record)
    ensures Bytes(f + [p]) == Bytes(f) + p
  {
  }

  // A file the writer starts holds at most the limit, or a single larger record:
  // each one a rotation started, and the first one too if it did so at the start,
  // as it does when the writer had to create it.
  lemma {:induction false} StartedFilesFit(files: Files, ps: seq<Record>, l: Limits, j: nat)
    requires 0 in files
    requires j < Rotations(files, ps, l) || (j == Rotations(files, ps, l) && Fits(files[0], l))
    requires j <= l.maxBackups && j in Run(files, ps, l)
    ensures Fits(Run(files, ps, l)[j], l)
  {
    hide Rotated;
    if ps != [] {
      var init, p := ps[..|ps| - 1], ps[|ps| - 1];
      var before := Run(files, init, l);
      RotatedAt(before, l.maxBackups, j);
      RotatedAt(before, l.maxBackups, 0);
      if Rotates(before[0], p, l) {
        if j == 0 {
          BytesSnoc([], p);
          assert [p][0] == p && [] + [p] == [p] && "" + p == p;
        } else {
          StartedFilesFit(files, init, l, j - 1);
        }
      } else {
        StartedFilesFit(files, init, l, j);
        if j == 0 {
          BytesSnoc(before[0], p);
          if Bytes(before[0]) == "" {
            assert (before[0] + [p])[|before[0]|] == p;
          }
        }
      }
    }
  }

  // What the writer creates fits.
  lemma CreatedFileFits(l: Limits)
    ensures Fits([""], l)
  {
    BytesSnoc([], "");
    assert [] + [""] == [""] && [""][0] == "";
  }

  // Where the contents of the file at `j` come from once renaming has worked its
  // way down to `i`, of `n` backups.
  function Source(j: nat, i: nat, n: nat): Option<nat> {
    if j > n || j <= i then Some(j) else if j == i + 1 then None else Some(j - 1)
  }

  ghost predicate RenamedTo(disk: map<nat, string>, was: map<nat, string>, i: nat, n: nat) {
    forall j: nat ::
      var from := Source(j, i, n);
      && (j in disk <==> from.Some? && from.value in was)
      && (j in disk ==> disk[j] == was[from.value])
  }

  ghost predicate MovedUp(disk: map<nat, string>, was: map<nat, string>, n: nat) {
    forall j: nat :: MovedAt(disk, was, n, j)
  }

  predicate MovedAt(disk: map<nat, string>, was: map<nat, string>, n: nat, j: nat) {
    && (j in disk <==> j == 0 || (if j > n then j in was else j - 1 in was))
    && (j in disk ==> disk[j] == if j == 0 then "" else if j > n then was[j] else was[j - 1])
  }

  method RenameUp(was: map<nat, string>, n: nat) returns (disk: map<nat, string>)
    requires 0 in was
    ensures MovedUp(disk, was, n)
  {
    disk := was;
    if n > 0 {
      disk := disk - {n};
      var i := n - 1;
      while i >= 1
        invariant 0 <= i <= n - 1
        invariant RenamedTo(disk, was, i, n)
      {
        assert Source(i, i, n) == Some(i) && Source(i + 1, i, n).None?;
        if i in disk {
          disk := disk[i + 1 := disk[i]] - {i};
        }
        i := i - 1;
      }
      assert forall j: nat :: j in disk <==> Source(j, 0, n).Some? && Source(j, 0, n).value in was;
      disk := disk[1 := disk[0]] - {0};
    }
    disk := disk[0 := ""];
  }

  lemma RotatedBytes(disk: map<nat, string>, records: Files, now: map<nat, string>, n: nat)
    requires disk.Keys == records.Keys && (forall j :: j in disk ==> disk[j] == Bytes(records[j])) && MovedUp(now, disk, n)
    ensures 0 in now && |now[0]| == 0 && now.Keys == Rotated(records, n).Keys
    ensures forall j :: j in now ==> now[j] == Bytes(Rotated(records, n)[j])
  {
    hide Rotated;
    assert MovedAt(now, disk, n, 0);
    forall j: nat
      ensures j in now <==> j in Rotated(records, n)
      ensures j in now ==> now[j] == Bytes(Rotated(records, n)[j])
    {
      RotatedAt(records, n, j);
      assert MovedAt(now, disk, n, j);
    }
  }

  // The writer, on bytes. `records` remembers what each file was written from.
  class RotatingFileWriter {
    const limits: Limits
    var disk: map<nat, string>
    var size: nat
    ghost var records: Files

    ghost predicate Valid()
      reads this
    {
      && 0 in disk && size == |disk[0]| && disk.Keys == records.Keys
      && forall j :: j in disk ==> disk[j] == Bytes(records[j])
    }

    // Opens or creates the current file behind whatever backups are there.
    constructor (found: map<nat, string>, limits: Limits)
      ensures Valid() && this.limits == limits
      ensures disk == if 0 in found then found else found[0 := ""]
      ensures records == map j | j in disk :: [disk[j]]
    {
      this.limits := limits;
      disk := if 0 in found then found else found[0 := ""];
      size := if 0 in found then |found[0]| else 0;
      var all := if 0 in found then found else found[0 := ""];
      records := map j | j in all :: [all[j]];
      new;
      forall j | j in disk
        ensures disk[j] == Bytes(records[j])
      {
        BytesSnoc([], disk[j]);
        assert [] + [disk[j]] == [disk[j]];
      }
    }

    // Renames the backups from the oldest down, then the current file.
    method Rotate()
      requires Valid()
      modifies this`disk, this`size, this`records
      ensures Valid() && records == Rotated(old(records), limits.maxBackups) && disk[0] == ""
    {
      var now := RenameUp(disk, limits.maxBackups);
      RotatedBytes(disk, records, now, limits.maxBackups);
      disk := now;
      size := 0;
      records := Rotated(records, limits.maxBackups);
    }

    method WriteRecord(p: Record)
      requires Valid()
      modifies this`disk, this`size, this`records
      ensures Valid() && 0 in old(records) && records == Write(old(records), p, limits)
      ensures 0 in old(disk)
      ensures if |old(disk)[0]| == 0 || |old(disk)[0]| + |p| <= limits.maxBytes then disk == old(disk)[0 := old(disk)[0] + p]
              else disk[0] == p
    {
      hide Rotated, Bytes;
      if size > 0 && size + |p| > limits.maxBytes {
        Rotate();
      }
      Append(p);
    }

    method Append(p: Record)
      requires Valid()
      modifies this`disk, this`size, this`records
      ensures Valid() && 0 in old(records) && records == old(records)[0 := old(records)[0] + [p]]
      ensures 0 in old(disk) && disk == old(disk)[0 := old(disk)[0] + p]
    {
      BytesSnoc(records[0], p);
      hide Bytes;
      disk := disk[0 := disk[0] + p];
      size := size + |p|;
      records := records[0 := records[0] + [p]];
    }
  }
}
