/** Saving a value in a file: it is written to a temporary file in the same directory, synced,
    and renamed over the old one. Each step may fail, and the machine may stop between any two
    of them. The directory is not synced: a rename reaches the disk some time later, and a
    machine that stops before may come up with the file that stood there earlier. */
module SaveFile {
  import opened Prelude

  type Name = int

  /** What a file holds: a whole encoded value, or anything else. */
  datatype Content<S> = Of(value: S) | Torn

  /** Contents that are not synced may be gone after a crash. */
  datatype File<S> = File(content: Content<S>, synced: bool)

  /** The directory as programs see it, and what stood under the path before each of the renames
      that are not on disk yet, oldest first. */
  datatype Disk<S> = Disk(files: map<Name, File<S>>, earlier: seq<Option<File<S>>>)

  const PATH: Name := 0

  function Entry<S>(files: map<Name, File<S>>): Option<File<S>> {
    if PATH in files then Some(files[PATH]) else None
  }

  /** A value as it stands in a file that was synced; the first save finds none. */
  function Whole<S>(v: Option<S>): Option<File<S>> {
    if v.Some? then Some(File(Of(v.value), true)) else None
  }

  /** How far a call of Save has come; the name is that of its temporary file. */
  datatype Stage =
    | Encoding
    | MakingDir
    | CreatingTemp
    | Protecting(temp: Name)
    | Writing(temp: Name)
    | Syncing(temp: Name)
    | Closing(temp: Name)
    | Renaming(temp: Name)
    | Removing(temp: Name, ok: bool)   // the deferred removal, before returning ok
    | Returned(ok: bool)

  function Put<S>(d: Disk<S>, n: Name, f: File<S>): Disk<S> { d.(files := d.files[n := f]) }

  /** The file n takes the place of the path's. */
  function Renamed<S>(d: Disk<S>, n: Name): Disk<S>
    requires n in d.files
  {
    Disk((d.files - {n})[PATH := d.files[n]], d.earlier + [Entry(d.files)])
  }

  /** The next step of saving v, which succeeds or not; `pick` is the name that the
      temporary file would get. */
  function Next<S>(d: Disk<S>, st: Stage, v: S, ok: bool, pick: Name): (Disk<S>, Stage) {
    match st
    case Encoding => (d, if ok then MakingDir else Returned(false))
    case MakingDir => (d, if ok then CreatingTemp else Returned(false))
    case CreatingTemp =>
      if ok && pick !in d.files && pick != PATH then (Put(d, pick, File(Torn, false)), Protecting(pick))
      else (d, Returned(false))
    case Protecting(n) => (d, if ok then Writing(n) else Removing(n, false))
    case Writing(n) =>
      if ok then (Put(d, n, File(Of(v), false)), Syncing(n)) else (Put(d, n, File(Torn, false)), Removing(n, false))
    case Syncing(n) =>
      if ok && n in d.files then (Put(d, n, File(d.files[n].content, true)), Closing(n)) else (d, Removing(n, false))
    case Closing(n) => (d, if ok then Renaming(n) else Removing(n, false))
    case Renaming(n) =>
      if ok && n in d.files then (Renamed(d, n), Removing(n, true)) else (d, Removing(n, false))
    case Removing(n, r) => (if n == PATH then d else d.(files := d.files - {n}), Returned(r))
    case Returned(_) => (d, st)
  }

  /** What may stand under the path after the machine has stopped. */
  function Entries<S>(d: Disk<S>): seq<Option<File<S>>> { d.earlier + [Entry(d.files)] }

  /** The machine has stopped and the first k of the renames not yet flushed were on disk: a
      file that was synced is intact, one that was not may hold anything, and of the temporary
      files nothing is known. */
  ghost predicate Survives<S(!new)>(before: Disk<S>, after: Disk<S>, k: nat) {
    && k <= |before.earlier| && after.earlier == []
    && var e := Entries(before)[k];
       if e.Some? && e.value.synced then Entry(after.files) == e else Entry(after.files).Some? <==> e.Some?
  }

  /** The file has been renamed. */
  predicate Committed(st: Stage) { (st.Removing? || st.Returned?) && st.ok }

  /** During a save of v over the value u, if there is one: the named file holds u until the
      rename and v after it, whole and synced, and u can come back until the rename is flushed. */
  ghost predicate Progress<S>(d: Disk<S>, st: Stage, u: Option<S>, v: S) {
    && Entry(d.files) == Whole(if Committed(st) then Some(v) else u)
    && (st.Protecting? || st.Writing? || st.Syncing? || st.Closing? || st.Renaming? ==>
         st.temp != PATH && st.temp in d.files)
    && (st.Removing? ==> st.temp != PATH)
    && (st.Syncing? ==> d.files[st.temp].content == Of(v))
    && (st.Closing? || st.Renaming? ==> d.files[st.temp] == File(Of(v), true))
  }

  /** The renames that a step adds. */
  function Added<S>(st: Stage, next: Stage, u: Option<S>): seq<Option<File<S>>> {
    if Committed(next) && !Committed(st) then [Whole(u)] else []
  }

  lemma NextKeeps<S>(d: Disk<S>, st: Stage, u: Option<S>, v: S, ok: bool, pick: Name)
    requires Progress(d, st, u, v)
    ensures var r := Next(d, st, v, ok, pick);
      && Progress(r.0, r.1, u, v) && r.0.earlier == d.earlier + Added(st, r.1, u)
      && (Committed(st) ==> Committed(r.1))
  {
  }

  function Temp(st: Stage): Option<Name> {
    match st
    case Protecting(n) => Some(n)
    case Writing(n) => Some(n)
    case Syncing(n) => Some(n)
    case Closing(n) => Some(n)
    case Renaming(n) => Some(n)
    case Removing(n, _) => Some(n)
    case _ => None
  }

  /** A whole call, given the outcome of each step. */
  function SaveFrom<S>(d: Disk<S>, st: Stage, v: S, oks: seq<bool>, pick: Name): (Disk<S>, Stage)
    decreases |oks|
  {
    if oks == [] then (d, st) else
      var r := Next(d, st, v, oks[0], pick);
      SaveFrom(r.0, r.1, v, oks[1..], pick)
  }

  function StepsLeft(st: Stage): nat {
    match st
    case Encoding => 9
    case MakingDir => 8
    case CreatingTemp => 7
    case Protecting(_) => 6
    case Writing(_) => 5
    case Syncing(_) => 4
    case Closing(_) => 3
    case Renaming(_) => 2
    case Removing(_, _) => 1
    case Returned(_) => 0
  }

  lemma {:induction false} SaveKeeps<S(!new)>(
    d: Disk<S>, st: Stage, u: Option<S>, v: S, oks: seq<bool>, pick: Name)
    requires Progress(d, st, u, v)
    ensures var r := SaveFrom(d, st, v, oks, pick);
      && Progress(r.0, r.1, u, v) && r.0.earlier == d.earlier + Added(st, r.1, u)
      && (Committed(st) ==> Committed(r.1))
      && (|oks| >= StepsLeft(st) ==> r.1.Returned?)
    decreases |oks|
  {
    if oks != [] {
      NextKeeps(d, st, u, v, oks[0], pick);
      var r := Next(d, st, v, oks[0], pick);
      SaveKeeps(r.0, r.1, u, v, oks[1..], pick);
    }
  }

  /** Whatever fails, and whenever the machine stops, k being how many renames not flushed
      before it had reached the disk: the path has the old value whole or the new value
      whole, or, if even earlier renames are lost, what stood there before them. It has the new
      one exactly if the rename was done and is not lost. A call that has returned success has
      done it, and one that returned an error has not. */
  lemma SaveIsAtomic<S(!new)>(
    d: Disk<S>, u: Option<S>, v: S, oks: seq<bool>, pick: Name, after: Disk<S>, k: nat)
    requires Entry(d.files) == Whole(u)
    requires Survives(SaveFrom(d, Encoding, v, oks, pick).0, after, k)
    ensures var st := SaveFrom(d, Encoding, v, oks, pick).1;
      && (k >= |d.earlier| ==>
           Entry(after.files) == Whole(if Committed(st) && k == |d.earlier| + 1 then Some(v) else u))
      && (k < |d.earlier| && d.earlier[k].Some? && d.earlier[k].value.synced ==> Entry(after.files) == d.earlier[k])
      && (|oks| >= 9 ==> st == Returned(Committed(st)))
  {
    SaveKeeps(d, Encoding, u, v, oks, pick);
  }

  // ---- the call as a whole ----

  /** The outcomes of the eight operations, and of the deferred removal, which nobody looks at. */
  function Outcomes(works: nat -> bool): seq<bool> { seq(9, k requires 0 <= k < 9 => k < 8 && works(k)) }

  lemma {:induction false} ReturnedStays<S>(d: Disk<S>, st: Stage, v: S, oks: seq<bool>, pick: Name)
    requires st.Returned?
    ensures SaveFrom(d, st, v, oks, pick) == (d, st)
    decreases |oks|
  {
    if oks != [] { ReturnedStays(d, st, v, oks[1..], pick); }
  }

  lemma FromHere<S>(d: Disk<S>, st: Stage, v: S, oks: seq<bool>, i: nat, pick: Name)
    requires i < |oks|
    ensures var r := Next(d, st, v, oks[i], pick);
      SaveFrom(d, st, v, oks[i..], pick) == SaveFrom(r.0, r.1, v, oks[i + 1..], pick)
  {
    assert oks[i..][1..] == oks[i + 1..];
  }

  /** The deferred removal of the temporary file, and the return. */
  lemma Ends<S>(d: Disk<S>, e: Disk<S>, n: Name, r: bool, v: S, oks: seq<bool>, i: nat, pick: Name)
    requires n != PATH && i < |oks| && e == d.(files := d.files - {n})
    ensures SaveFrom(d, Removing(n, r), v, oks[i..], pick) == (e, Returned(r))
  {
    FromHere(d, Removing(n, r), v, oks, i, pick);
    ReturnedStays(e, Returned(r), v, oks[i + 1..], pick);
  }

  lemma FailsEarly<S>(d: Disk<S>, st: Stage, v: S, oks: seq<bool>, i: nat, pick: Name)
    requires i < |oks| && !oks[i] && (st.Encoding? || st.MakingDir? || st.CreatingTemp?)
    ensures SaveFrom(d, st, v, oks[i..], pick) == (d, Returned(false))
  {
    FromHere(d, st, v, oks, i, pick);
    ReturnedStays(d, Returned(false), v, oks[i + 1..], pick);
  }

  /** From the writing of the temporary file on; f is what it holds so far. */
  lemma Written<S>(d: Disk<S>, f: File<S>, st: Stage, v: S, oks: seq<bool>, i: nat, n: Name)
    requires n !in d.files && n != PATH && |oks| == 9 && Temp(st) == Some(n) && !st.Removing?
    requires i == 9 - StepsLeft(st)
    requires (st.Syncing? ==> f.content == Of(v)) && (st.Closing? || st.Renaming? ==> f == File(Of(v), true))
    ensures SaveFrom(Put(d, n, f), st, v, oks[i..], n) ==
      if forall k :: i <= k < 8 ==> oks[k]
      then (Disk(d.files[PATH := File(Of(v), true)], d.earlier + [Entry(d.files)]), Returned(true))
      else (d, Returned(false))
    decreases 8 - i
  {
    var e := Put(d, n, f);
    FromHere(e, st, v, oks, i, n);
    assert e.files - {n} == d.files;
    if !oks[i] {
      var g := Next(e, st, v, false, n).0;
      assert g.files - {n} == d.files;
      Ends(g, d, n, false, v, oks, i + 1, n);
    } else if st.Renaming? {
      var g := Renamed(e, n);
      assert g.files - {n} == d.files[PATH := File(Of(v), true)];
      Ends(g, g.(files := g.files - {n}), n, true, v, oks, i + 1, n);
    } else {
      var r := Next(e, st, v, true, n);
      var h := r.0.files[n];
      assert r.0 == Put(d, n, h);
      Written(d, h, r.1, v, oks, i + 1, n);
    }
  }

  /** If all eight operations work, the new value stands whole under the path, synced, with the file
      before it still able to come back; if any fails, nothing has changed. */
  lemma SaveMeans<S>(d: Disk<S>, v: S, works: nat -> bool, pick: Name)
    requires pick !in d.files && pick != PATH
    ensures SaveFrom(d, Encoding, v, Outcomes(works), pick) ==
      if forall k: nat :: k < 8 ==> works(k)
      then (Disk(d.files[PATH := File(Of(v), true)], d.earlier + [Entry(d.files)]), Returned(true))
      else (d, Returned(false))
  {
    var oks := Outcomes(works);
    assert oks[0..] == oks && forall k :: 0 <= k < 8 ==> oks[k] == works(k);
    if !oks[0] {
      FailsEarly(d, Encoding, v, oks, 0, pick);
    } else {
      FromHere(d, Encoding, v, oks, 0, pick);
      if !oks[1] {
        FailsEarly(d, MakingDir, v, oks, 1, pick);
      } else {
        FromHere(d, MakingDir, v, oks, 1, pick);
        if !oks[2] {
          FailsEarly(d, CreatingTemp, v, oks, 2, pick);
        } else {
          FromHere(d, CreatingTemp, v, oks, 2, pick);
          Written(d, File(Torn, false), Protecting(pick), v, oks, 3, pick);
        }
      }
    }
  }

  /** The other files: all that are in d and not the call's own, as they were. */
  ghost predicate OthersAre<S>(d: Disk<S>, e: Disk<S>, st: Stage) {
    forall n :: n != PATH && Temp(st) != Some(n) ==>
      (n in e.files <==> n in d.files) && (n in d.files ==> e.files[n] == d.files[n])
  }

  lemma NextKeepsOthers<S>(d: Disk<S>, e: Disk<S>, st: Stage, v: S, ok: bool, pick: Name)
    requires OthersAre(d, e, st) && (Temp(st).Some? ==> Temp(st).value !in d.files)
    ensures var r := Next(e, st, v, ok, pick);
      OthersAre(d, r.0, r.1) && (Temp(r.1).Some? ==> Temp(r.1).value !in d.files)
  {
  }

  /** A call that returns, with success or not, has made and removed its own temporary file and
      left every other file alone, such as those an earlier crash left over. */
  lemma {:induction false} SaveCleansUp<S(!new)>(
    d: Disk<S>, e: Disk<S>, st: Stage, v: S, oks: seq<bool>, pick: Name)
    requires OthersAre(d, e, st) && (Temp(st).Some? ==> Temp(st).value !in d.files)
    ensures var r := SaveFrom(e, st, v, oks, pick);
      && OthersAre(d, r.0, r.1)
      && (r.1.Returned? ==> forall n :: n != PATH ==>
           (n in r.0.files <==> n in d.files) && (n in d.files ==> r.0.files[n] == d.files[n]))
    decreases |oks|
  {
    if oks != [] {
      NextKeepsOthers(d, e, st, v, oks[0], pick);
      var r := Next(e, st, v, oks[0], pick);
      SaveCleansUp(d, r.0, r.1, v, oks[1..], pick);
    }
  }

  /** The directory, and Save with its early exits. */
  class Directory<S(!new)> {
    var disk: Disk<S>

    constructor (d: Disk<S>)
      ensures disk == d
    {
      disk := d;
    }

    /** `works` says which of the eight operations succeed: encode, make the directory, create,
        protect, write, sync, close, rename. */
    method Save(v: S, works: nat -> bool, pick: Name) returns (ok: bool)
      requires pick !in disk.files && pick != PATH
      modifies this
      ensures ok <==> forall k: nat :: k < 8 ==> works(k)
      ensures ok ==> disk.files == old(disk).files[PATH := File(Of(v), true)]
      ensures ok ==> disk.earlier == old(disk).earlier + [Entry(old(disk).files)]
      ensures !ok ==> disk == old(disk)
      ensures (disk, Returned(ok)) == SaveFrom(old(disk), Encoding, v, Outcomes(works), pick)
    {
      SaveMeans(disk, v, works, pick);
      if !works(0) || !works(1) || !works(2) {
        return false;
      }
      disk := Put(disk, pick, File(Torn, false));
      ok := WriteAndRename(v, works, pick);
      disk := disk.(files := disk.files - {pick});
    }

    /** Everything between the creation of the temporary file and its deferred removal. */
    method WriteAndRename(v: S, works: nat -> bool, pick: Name) returns (ok: bool)
      requires pick in disk.files && pick != PATH
      modifies this
      ensures ok <==> forall k: nat :: 3 <= k < 8 ==> works(k)
      ensures ok ==> disk.files == (old(disk).files - {pick})[PATH := File(Of(v), true)]
      ensures ok ==> disk.earlier == old(disk).earlier + [Entry(old(disk).files)]
      ensures !ok ==> pick in disk.files && disk.files - {pick} == old(disk).files - {pick}
      ensures !ok ==> disk.earlier == old(disk).earlier
    {
      if !works(3) {
        return false;
      }
      if !works(4) {
        return false;
      }
      disk := Put(disk, pick, File(Of(v), false));
      if !works(5) {
        return false;
      }
      disk := Put(disk, pick, File(Of(v), true));
      if !works(6) || !works(7) {
        return false;
      }
      disk := Renamed(disk, pick);
      ok := true;
    }
  }
}
